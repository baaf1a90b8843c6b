/**
 * The browser's small helpers: the Russian month label of a date, reading an
 * ISO date string, formatDate (DD.MM.YYYY) and calculateAverage.
 */
module Helpers {
  import opened Wrappers
  import opened Text
  import opened Calendar
  import opened Rounding
  import opened Sums

  /** The browser's month names, January first. */
  const MonthNames: seq<string> :=
    ["Январь", "Февраль", "Март", "Апрель", "Май", "Июнь",
     "Июль", "Август", "Сентябрь", "Октябрь", "Ноябрь", "Декабрь"]

  /** The Russian name of month m (1 = January). */
  function MonthName(m: int): (name: string)
    requires 1 <= m <= 12
    ensures name != [] && NoSpace(name)
  {
    MonthNames[m - 1]
  }

  /** Reading a month name back to its number: the inverse of MonthName. */
  function MonthOfName(name: string): (m: Option<int>)
    ensures m.Some? ==> 1 <= m.value <= 12 && MonthName(m.value) == name
  {
    if name == "Январь" then Some(1)
    else if name == "Февраль" then Some(2)
    else if name == "Март" then Some(3)
    else if name == "Апрель" then Some(4)
    else if name == "Май" then Some(5)
    else if name == "Июнь" then Some(6)
    else if name == "Июль" then Some(7)
    else if name == "Август" then Some(8)
    else if name == "Сентябрь" then Some(9)
    else if name == "Октябрь" then Some(10)
    else if name == "Ноябрь" then Some(11)
    else if name == "Декабрь" then Some(12)
    else None
  }

  lemma {:induction false} MonthOfNameOfMonth(m: int)
    requires 1 <= m <= 12
    ensures MonthOfName(MonthName(m)) == Some(m)
  {
    var n := MonthName(m);
    if m == 1 {
    } else if m == 2 {
      assert n[0] != 'Я';
    } else if m == 3 {
      assert n[0] !in "ЯФ";
    } else if m == 4 {
      assert n[0] !in "ЯФМ";
    } else if m == 5 {
      assert n[0] != 'Я' && n[0] != 'Ф' && |n| != 4 && n[0] != 'А';
    } else if m == 6 {
      assert n[0] !in "ЯФМА";
    } else if m == 7 {
      assert n[0] !in "ЯФМА" && n[2] != 'н';
    } else if m == 8 {
      assert n[0] != 'Я' && n[0] != 'Ф' && n[0] != 'М' && n[1] != 'п' && n[0] != 'И';
    } else if m == 9 {
      assert n[0] !in "ЯФМАИ";
    } else if m == 10 {
      assert n[0] !in "ЯФМАИС";
    } else if m == 11 {
      assert n[0] !in "ЯФМАИСО";
    } else {
      assert n[0] !in "ЯФМАИСОН";
    }
  }

  /** `${month name} ${year}`: how both tiers label a month. */
  function MonthLabel(m: int, year: int): string
    requires 1 <= m <= 12
  {
    MonthName(m) + " " + IntString(year)
  }

  /** Different months, or different years, never share a label. */
  lemma {:induction false} MonthLabelInjective(m1: int, y1: int, m2: int, y2: int)
    requires 1 <= m1 <= 12 && 1 <= m2 <= 12
    requires MonthLabel(m1, y1) == MonthLabel(m2, y2)
    ensures m1 == m2 && y1 == y2
  {
    var n1, n2 := MonthName(m1), MonthName(m2);
    var ys1, ys2 := IntString(y1), IntString(y2);
    IntStringHasNoSpace(y1);
    IntStringHasNoSpace(y2);
    assert ' ' !in ys1 && ' ' !in ys2 && ' ' !in n1 && ' ' !in n2;
    SplitOfJoined(n1, ' ', ys1);
    SplitOfJoined(n2, ' ', ys2);
    assert MonthLabel(m1, y1) == n1 + [' '] + ys1;
    assert MonthLabel(m2, y2) == n2 + [' '] + ys2;
    var parts := Split(MonthLabel(m1, y1), ' ');
    assert parts == [n1] + [ys1];
    assert parts == [n2] + [ys2];
    assert n1 == parts[0] == n2 && ys1 == parts[1] == ys2;
    MonthOfNameOfMonth(m1);
    MonthOfNameOfMonth(m2);
    IntStringInjective(y1, y2);
  }

  /** getCurrentMonth: `getMonth()` counts months from 0, hence the shift. */
  function GetCurrentMonth(now: Date): (text: string)
    requires ValidDate(now)
    ensures text == MonthLabel(now.month, now.year)
  {
    var monthIndex := now.month - 1;
    MonthNames[monthIndex] + " " + IntString(now.year)
  }

  /** Two clock readings get the same label exactly when they fall in the same month of the same year. */
  lemma {:induction false} GetCurrentMonthSameMonth(a: Date, b: Date)
    requires ValidDate(a) && ValidDate(b)
    ensures GetCurrentMonth(a) == GetCurrentMonth(b) <==> a.month == b.month && a.year == b.year
  {
    if GetCurrentMonth(a) == GetCurrentMonth(b) {
      MonthLabelInjective(a.month, a.year, b.month, b.year);
    }
  }

  /**
   * `new Date(s)` for the date-only ISO form YYYY-MM-DD, which is what a date
   * input yields; None stands for an Invalid Date.
   */
  function ParseIsoDate(s: string): (d: Option<Date>)
    ensures d.Some? ==> ValidDate(d.value) && 0 <= d.value.year <= 9999
    ensures d.Some? ==> |s| == 10 && s[4] == '-' && s[7] == '-'
  {
    if |s| == 10 && s[4] == '-' && s[7] == '-'
       && AllDigits(s[..4]) && AllDigits(s[5..7]) && AllDigits(s[8..])
    then
      DigitsValueOfFour(s[..4]);
      TwoDigitsOfDigitsValue(s[5..7]);
      TwoDigitsOfDigitsValue(s[8..]);
      var d := Date(DigitsValue(s[..4]), DigitsValue(s[5..7]), DigitsValue(s[8..]));
      if ValidDate(d) then Some(d) else None
    else None
  }

  lemma {:induction false} DigitsValueOfFour(s: string)
    requires |s| == 4 && AllDigits(s)
    ensures DigitsValue(s) <= 9999
  {
    assert DigitsValue(s[..1]) <= 9 by {
      assert s[..1][..0] == [];
    }
    assert DigitsValue(s[..2]) <= 99 by {
      assert s[..2][..1] == s[..1];
    }
    assert DigitsValue(s[..3]) <= 999 by {
      assert s[..3][..2] == s[..2];
    }
    assert s[..3] == s[..|s| - 1];
  }

  /** A date written DD.MM.YYYY, day and month padded to two digits. */
  function DottedDate(d: Date): string
    requires ValidDate(d) && 0 <= d.year
  {
    TwoDigits(d.day) + "." + TwoDigits(d.month) + "." + IntString(d.year)
  }

  /** Each dot-separated field of DottedDate reads back as the date's day, month and year. */
  lemma {:induction false} DottedDateFields(d: Date)
    requires ValidDate(d) && 0 <= d.year
    ensures var r := DottedDate(d);
      |r| >= 7 && r[2] == '.' && r[5] == '.'
      && AllDigits(r[..2]) && DigitsValue(r[..2]) == d.day
      && AllDigits(r[3..5]) && DigitsValue(r[3..5]) == d.month
      && AllDigits(r[6..]) && DigitsValue(r[6..]) == d.year
  {
    DigitsValueOfDecimal(d.year);
    DottedFields(TwoDigits(d.day), TwoDigits(d.month), IntString(d.year));
  }

  /** Two two-character fields and a third, joined by dots, are found again at fixed positions. */
  lemma {:induction false} DottedFields(a: string, b: string, c: string)
    requires |a| == 2 && |b| == 2
    ensures var r := a + "." + b + "." + c;
      |r| == |c| + 6 && r[2] == '.' && r[5] == '.' && r[..2] == a && r[3..5] == b && r[6..] == c
  {
    var r := a + "." + b + "." + c;
    assert r[..2] == a;
    assert r[3..5] == b;
    assert r[6..] == c;
  }

  /** formatDate: DD.MM.YYYY with day and month padded to two digits. */
  function FormatDate(s: string): (r: string)
    ensures s == "" ==> r == ""
    ensures s != "" && ParseIsoDate(s).None? ==> r == "NaN.NaN.NaN"
    ensures ParseIsoDate(s).Some? ==>
      var d := ParseIsoDate(s).value;
      |r| >= 7 && r[2] == '.' && r[5] == '.'
      && AllDigits(r[..2]) && DigitsValue(r[..2]) == d.day
      && AllDigits(r[3..5]) && DigitsValue(r[3..5]) == d.month
      && AllDigits(r[6..]) && DigitsValue(r[6..]) == d.year
  {
    if s == "" then ""
    else match ParseIsoDate(s)
      case None => "NaN.NaN.NaN"
      case Some(d) =>
        DottedDateFields(d);
        DottedDate(d)
  }

  /**
   * From year 1000 on, formatDate only rearranges the characters of the ISO
   * string: DD from positions 8-9, MM from 5-6, YYYY from 0-3.
   */
  lemma {:induction false} FormatDateRearranges(s: string)
    requires ParseIsoDate(s).Some? && s[0] != '0'
    ensures FormatDate(s) == s[8..] + "." + s[5..7] + "." + s[..4]
  {
    var d := ParseIsoDate(s).value;
    TwoDigitsOfDigitsValue(s[5..7]);
    TwoDigitsOfDigitsValue(s[8..]);
    DecimalOfDigitsValue(s[..4]);
  }

  /** calculateAverage(...values): None stands for the "NaN" of an empty call. */
  function CalculateAverage(values: seq<real>): (r: Option<real>)
    ensures values == [] <==> r.None?
    ensures r.Some? ==> IsTenths(r.value)
    ensures r.Some? ==> -0.05 <= r.value - RealSum(values) / |values| as real <= 0.05
  {
    if |values| == 0 then None
    else Some(JsToFixed1(RealSum(values) / |values| as real))
  }

  /**
   * Values within [lo, hi] average within [lo, hi] when both bounds are whole
   * tenths, and never more than half a tenth outside otherwise ([0.04] gives 0.0).
   */
  lemma {:induction false} AverageWithinBounds(values: seq<real>, lo: real, hi: real)
    requires values != [] && AllRealsWithin(values, lo, hi)
    ensures lo - 0.05 <= CalculateAverage(values).value <= hi + 0.05
    ensures IsTenths(lo) && IsTenths(hi) ==> lo <= CalculateAverage(values).value <= hi
  {
    var n := |values| as real;
    var mean := RealSum(values) / n;
    RealSumBounds(values, lo, hi);
    assert lo <= mean <= hi by {
      assert n * lo <= RealSum(values) <= n * hi;
    }
    JsToFixed1Monotone(lo, mean);
    JsToFixed1Monotone(mean, hi);
    if IsTenths(lo) && IsTenths(hi) {
      JsToFixed1OfTenths(lo);
      JsToFixed1OfTenths(hi);
    }
  }

  /** Averaging copies of one value with one decimal place gives that value. */
  lemma {:induction false} AverageOfEqualValues(values: seq<real>, v: real)
    requires values != [] && AllRealsWithin(values, v, v) && IsTenths(v)
    ensures CalculateAverage(values) == Some(v)
  {
    AverageWithinBounds(values, v, v);
  }

  lemma AverageOfNothingIsNaN()
    ensures CalculateAverage([]) == None
  {
  }
}
