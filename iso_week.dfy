/**
 * getWeekNumber: the ISO 8601 week number of a calendar date.
 *
 * The source moves the date to the Thursday of its Monday-based week and
 * takes ceil(ordinal day / 7) within that Thursday's year. The lemmas below
 * prove that this agrees with the definition "week 1 is the week that holds
 * January 4", and they prove the range, same-week and year-rollover facts.
 */
module IsoWeek {
  import opened Calendar

  /** Math.ceil(a / 7). */
  function CeilDivSeven(a: int): (q: int)
    ensures 7 * (q - 1) < a <= 7 * q
  {
    (a + 6) / 7
  }

  /** The `setDate(getDate() + 4 - (getDay() || 7))` step. */
  function ThursdayOf(d: Date): (t: Date)
    requires ValidDate(d)
    ensures ValidDate(t)
    ensures DayNumber(t) == DayNumber(d) + 4 - IsoWeekday(d)
    ensures -3 <= DayNumber(t) - DayNumber(d) <= 3
  {
    AddDays(d, 4 - IsoWeekday(d))
  }

  /** The week number: whole weeks, rounded up, from January 1 of the Thursday's year. */
  function WeekNumber(d: Date): (w: int)
    requires ValidDate(d)
    ensures 1 <= w <= 53
  {
    var t := ThursdayOf(d);
    var yearStart := Date(t.year, 1, 1);
    DayNumberInYear(t);
    CeilDivSeven(DayNumber(t) - DayNumber(yearStart) + 1)
  }

  /** The ISO week-numbering year: the calendar year of the week's Thursday. */
  function IsoYear(d: Date): int
    requires ValidDate(d)
  {
    ThursdayOf(d).year
  }

  /** Day number of the Monday that starts d's Monday-to-Sunday week. */
  function MondayNumber(d: Date): (n: int)
    requires ValidDate(d)
    ensures n % 7 == 0
    ensures n <= DayNumber(d) < n + 7
  {
    MondayOfDayNumber(DayNumber(d));
    DayNumber(d) - (IsoWeekday(d) - 1)
  }

  lemma MondayOfDayNumber(n: int)
    ensures (n - n % 7) % 7 == 0 && 0 <= n % 7 < 7
  {
    assert n - n % 7 == 7 * (n / 7);
  }

  lemma OffsetInWeek(m: int, r: int, n: int)
    requires m % 7 == 0 && 0 <= r < 7 && n == m + r
    ensures n % 7 == r
  {
    assert m == 7 * (m / 7);
    assert m + r == 7 * (m / 7) + r;
  }

  /** The shifted day is a Thursday, three days after the week's Monday. */
  lemma ThursdayOfIsThursday(d: Date)
    requires ValidDate(d)
    ensures IsoWeekday(ThursdayOf(d)) == 4
    ensures DayNumber(ThursdayOf(d)) == MondayNumber(d) + 3
  {
    OffsetInWeek(MondayNumber(d), 3, DayNumber(ThursdayOf(d)));
  }

  /** Two dates with the same Monday share their Thursday and their week number. */
  lemma SameMondaySameWeek(d1: Date, d2: Date)
    requires ValidDate(d1) && ValidDate(d2)
    requires MondayNumber(d1) == MondayNumber(d2)
    ensures ThursdayOf(d1) == ThursdayOf(d2)
    ensures WeekNumber(d1) == WeekNumber(d2)
  {
    ThursdayOfIsThursday(d1);
    ThursdayOfIsThursday(d2);
    DayNumberInjective(ThursdayOf(d1), ThursdayOf(d2));
  }

  /** All days from d to the Sunday that ends d's week get d's week number. */
  lemma RestOfWeekSameNumber(d: Date, k: int)
    requires ValidDate(d)
    requires 0 <= k && IsoWeekday(d) + k <= 7
    ensures IsoWeekday(AddDays(d, k)) == IsoWeekday(d) + k
    ensures WeekNumber(AddDays(d, k)) == WeekNumber(d)
  {
    var e := AddDays(d, k);
    var m := MondayNumber(d);
    var r := IsoWeekday(d) - 1 + k;
    assert DayNumber(e) == m + r;
    OffsetInWeek(m, r, DayNumber(e));
    assert IsoWeekday(e) == IsoWeekday(d) + k;
    assert MondayNumber(e) == m;
    SameMondaySameWeek(d, e);
  }

  /** The week number reads the Thursday's offset from the start of its year. */
  lemma {:induction false} WeekNumberOfOffset(d: Date)
    requires ValidDate(d)
    ensures WeekNumber(d) == CeilDivSeven(DayNumber(ThursdayOf(d)) - DaysBeforeYear(IsoYear(d)) + 1)
  {
    NewYearDayNumber(ThursdayOf(d).year);
  }

  /** A date whose Thursday lies in the next year is one of Dec 29-31 and is in week 1. */
  lemma {:induction false} DecemberRollsIntoWeekOne(d: Date)
    requires ValidDate(d)
    requires IsoYear(d) > d.year
    ensures IsoYear(d) == d.year + 1
    ensures d.month == 12 && d.day >= 29
    ensures WeekNumber(d) == 1
  {
    var t := ThursdayOf(d);
    NearbyAcrossNewYear(d, t);
    WeekNumberOfOffset(d);
    assert 1 <= DayNumber(t) - DaysBeforeYear(t.year) + 1 <= 3;
  }

  /** A date whose Thursday lies in the previous year is one of Jan 1-3 and is in week 52 or 53. */
  lemma {:induction false} JanuaryRollsBackToWeek52Or53(d: Date)
    requires ValidDate(d)
    requires IsoYear(d) < d.year
    ensures IsoYear(d) == d.year - 1
    ensures d.month == 1 && d.day <= 3
    ensures WeekNumber(d) == 52 || WeekNumber(d) == 53
  {
    var t := ThursdayOf(d);
    NearbyAcrossNewYear(t, d);
    NextYearStart(t.year);
    WeekNumberOfOffset(d);
    assert 363 <= DayNumber(t) - DaysBeforeYear(t.year) + 1 <= 366;
  }

  /** January 4 is always in week 1 of its own year. */
  lemma {:induction false} JanuaryFourthIsWeekOne(y: int)
    ensures ValidDate(Date(y, 1, 4))
    ensures IsoYear(Date(y, 1, 4)) == y
    ensures WeekNumber(Date(y, 1, 4)) == 1
  {
    var d := Date(y, 1, 4);
    var t := ThursdayOf(d);
    DayNumberInYear(d);
    DayNumberInYear(t);
    assert DayNumber(d) == DaysBeforeYear(y) + 3;
    NextYearStart(y - 1);
    YearSpansDisjoint(t.year, y, DayNumber(t));
    WeekNumberOfOffset(d);
    assert 1 <= DayNumber(t) - DaysBeforeYear(y) + 1 <= 7;
  }

  /** The Monday a week after a Monday of the same ISO year has the next week number. */
  lemma ConsecutiveMondays(d1: Date, d2: Date)
    requires ValidDate(d1) && ValidDate(d2)
    requires IsoWeekday(d1) == 1 && DayNumber(d2) == DayNumber(d1) + 7
    requires IsoYear(d1) == IsoYear(d2)
    ensures IsoWeekday(d2) == 1
    ensures WeekNumber(d2) == WeekNumber(d1) + 1
  {
    var t1, t2 := ThursdayOf(d1), ThursdayOf(d2);
    NextWeekSameWeekday(DayNumber(d1));
    assert IsoWeekday(d2) == 1;
    assert DayNumber(t2) == DayNumber(t1) + 7;
    var a := DayNumber(t1) - DayNumber(Date(t1.year, 1, 1)) + 1;
    assert WeekNumber(d1) == CeilDivSeven(a);
    assert WeekNumber(d2) == CeilDivSeven(a + 7);
  }

  lemma NextWeekSameWeekday(n: int)
    ensures (n + 7) % 7 == n % 7
  {
  }

  /** Day number of the Monday of week 1 of ISO year y: the Monday of the week holding January 4. */
  function WeekOneMonday(y: int): int
  {
    MondayNumber(Date(y, 1, 4))
  }

  /**
   * The week number counts whole weeks from the Monday of week 1 of the
   * date's ISO year, as section 4.1.4 of ISO 8601:2004 defines it.
   */
  lemma WeekNumberCountsFromWeekOne(d: Date)
    requires ValidDate(d)
    ensures WeekNumber(d) == (DayNumber(d) - WeekOneMonday(IsoYear(d))) / 7 + 1
  {
    var t := ThursdayOf(d);
    var y := t.year;
    var j := Date(y, 1, 4);
    ThursdayOfIsThursday(d);
    DayNumberInYear(t);
    var m := MondayNumber(d);
    var m1 := MondayNumber(j);
    var r := DayNumber(j) - m1;
    assert DayNumber(j) == DaysBeforeYear(y) + 3;
    assert 0 <= r < 7;
    // The week number's argument is (m - m1) + 7 - r, with m - m1 a multiple of 7.
    assert DayNumber(t) - DaysBeforeYear(y) + 1 == (m - m1) + 7 - r;
    var k := (m - m1) / 7;
    assert m - m1 == 7 * k by {
      assert m == 7 * (m / 7) && m1 == 7 * (m1 / 7);
      DivExact(m - m1, m / 7 - m1 / 7);
    }
    assert CeilDivSeven(7 * k + 7 - r) == k + 1;
    assert (DayNumber(d) - m1) / 7 == k by {
      DivExactPlus(DayNumber(d) - m1, k, DayNumber(d) - m);
    }
  }

  lemma DivExact(a: int, k: int)
    requires a == 7 * k
    ensures a / 7 == k
  {
  }

  lemma DivExactPlus(a: int, k: int, r: int)
    requires a == 7 * k + r && 0 <= r < 7
    ensures a / 7 == k
  {
  }

  /**
   * getWeekNumber exactly as written: `new Date(y, 0, 1)` reads a year y in
   * 0..99 as 1900 + y, so yearStart is wrong for those years.
   */
  function WeekNumberAsWritten(d: Date): (w: int)
    requires ValidDate(d)
    ensures 0 <= IsoYear(d) <= 99 || w == WeekNumber(d)
  {
    var t := ThursdayOf(d);
    var jsYear := if 0 <= t.year <= 99 then 1900 + t.year else t.year;
    CeilDivSeven(DayNumber(t) - DayNumber(Date(jsYear, 1, 1)) + 1)
  }

  /**
   * For every date whose ISO year is 0..99 (0050-06-15, say), the as-written
   * week number is below 1.
   */
  lemma WeekNumberAsWrittenFailsBeforeYear100(d: Date)
    requires ValidDate(d) && 0 <= IsoYear(d) <= 99
    ensures WeekNumberAsWritten(d) < 1
    ensures 1 <= WeekNumber(d) <= 53
  {
    var t := ThursdayOf(d);
    DayNumberInYear(t);
    YearStartsOrdered(t.year + 1, 1900 + t.year);
  }
}
