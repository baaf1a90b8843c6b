/**
 * Proleptic Gregorian calendar dates as integer (year, month, day) triples.
 *
 * Every date has a day number: the count of days since 0001-01-01, which was
 * a Monday. The day number is how "shift by n days", "which weekday" and
 * "days since January 1" are computed. JavaScript's Date does these with
 * millisecond arithmetic.
 */
module Calendar {

  datatype Date = Date(year: int, month: int, day: int)

  predicate IsLeapYear(y: int) {
    y % 4 == 0 && (y % 100 != 0 || y % 400 == 0)
  }

  function DaysInYear(y: int): int {
    if IsLeapYear(y) then 366 else 365
  }

  function DaysInMonth(y: int, m: int): (n: int)
    requires 1 <= m <= 12
    ensures 28 <= n <= 31
    ensures n == 29 <==> m == 2 && IsLeapYear(y)
  {
    if m == 2 then (if IsLeapYear(y) then 29 else 28)
    else if m == 4 || m == 6 || m == 9 || m == 11 then 30
    else 31
  }

  predicate ValidDate(d: Date) {
    1 <= d.month <= 12 && 1 <= d.day <= DaysInMonth(d.year, d.month)
  }

  /** Days of year y that come before the first of month m. */
  function DaysBeforeMonth(y: int, m: int): int
    requires 1 <= m <= 12
  {
    var leapDay := if m > 2 && IsLeapYear(y) then 1 else 0;
    [0, 31, 59, 90, 120, 151, 181, 212, 243, 273, 304, 334][m - 1] + leapDay
  }

  lemma DaysBeforeNextMonth(y: int, m: int)
    requires 1 <= m < 12
    ensures DaysBeforeMonth(y, m + 1) == DaysBeforeMonth(y, m) + DaysInMonth(y, m)
  {
  }

  /** The 1-based ordinal day of d within its year. */
  function DayOfYear(d: Date): (n: int)
    requires ValidDate(d)
    ensures 1 <= n <= DaysInYear(d.year)
    ensures d.month == 1 ==> n == d.day
    ensures d.month == 12 ==> n == DaysInYear(d.year) - 31 + d.day
  {
    DaysBeforeMonth(d.year, d.month) + d.day
  }

  /** Days from 0001-01-01 to January 1 of year y (negative before year 1). */
  function DaysBeforeYear(y: int): int {
    365 * (y - 1) + (y - 1) / 4 - (y - 1) / 100 + (y - 1) / 400
  }

  /** Days since 0001-01-01 (a Monday), which has day number 0. */
  function DayNumber(d: Date): int
    requires ValidDate(d)
  {
    DaysBeforeYear(d.year) + DayOfYear(d) - 1
  }

  /** January 1 of the next year comes exactly one year length later. */
  lemma NextYearStart(y: int)
    ensures DaysBeforeYear(y + 1) == DaysBeforeYear(y) + DaysInYear(y)
  {
    YearStartGap(y);
    YearLength(y);
  }

  /** Consecutive year starts differ by 365 plus the leap days the Gregorian rule adds between them. */
  lemma YearStartGap(y: int)
    ensures DaysBeforeYear(y + 1) - DaysBeforeYear(y)
      == 365 + (y / 4 - (y - 1) / 4) - (y / 100 - (y - 1) / 100) + (y / 400 - (y - 1) / 400)
  {
  }

  /** A year has a leap day exactly when the count of the Gregorian rule steps up at it. */
  lemma {:induction false} YearLength(y: int)
    ensures DaysInYear(y) == 365 + (y / 4 - (y - 1) / 4) - (y / 100 - (y - 1) / 100) + (y / 400 - (y - 1) / 400)
  {
    QuotientStep(y, 4);
    QuotientStep(y, 100);
    QuotientStep(y, 400);
  }

  /** Going from y - 1 to y, the count of multiples of k up to it grows by one exactly at a multiple. */
  lemma {:induction false} QuotientStep(y: int, k: int)
    requires k == 4 || k == 100 || k == 400
    ensures y / k - (y - 1) / k == if y % k == 0 then 1 else 0
  {
    if k == 4 {
      assert y / 4 - (y - 1) / 4 == if y % 4 == 0 then 1 else 0;
    } else if k == 100 {
      assert y / 100 - (y - 1) / 100 == if y % 100 == 0 then 1 else 0;
    } else {
      assert y / 400 - (y - 1) / 400 == if y % 400 == 0 then 1 else 0;
    }
  }

  /** Whole years lie between the starts of two years. */
  lemma {:induction false} YearStartsOrdered(y1: int, y2: int)
    requires y1 < y2
    ensures DaysBeforeYear(y1) + 365 * (y2 - y1) <= DaysBeforeYear(y2)
    decreases y2 - y1
  {
    NextYearStart(y1);
    if y1 + 1 < y2 {
      YearStartsOrdered(y1 + 1, y2);
    }
  }

  /** A later year never starts earlier. */
  lemma {:induction false} YearStartsMonotone(y1: int, y2: int)
    requires y1 <= y2
    ensures DaysBeforeYear(y1) <= DaysBeforeYear(y2)
  {
    if y1 < y2 {
      YearStartsOrdered(y1, y2);
    }
  }

  /** A date's day number lies within its own year's span. */
  lemma DayNumberInYear(d: Date)
    requires ValidDate(d)
    ensures DaysBeforeYear(d.year) <= DayNumber(d) < DaysBeforeYear(d.year + 1)
    ensures DayNumber(d) - DaysBeforeYear(d.year) == DayOfYear(d) - 1
  {
    NextYearStart(d.year);
  }

  /** January 1 of year y has the day number at which year y starts. */
  lemma NewYearDayNumber(y: int)
    ensures ValidDate(Date(y, 1, 1)) && DayNumber(Date(y, 1, 1)) == DaysBeforeYear(y)
  {
  }

  /** A date within three days of the end of its year is one of December 29-31. */
  lemma {:induction false} LateInYear(d: Date)
    requires ValidDate(d) && DaysBeforeYear(d.year + 1) - 3 <= DayNumber(d)
    ensures d.month == 12 && d.day >= 29
  {
    DayNumberInYear(d);
    NextYearStart(d.year);
    if d.month < 12 {
      MonthStartsOrdered(d.year, d.month, 12);
    }
  }

  /** A date within three days of the start of its year is one of January 1-3. */
  lemma {:induction false} EarlyInYear(d: Date)
    requires ValidDate(d) && DayNumber(d) < DaysBeforeYear(d.year) + 3
    ensures d.month == 1 && d.day <= 3
  {
    DayNumberInYear(d);
    if d.month > 1 {
      MonthStartsOrdered(d.year, 1, d.month);
    }
  }

  /**
   * Of two dates at most three days apart, one in a later year than the
   * other, the later is one of January 1-3 of the next year and the earlier
   * one of December 29-31.
   */
  lemma {:induction false} NearbyAcrossNewYear(a: Date, b: Date)
    requires ValidDate(a) && ValidDate(b)
    requires a.year < b.year && DayNumber(b) - DayNumber(a) <= 3
    ensures b.year == a.year + 1
    ensures a.month == 12 && a.day >= 29
    ensures b.month == 1 && b.day <= 3
    ensures DaysBeforeYear(b.year) - 3 <= DayNumber(a) < DaysBeforeYear(b.year)
    ensures DaysBeforeYear(b.year) <= DayNumber(b) < DaysBeforeYear(b.year) + 3
  {
    DayNumberInYear(a);
    DayNumberInYear(b);
    if b.year > a.year + 1 {
      YearStartsMonotone(a.year + 2, b.year);
      NextYearStart(a.year + 1);
      assert false;
    }
    LateInYear(a);
    EarlyInYear(b);
  }

  /** A day number lies in the span of one year only. */
  lemma {:induction false} YearSpansDisjoint(y1: int, y2: int, n: int)
    requires DaysBeforeYear(y1) <= n < DaysBeforeYear(y1 + 1)
    requires DaysBeforeYear(y2) <= n < DaysBeforeYear(y2 + 1)
    ensures y1 == y2
  {
    if y1 < y2 {
      YearStartsMonotone(y1 + 1, y2);
    } else if y2 < y1 {
      YearStartsMonotone(y2 + 1, y1);
    }
  }

  /** Dates with the same day number fall in the same year, on the same day of it. */
  lemma {:induction false} DayNumberFixesYear(a: Date, b: Date)
    requires ValidDate(a) && ValidDate(b)
    requires DayNumber(a) == DayNumber(b)
    ensures a.year == b.year && DayOfYear(a) == DayOfYear(b)
  {
    DayNumberInYear(a);
    DayNumberInYear(b);
    YearSpansDisjoint(a.year, b.year, DayNumber(a));
  }

  /** Within one year, the day of the year determines the date. */
  lemma {:induction false} DayOfYearInjective(a: Date, b: Date)
    requires ValidDate(a) && ValidDate(b) && a.year == b.year
    requires DayOfYear(a) == DayOfYear(b)
    ensures a == b
  {
    if a.month < b.month {
      MonthStartsOrdered(a.year, a.month, b.month);
      assert false;
    } else if b.month < a.month {
      MonthStartsOrdered(a.year, b.month, a.month);
      assert false;
    }
  }

  /** Distinct valid dates have distinct day numbers. */
  lemma DayNumberInjective(a: Date, b: Date)
    requires ValidDate(a) && ValidDate(b)
    requires DayNumber(a) == DayNumber(b)
    ensures a == b
  {
    DayNumberFixesYear(a, b);
    DayOfYearInjective(a, b);
  }

  /** Within a year, an earlier month ends before a later one begins. */
  lemma MonthStartsOrdered(y: int, m1: int, m2: int)
    requires 1 <= m1 < m2 <= 12
    ensures DaysBeforeMonth(y, m1) + DaysInMonth(y, m1) <= DaysBeforeMonth(y, m2)
  {
  }

  /** The first of month m + 1 comes the day after the last of month m. */
  lemma MonthEndDayNumber(y: int, m: int)
    requires 1 <= m < 12
    ensures ValidDate(Date(y, m, DaysInMonth(y, m))) && ValidDate(Date(y, m + 1, 1))
    ensures DayNumber(Date(y, m + 1, 1)) == DayNumber(Date(y, m, DaysInMonth(y, m))) + 1
  {
    DaysBeforeNextMonth(y, m);
  }

  /** December 31 of year y is the day before year y + 1 starts. */
  lemma YearEndDayNumber(y: int)
    ensures ValidDate(Date(y, 12, 31))
    ensures DayNumber(Date(y, 12, 31)) == DaysBeforeYear(y + 1) - 1
  {
    NextYearStart(y);
  }

  /** The day after d, rolling over month and year ends. */
  function NextDay(d: Date): (r: Date)
    requires ValidDate(d)
    ensures ValidDate(r) && DayNumber(r) == DayNumber(d) + 1
  {
    if d.day < DaysInMonth(d.year, d.month) then
      Date(d.year, d.month, d.day + 1)
    else if d.month < 12 then
      MonthEndDayNumber(d.year, d.month);
      Date(d.year, d.month + 1, 1)
    else
      YearEndDayNumber(d.year);
      NewYearDayNumber(d.year + 1);
      Date(d.year + 1, 1, 1)
  }

  /** The day before d, rolling back over month and year starts. */
  function PrevDay(d: Date): (r: Date)
    requires ValidDate(d)
    ensures ValidDate(r) && DayNumber(r) == DayNumber(d) - 1
  {
    if d.day > 1 then
      Date(d.year, d.month, d.day - 1)
    else if d.month > 1 then
      MonthEndDayNumber(d.year, d.month - 1);
      Date(d.year, d.month - 1, DaysInMonth(d.year, d.month - 1))
    else
      YearEndDayNumber(d.year - 1);
      NewYearDayNumber(d.year);
      Date(d.year - 1, 12, 31)
  }

  /**
   * d shifted by k days; k may be negative. This is what Date.setDate does
   * with a day-of-month outside the current month.
   */
  function AddDays(d: Date, k: int): (r: Date)
    requires ValidDate(d)
    ensures ValidDate(r) && DayNumber(r) == DayNumber(d) + k
    decreases if k < 0 then -k else k
  {
    if k == 0 then d
    else if k > 0 then AddDays(NextDay(d), k - 1)
    else AddDays(PrevDay(d), k + 1)
  }

  /** JavaScript's Date.getDay: 0 for Sunday, 1 for Monday, ..., 6 for Saturday. */
  function JsDay(d: Date): (w: int)
    requires ValidDate(d)
    ensures 0 <= w <= 6
  {
    (DayNumber(d) + 1) % 7
  }

  lemma WeekdayShift(n: int)
    ensures (n + 1) % 7 == 0 ==> n % 7 == 6
    ensures (n + 1) % 7 != 0 ==> (n + 1) % 7 - 1 == n % 7
  {
  }

  /** `d.getDay() || 7`: the ISO weekday, Monday 1 through Sunday 7. */
  function IsoWeekday(d: Date): (w: int)
    requires ValidDate(d)
    ensures 1 <= w <= 7
    ensures w - 1 == DayNumber(d) % 7
  {
    WeekdayShift(DayNumber(d));
    var js := JsDay(d);
    if js == 0 then 7 else js
  }
}
