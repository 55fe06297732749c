/**
 * Proleptic Gregorian calendar with day ordinals numbered as Python's
 * `date.toordinal()` numbers them: 0001-01-01 is day 1. Every date in the
 * rest of the model is such an ordinal, so "n days earlier" is subtraction.
 */
module Calendar {

  datatype Date = Date(year: int, month: int, day: int)

  predicate IsLeap(year: int) {
    year % 4 == 0 && (year % 100 != 0 || year % 400 == 0)
  }

  function DaysInMonth(year: int, month: int): (n: int)
    requires 1 <= month <= 12
    ensures 28 <= n <= 31
  {
    if month == 2 then (if IsLeap(year) then 29 else 28)
    else if month == 4 || month == 6 || month == 9 || month == 11 then 30
    else 31
  }

  function DaysInYear(year: int): int {
    if IsLeap(year) then 366 else 365
  }

  /** A date that Python's `datetime.date` accepts (MINYEAR 1 .. MAXYEAR 9999). */
  predicate ValidDate(d: Date) {
    1 <= d.year <= 9999 && 1 <= d.month <= 12 && 1 <= d.day <= DaysInMonth(d.year, d.month)
  }

  /** Days in the months of `year` before `month` (a cumulative table plus the leap day). */
  function DaysBeforeMonth(year: int, month: int): (n: int)
    requires 1 <= month <= 12
    ensures n >= 0
  {
    [0, 31, 59, 90, 120, 151, 181, 212, 243, 273, 304, 334][month - 1]
      + (if month > 2 && IsLeap(year) then 1 else 0)
  }

  /** The table is the running sum of the month lengths. */
  lemma MonthStep(year: int, month: int)
    requires 1 <= month < 12
    ensures DaysBeforeMonth(year, month + 1) == DaysBeforeMonth(year, month) + DaysInMonth(year, month)
  {
  }

  /** Days in the years before `year`, in the closed form of the Gregorian leap rule. */
  function DaysBeforeYear(year: int): int
    requires year >= 1
  {
    var y := year - 1;
    y * 365 + y / 4 - y / 100 + y / 400
  }

  function Ordinal(d: Date): int
    requires ValidDate(d)
  {
    DaysBeforeYear(d.year) + DaysBeforeMonth(d.year, d.month) + d.day
  }

  /** The months of a year add up to the year's length. */
  lemma MonthsFillYear(year: int)
    ensures DaysBeforeMonth(year, 12) + DaysInMonth(year, 12) == DaysInYear(year)
  {
  }

  lemma QuarterYearStep(x: int)
    ensures x / 4 - (x - 1) / 4 == if x % 4 == 0 then 1 else 0
  {
  }

  lemma CenturyStep(x: int)
    ensures x / 100 - (x - 1) / 100 == if x % 100 == 0 then 1 else 0
  {
  }

  lemma QuadCenturyStep(x: int)
    ensures x / 400 - (x - 1) / 400 == if x % 400 == 0 then 1 else 0
  {
  }

  /** Multiples of 400 are multiples of 100, and those are multiples of 4. */
  lemma LeapDivisors(x: int)
    ensures x % 400 == 0 ==> x % 100 == 0
    ensures x % 100 == 0 ==> x % 4 == 0
  {
    if x % 400 == 0 {
      assert x == 400 * (x / 400);
      assert x == 100 * (4 * (x / 400));
    }
    if x % 100 == 0 {
      assert x == 100 * (x / 100);
      assert x == 4 * (25 * (x / 100));
    }
  }

  /** The closed form advances by exactly one year's length, leap years included. */
  lemma YearStep(year: int)
    requires year >= 1
    ensures DaysBeforeYear(year + 1) == DaysBeforeYear(year) + DaysInYear(year)
  {
    QuarterYearStep(year);
    CenturyStep(year);
    QuadCenturyStep(year);
    LeapDivisors(year);
  }

  /** The day before January 1st is December 31st of the previous year. */
  lemma NewYearFollowsDecember31(year: int)
    requires 2 <= year <= 9999
    ensures ValidDate(Date(year, 1, 1)) && ValidDate(Date(year - 1, 12, 31))
    ensures Ordinal(Date(year, 1, 1)) == Ordinal(Date(year - 1, 12, 31)) + 1
  {
    YearStep(year - 1);
    MonthsFillYear(year - 1);
  }

  /** The last day of the month before the one containing `(year, month)`. */
  function LastDayOfPreviousMonth(year: int, month: int): (d: Date)
    requires 2 <= year <= 9999 && 1 <= month <= 12
    ensures ValidDate(d)
    ensures d.day == DaysInMonth(d.year, d.month)
    ensures if month == 1 then d.year == year - 1 && d.month == 12 else d.year == year && d.month == month - 1
  {
    if month == 1 then Date(year - 1, 12, 31)
    else Date(year, month - 1, DaysInMonth(year, month - 1))
  }

  /** The day before the first of a month is the last day of the month before it. */
  lemma DayBeforeFirstOfMonth(year: int, month: int)
    requires 2 <= year <= 9999 && 1 <= month <= 12
    ensures ValidDate(Date(year, month, 1))
    ensures Ordinal(Date(year, month, 1)) - 1 == Ordinal(LastDayOfPreviousMonth(year, month))
  {
    if month == 1 {
      NewYearFollowsDecember31(year);
    }
  }

  /** One calendar day later is one ordinal later, across month and year ends. */
  lemma OrdinalOfNextDay(d: Date)
    requires ValidDate(d) && d.year < 9999
    ensures ValidDate(NextDay(d))
    ensures Ordinal(NextDay(d)) == Ordinal(d) + 1
  {
    if d.day == DaysInMonth(d.year, d.month) && d.month == 12 {
      NewYearFollowsDecember31(d.year + 1);
    }
  }

  function NextDay(d: Date): Date
    requires ValidDate(d)
  {
    if d.day < DaysInMonth(d.year, d.month) then Date(d.year, d.month, d.day + 1)
    else if d.month < 12 then Date(d.year, d.month + 1, 1)
    else Date(d.year + 1, 1, 1)
  }
}
