/** The proleptic Gregorian calendar as the generator uses it: month lengths
    (what `calendar.monthrange(y, m)[1]` answers), the weekday of a date with
    Monday = 0 (what `datetime.weekday()` answers), and stepping from one month
    to the next. Years run from 1 to 9999, the range of Python's `datetime`. */
module Calendar {

  const MinYear := 1
  const MaxYear := 9999

  datatype Date = Date(year: int, month: int, day: int)

  predicate IsLeap(y: int) {
    y % 4 == 0 && (y % 100 != 0 || y % 400 == 0)
  }

  function DaysInYear(y: int): int {
    if IsLeap(y) then 366 else 365
  }

  function DaysInMonth(y: int, m: int): (d: int)
    requires 1 <= m <= 12
    ensures 28 <= d <= 31
  {
    if m == 2 then (if IsLeap(y) then 29 else 28)
    else if m == 4 || m == 6 || m == 9 || m == 11 then 30
    else 31
  }

  /** A date `datetime` accepts. */
  predicate ValidDate(d: Date) {
    MinYear <= d.year <= MaxYear && 1 <= d.month <= 12 && 1 <= d.day <= DaysInMonth(d.year, d.month)
  }

  /** Dates compare as `datetime` values do: by year, then month, then day. */
  predicate DateLe(a: Date, b: Date) {
    a.year < b.year
    || (a.year == b.year && (a.month < b.month || (a.month == b.month && a.day <= b.day)))
  }

  /** Days of year `y` that lie before the first of month `m` (`m` may be 13). */
  function DaysBeforeMonth(y: int, m: int): int
    requires 1 <= m <= 13
  {
    if m == 1 then 0 else DaysBeforeMonth(y, m - 1) + DaysInMonth(y, m - 1)
  }

  /** Days from 1 January of year 1 up to 1 January of year `y`. */
  function DaysBeforeYear(y: int): int
    requires y >= 1
  {
    var k := y - 1;
    k * 365 + k / 4 - k / 100 + k / 400
  }

  /** Day number of a date, 1 January of year 1 being day 1 (Python's `toordinal`). */
  function Ordinal(y: int, m: int, d: int): int
    requires y >= 1 && 1 <= m <= 12
  {
    DaysBeforeYear(y) + DaysBeforeMonth(y, m) + d
  }

  /** Weekday with Monday = 0 and Sunday = 6; 1 January of year 1 was a Monday. */
  function Weekday(y: int, m: int, d: int): (w: int)
    requires y >= 1 && 1 <= m <= 12
    ensures 0 <= w < 7
  {
    (Ordinal(y, m, d) + 6) % 7
  }

  /** The calendar day after a date. */
  function NextDay(y: int, m: int, d: int): (r: Date)
    requires 1 <= m <= 12
  {
    if d < DaysInMonth(y, m) then Date(y, m, d + 1)
    else if m < 12 then Date(y, m + 1, 1)
    else Date(y + 1, 1, 1)
  }

  /** The month after (y, m): December is followed by January of the next year. */
  function NextMonth(y: int, m: int): (r: (int, int))
    requires 1 <= m <= 12
    ensures 1 <= r.1 <= 12
    ensures MonthIndex(r.0, r.1) == MonthIndex(y, m) + 1
  {
    if m == 12 then (y + 1, 1) else (y, m + 1)
  }

  /** Months numbered consecutively: January of year 0 is month 0. */
  function MonthIndex(y: int, m: int): int {
    12 * y + m - 1
  }

  /** The month with a given index. */
  function MonthAt(k: int): (r: (int, int))
    ensures 1 <= r.1 <= 12
    ensures MonthIndex(r.0, r.1) == k
  {
    (k / 12, k % 12 + 1)
  }

  lemma MonthAtIndex(y: int, m: int)
    requires 1 <= m <= 12
    ensures MonthAt(MonthIndex(y, m)) == (y, m)
  {
    var k := MonthIndex(y, m);
    assert k == 12 * y + (m - 1) && 0 <= m - 1 < 12;
  }

  /** The twelve months of a year add up to the length of that year. */
  lemma MonthsFillYear(y: int)
    ensures DaysBeforeMonth(y, 13) == DaysInYear(y)
  {
    var feb := DaysInMonth(y, 2);
    assert DaysBeforeMonth(y, 2) == 31;
    assert DaysBeforeMonth(y, 3) == 31 + feb;
    assert DaysBeforeMonth(y, 4) == 62 + feb;
    assert DaysBeforeMonth(y, 5) == 92 + feb;
    assert DaysBeforeMonth(y, 6) == 123 + feb;
    assert DaysBeforeMonth(y, 7) == 153 + feb;
    assert DaysBeforeMonth(y, 8) == 184 + feb;
    assert DaysBeforeMonth(y, 9) == 215 + feb;
    assert DaysBeforeMonth(y, 10) == 245 + feb;
    assert DaysBeforeMonth(y, 11) == 276 + feb;
    assert DaysBeforeMonth(y, 12) == 306 + feb;
  }

  /** A year holds one leap day more than 365 exactly when it is a leap year,
      which is what moves 1 January forward from one year to the next. */
  lemma DaysBeforeNextYear(y: int)
    requires y >= 1
    ensures DaysBeforeYear(y + 1) == DaysBeforeYear(y) + DaysInYear(y)
  {
    var k := y - 1;
    assert y / 4 == k / 4 + (if y % 4 == 0 then 1 else 0);
    assert y / 100 == k / 100 + (if y % 100 == 0 then 1 else 0);
    assert y / 400 == k / 400 + (if y % 400 == 0 then 1 else 0);
  }

  /** Consecutive days have consecutive day numbers, across month and year ends. */
  lemma OrdinalNextDay(y: int, m: int, d: int)
    requires y >= 1 && 1 <= m <= 12 && 1 <= d <= DaysInMonth(y, m)
    ensures NextDay(y, m, d).year >= 1 && 1 <= NextDay(y, m, d).month <= 12
    ensures Ordinal(NextDay(y, m, d).year, NextDay(y, m, d).month, NextDay(y, m, d).day) == Ordinal(y, m, d) + 1
  {
    if d == DaysInMonth(y, m) && m == 12 {
      MonthsFillYear(y);
      DaysBeforeNextYear(y);
    }
  }

  /** So the weekday advances by one, Sunday wrapping round to Monday. */
  lemma WeekdayNextDay(y: int, m: int, d: int)
    requires y >= 1 && 1 <= m <= 12 && 1 <= d <= DaysInMonth(y, m)
    ensures NextDay(y, m, d).year >= 1 && 1 <= NextDay(y, m, d).month <= 12
    ensures Weekday(NextDay(y, m, d).year, NextDay(y, m, d).month, NextDay(y, m, d).day) == (Weekday(y, m, d) + 1) % 7
  {
    OrdinalNextDay(y, m, d);
  }

  /** An anchor that, with WeekdayNextDay, fixes every weekday: 1 January 2024 was a Monday. */
  lemma FirstOfJanuary2024IsMonday()
    ensures Weekday(2024, 1, 1) == 0
  {
  }

  /** Months of 2024 as the sampler sees them: February of a leap year has 29 days. */
  lemma LeapFebruary()
    ensures DaysInMonth(2024, 2) == 29 && DaysInMonth(2023, 2) == 28
    ensures DaysInMonth(1900, 2) == 28 && DaysInMonth(2000, 2) == 29
  {
  }

  /** On first-of-month dates, comparing dates is comparing month indices. */
  lemma FirstOfMonthLe(y: int, m: int, e: Date)
    requires 1 <= m <= 12 && ValidDate(e)
    ensures DateLe(Date(y, m, 1), e) <==> MonthIndex(y, m) <= MonthIndex(e.year, e.month)
  {
  }
}
