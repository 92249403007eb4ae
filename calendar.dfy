/**
 * The proleptic Gregorian calendar that pandas timestamps use: dates, the
 * successor of a day, day numbers, the inclusive day range that
 * `pd.date_range(start, end)` produces, and calendar months.
 */
module Calendar {

  datatype Date = Date(year: int, month: int, day: int)

  predicate IsLeapYear(y: int) {
    y % 4 == 0 && (y % 100 != 0 || y % 400 == 0)
  }

  function DaysInMonth(y: int, m: int): int {
    if m == 2 then (if IsLeapYear(y) then 29 else 28)
    else if m == 4 || m == 6 || m == 9 || m == 11 then 30
    else 31
  }

  function DaysInYear(y: int): int {
    if IsLeapYear(y) then 366 else 365
  }

  /** A calendar day; years start at 1, as Python's dates do. */
  predicate IsValid(d: Date) {
    1 <= d.year && 1 <= d.month <= 12 && 1 <= d.day <= DaysInMonth(d.year, d.month)
  }

  /** Chronological order, read off the fields. */
  predicate DateLess(a: Date, b: Date) {
    a.year < b.year
    || (a.year == b.year && (a.month < b.month || (a.month == b.month && a.day < b.day)))
  }

  /** The day after `d`. */
  function Next(d: Date): Date {
    if d.day < DaysInMonth(d.year, d.month) then Date(d.year, d.month, d.day + 1)
    else if d.month < 12 then Date(d.year, d.month + 1, 1)
    else Date(d.year + 1, 1, 1)
  }

  /** Days in the years before year `y` (day 0 is 0001-01-01). */
  function DaysBeforeYear(y: int): int {
    365 * (y - 1) + (y - 1) / 4 - (y - 1) / 100 + (y - 1) / 400
  }

  /** Days of year `y` before the first day of month `m` (1 <= m <= 13). */
  function DaysBeforeMonth(y: int, m: int): int {
    var leap := if m > 2 && IsLeapYear(y) then 1 else 0;
    leap + (
      if m <= 1 then 0 else if m == 2 then 31 else if m == 3 then 59
      else if m == 4 then 90 else if m == 5 then 120 else if m == 6 then 151
      else if m == 7 then 181 else if m == 8 then 212 else if m == 9 then 243
      else if m == 10 then 273 else if m == 11 then 304 else if m == 12 then 334
      else 365)
  }

  /** The day number of `d`, counted from 0001-01-01. */
  function Ordinal(d: Date): int {
    DaysBeforeYear(d.year) + DaysBeforeMonth(d.year, d.month) + d.day - 1
  }

  lemma YearStep(y: int)
    ensures DaysBeforeYear(y + 1) == DaysBeforeYear(y) + DaysInYear(y)
  {
    assert y / 4 - (y - 1) / 4 == (if y % 4 == 0 then 1 else 0);
    assert y / 100 - (y - 1) / 100 == (if y % 100 == 0 then 1 else 0);
    assert y / 400 - (y - 1) / 400 == (if y % 400 == 0 then 1 else 0);
  }

  lemma MonthStep(y: int, m: int)
    requires 1 <= m <= 12
    ensures DaysBeforeMonth(y, m + 1) == DaysBeforeMonth(y, m) + DaysInMonth(y, m)
  {
  }

  lemma {:induction false} YearsMonotone(a: int, b: int)
    requires a <= b
    ensures DaysBeforeYear(a) <= DaysBeforeYear(b)
    decreases b - a
  {
    if a < b {
      YearStep(a);
      YearsMonotone(a + 1, b);
    }
  }

  /** A valid date's day number falls inside its own year. */
  lemma OrdinalInYear(d: Date)
    requires IsValid(d)
    ensures DaysBeforeYear(d.year) <= Ordinal(d) < DaysBeforeYear(d.year + 1)
  {
    YearStep(d.year);
  }

  /** The successor of a valid date is valid and one day later. */
  lemma NextOrdinal(d: Date)
    requires IsValid(d)
    ensures IsValid(Next(d)) && Ordinal(Next(d)) == Ordinal(d) + 1
  {
    if d.day == DaysInMonth(d.year, d.month) {
      MonthStep(d.year, d.month);
      if d.month == 12 {
        YearStep(d.year);
      }
    }
  }

  /** Day numbers order valid dates chronologically. */
  lemma OrdinalMonotone(a: Date, b: Date)
    requires IsValid(a) && IsValid(b) && DateLess(a, b)
    ensures Ordinal(a) < Ordinal(b)
  {
    if a.year < b.year {
      OrdinalInYear(a);
      YearsMonotone(a.year + 1, b.year);
    } else if a.month < b.month {
      MonthStep(a.year, a.month);
      assert DaysBeforeMonth(a.year, a.month + 1) <= DaysBeforeMonth(a.year, b.month);
    }
  }

  /** Two valid dates compare as their day numbers do; equal numbers mean equal dates. */
  lemma OrdinalOrder(a: Date, b: Date)
    requires IsValid(a) && IsValid(b)
    ensures DateLess(a, b) <==> Ordinal(a) < Ordinal(b)
    ensures a == b <==> Ordinal(a) == Ordinal(b)
  {
    if DateLess(a, b) {
      OrdinalMonotone(a, b);
    } else if DateLess(b, a) {
      OrdinalMonotone(b, a);
    }
  }

  /**
   * The days from `start` to `end`, both included, as `pd.date_range(start=start, end=end)`
   * lists them; no days when `end` comes before `start`.
   */
  function DateRange(start: Date, end: Date): (r: seq<Date>)
    requires IsValid(start)
    ensures |r| == if Ordinal(end) < Ordinal(start) then 0 else Ordinal(end) - Ordinal(start) + 1
    ensures forall i :: 0 <= i < |r| ==> IsValid(r[i]) && Ordinal(r[i]) == Ordinal(start) + i
    decreases Ordinal(end) - Ordinal(start)
  {
    if Ordinal(end) < Ordinal(start) then []
    else if Ordinal(end) == Ordinal(start) then [start]
    else
      NextOrdinal(start);
      [start] + DateRange(Next(start), end)
  }

  /** A valid date is in the range exactly when it lies between the two ends. */
  lemma DateRangeMembers(start: Date, end: Date, d: Date)
    requires IsValid(start) && IsValid(end) && IsValid(d)
    ensures d in DateRange(start, end) <==> !DateLess(d, start) && !DateLess(end, d)
  {
    var r := DateRange(start, end);
    OrdinalOrder(d, start);
    OrdinalOrder(end, d);
    if Ordinal(start) <= Ordinal(d) <= Ordinal(end) {
      var i := Ordinal(d) - Ordinal(start);
      OrdinalOrder(r[i], d);
    }
  }

  /** Consecutive entries of the range are consecutive days. */
  lemma DateRangeSteps(start: Date, end: Date, i: int)
    requires IsValid(start)
    requires 0 <= i < |DateRange(start, end)| - 1
    ensures DateRange(start, end)[i + 1] == Next(DateRange(start, end)[i])
  {
    var r := DateRange(start, end);
    NextOrdinal(r[i]);
    OrdinalOrder(r[i + 1], Next(r[i]));
  }

  datatype YearMonth = YearMonth(year: int, month: int)

  predicate IsValidMonth(ym: YearMonth) {
    1 <= ym.month <= 12
  }

  /** The `YYYY-MM` month a day belongs to. */
  function MonthOf(d: Date): YearMonth {
    YearMonth(d.year, d.month)
  }

  /** Months counted on one line: consecutive months have consecutive indices. */
  function MonthIndex(ym: YearMonth): int {
    12 * ym.year + ym.month - 1
  }

  /** Valid months are identified by their index. */
  lemma MonthIndexInjective(a: YearMonth, b: YearMonth)
    requires IsValidMonth(a) && IsValidMonth(b) && MonthIndex(a) == MonthIndex(b)
    ensures a == b
  {
  }

  /** The month of the next day is the same month or the one after it. */
  lemma NextMonth(d: Date)
    requires IsValid(d)
    ensures MonthIndex(MonthOf(Next(d))) - MonthIndex(MonthOf(d)) in {0, 1}
  {
  }
}
