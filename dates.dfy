/**
 * Proleptic Gregorian civil dates, with the numbering Python's `datetime.date`
 * uses: `Ordinal` is `date.toordinal()` (1 January of year 1 is day 1) and
 * `Weekday` is `date.weekday()` (Monday = 0 ... Sunday = 6).
 */
module Dates {

  datatype Civil = Civil(year: int, month: int, day: int)

  predicate IsLeap(y: int) {
    y % 4 == 0 && (y % 100 != 0 || y % 400 == 0)
  }

  function DaysInMonth(y: int, m: int): (n: int)
    requires 1 <= m <= 12
    ensures 28 <= n <= 31
    ensures n == 29 <==> m == 2 && IsLeap(y)
  {
    if m == 2 then (if IsLeap(y) then 29 else 28)
    else if m == 4 || m == 6 || m == 9 || m == 11 then 30
    else 31
  }

  predicate ValidCivil(c: Civil) {
    1 <= c.month <= 12 && 1 <= c.day <= DaysInMonth(c.year, c.month)
  }

  /** A date that `datetime.date(year, month, day)` accepts (years are unbounded here). */
  type Date = c: Civil | ValidCivil(c) witness Civil(2000, 1, 1)

  function DaysInYear(y: int): int {
    if IsLeap(y) then 366 else 365
  }

  /** Days in the years before `y`, Python's `_days_before_year`. */
  function DaysBeforeYear(y: int): int {
    var p := y - 1;
    365 * p + p / 4 - p / 100 + p / 400
  }

  /** Days in the months of year `y` before month `m`, Python's `_days_before_month`. */
  function DaysBeforeMonth(y: int, m: int): int
    requires 1 <= m <= 12
  {
    var table := [0, 31, 59, 90, 120, 151, 181, 212, 243, 273, 304, 334];
    table[m - 1] + (if m > 2 && IsLeap(y) then 1 else 0)
  }

  /** `date.toordinal()`. */
  function Ordinal(d: Date): int {
    DaysBeforeYear(d.year) + DaysBeforeMonth(d.year, d.month) + d.day
  }

  /** `date.weekday()`: Monday = 0, ..., Saturday = 5, Sunday = 6. */
  function Weekday(d: Date): (w: int)
    ensures 0 <= w < 7
  {
    (Ordinal(d) + 6) % 7
  }

  /** `(b - a).days`. */
  function DaysBetween(a: Date, b: Date): int {
    Ordinal(b) - Ordinal(a)
  }

  /** Python's `a < b` on dates: lexicographic on (year, month, day). */
  predicate LexLess(a: Civil, b: Civil) {
    a.year < b.year
    || (a.year == b.year && a.month < b.month)
    || (a.year == b.year && a.month == b.month && a.day < b.day)
  }

  function NextDay(d: Date): (r: Date)
    ensures Ordinal(r) == Ordinal(d) + 1
  {
    if d.day < DaysInMonth(d.year, d.month) then Civil(d.year, d.month, d.day + 1)
    else if d.month < 12 then
      MonthStep(d.year, d.month);
      Civil(d.year, d.month + 1, 1)
    else
      YearStep(d.year);
      Civil(d.year + 1, 1, 1)
  }

  function PrevDay(d: Date): (r: Date)
    ensures Ordinal(r) == Ordinal(d) - 1
  {
    if d.day > 1 then Civil(d.year, d.month, d.day - 1)
    else if d.month > 1 then
      MonthStep(d.year, d.month - 1);
      Civil(d.year, d.month - 1, DaysInMonth(d.year, d.month - 1))
    else
      YearStep(d.year - 1);
      Civil(d.year - 1, 12, 31)
  }

  /** `d + timedelta(days=n)`. */
  function AddDays(d: Date, n: int): (r: Date)
    ensures Ordinal(r) == Ordinal(d) + n
    decreases if n < 0 then -n else n
  {
    if n == 0 then d
    else if n > 0 then AddDays(NextDay(d), n - 1)
    else AddDays(PrevDay(d), n + 1)
  }

  lemma MonthStep(y: int, m: int)
    requires 1 <= m < 12
    ensures DaysBeforeMonth(y, m + 1) == DaysBeforeMonth(y, m) + DaysInMonth(y, m)
  {
  }

  /** One year further on, the count of days before the year grows by that year's length. */
  lemma YearStep(y: int)
    ensures DaysBeforeYear(y + 1) == DaysBeforeYear(y) + DaysInYear(y)
  {
    DivStep4(y);
    DivStep100(y);
    DivStep400(y);
    Divides400(y);
    Divides100(y);
  }

  lemma DivStep4(y: int)
    ensures y / 4 == (y - 1) / 4 + (if y % 4 == 0 then 1 else 0)
  {
  }

  lemma DivStep100(y: int)
    ensures y / 100 == (y - 1) / 100 + (if y % 100 == 0 then 1 else 0)
  {
  }

  lemma DivStep400(y: int)
    ensures y / 400 == (y - 1) / 400 + (if y % 400 == 0 then 1 else 0)
  {
  }

  lemma Divides400(y: int)
    ensures y % 400 == 0 ==> y % 100 == 0
  {
    if y % 400 == 0 {
      var q := y / 400;
      assert y == 100 * (4 * q);
    }
  }

  lemma Divides100(y: int)
    ensures y % 100 == 0 ==> y % 4 == 0
  {
    if y % 100 == 0 {
      var q := y / 100;
      assert y == 4 * (25 * q);
    }
  }

  lemma DaysBeforeYearMonotone(x: int, y: int)
    requires x <= y
    ensures DaysBeforeYear(x) + 365 * (y - x) <= DaysBeforeYear(y)
    decreases y - x
  {
    if x < y {
      YearStep(x);
      DaysBeforeYearMonotone(x + 1, y);
    }
  }

  /** The days of a date's year before it, plus the date itself, fit in the year. */
  lemma WithinYear(d: Date)
    ensures DaysBeforeYear(d.year) < Ordinal(d) <= DaysBeforeYear(d.year) + DaysInYear(d.year)
  {
  }

  lemma WithinMonth(y: int, m1: int, m2: int, d1: int)
    requires 1 <= m1 < m2 <= 12 && d1 <= DaysInMonth(y, m1)
    ensures DaysBeforeMonth(y, m1) + d1 <= DaysBeforeMonth(y, m2)
  {
  }

  /** The ordinal numbering follows Python's lexicographic order on dates. */
  lemma {:induction false} OrdinalMonotone(a: Date, b: Date)
    requires LexLess(a, b)
    ensures Ordinal(a) < Ordinal(b)
  {
    if a.year < b.year {
      WithinYear(a);
      WithinYear(b);
      YearStep(a.year);
      DaysBeforeYearMonotone(a.year + 1, b.year);
    } else if a.month < b.month {
      WithinMonth(a.year, a.month, b.month, a.day);
    }
  }

  /** Comparing ordinals is comparing dates: `a < b` holds exactly when `Ordinal(a) < Ordinal(b)`. */
  lemma OrdinalOrder(a: Date, b: Date)
    ensures LexLess(a, b) <==> Ordinal(a) < Ordinal(b)
    ensures a == b <==> Ordinal(a) == Ordinal(b)
  {
    if LexLess(a, b) {
      OrdinalMonotone(a, b);
    } else if LexLess(b, a) {
      OrdinalMonotone(b, a);
    }
  }
}
