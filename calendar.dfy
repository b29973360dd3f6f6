/**
 * The proleptic Gregorian calendar of Python's `datetime.date`: day ordinals
 * (0001-01-01 is day 1), leap years, and weekdays with Monday = 0. This is the
 * arithmetic that the `%W` week-number conversion of `pd.to_datetime` performs.
 */
module Calendar {

  const MIN_YEAR := 1
  const MAX_YEAR := 9999
  /** The ordinal of 9999-12-31, the last day a `date` can hold. */
  const MAX_ORDINAL := 3652059
  const MONDAY := 0

  datatype Date = Date(year: int, month: int, day: int)

  predicate IsLeap(y: int) {
    y % 4 == 0 && (y % 100 != 0 || y % 400 == 0)
  }

  function DaysInYear(y: int): (n: int)
    ensures n == 365 || n == 366
  {
    if IsLeap(y) then 366 else 365
  }

  function DaysInMonth(y: int, m: int): (n: int)
    requires 1 <= m <= 12
    ensures 28 <= n <= 31
  {
    if m == 2 then (if IsLeap(y) then 29 else 28)
    else if m == 4 || m == 6 || m == 9 || m == 11 then 30
    else 31
  }

  /** Days of year `y` before the first of month `m`. */
  function DaysBeforeMonth(y: int, m: int): (n: int)
    requires 1 <= m <= 12
    ensures 0 <= n <= 335
  {
    var common :=
      if m == 1 then 0 else if m == 2 then 31 else if m == 3 then 59 else if m == 4 then 90
      else if m == 5 then 120 else if m == 6 then 151 else if m == 7 then 181 else if m == 8 then 212
      else if m == 9 then 243 else if m == 10 then 273 else if m == 11 then 304 else 334;
    common + (if m > 2 && IsLeap(y) then 1 else 0)
  }

  /** Days before 1 January of year `y`, counted from 0001-01-01: the lengths of the years before it. */
  function DaysBeforeYear(y: int): (n: int)
    requires y >= 1
    ensures n >= 0
    decreases y
  {
    if y <= 1 then 0 else DaysBeforeYear(y - 1) + DaysInYear(y - 1)
  }

  predicate ValidDate(d: Date) {
    MIN_YEAR <= d.year <= MAX_YEAR && 1 <= d.month <= 12 && 1 <= d.day <= DaysInMonth(d.year, d.month)
  }

  /** `date.toordinal()`. */
  function ToOrdinal(d: Date): (n: int)
    requires ValidDate(d)
    ensures 1 <= n <= MAX_ORDINAL
    ensures DaysBeforeYear(d.year) < n <= DaysBeforeYear(d.year) + DaysInYear(d.year)
  {
    MonthFits(d.year, d.month);
    LastOrdinal();
    DaysBeforeYearMonotone(d.year + 1, MAX_YEAR + 1);
    DaysBeforeNextYear(d.year);
    DaysBeforeYear(d.year) + DaysBeforeMonth(d.year, d.month) + d.day
  }

  /** `date.weekday()`: Monday is 0, Sunday is 6. */
  function Weekday(d: Date): int
    requires ValidDate(d)
  {
    OrdinalWeekday(ToOrdinal(d))
  }

  /** The weekday of a day ordinal; day 1, 0001-01-01, is a Monday. */
  function OrdinalWeekday(n: int): (w: int)
    ensures 0 <= w < 7
  {
    (n + 6) % 7
  }

  /** `date.fromordinal(n)`. */
  function FromOrdinal(n: int): (d: Date)
    requires 1 <= n <= MAX_ORDINAL
    ensures ValidDate(d) && ToOrdinal(d) == n
  {
    var y := YearOf(n);
    var dayOfYear := n - DaysBeforeYear(y);
    var m := ScanMonth(y, 1, dayOfYear);
    Date(y, m, dayOfYear - DaysBeforeMonth(y, m))
  }

  /** The year holding day `n`: whole 400-year cycles first, then year by year. */
  function YearOf(n: int): (y: int)
    requires 1 <= n <= MAX_ORDINAL
    ensures MIN_YEAR <= y <= MAX_YEAR
    ensures DaysBeforeYear(y) < n <= DaysBeforeYear(y) + DaysInYear(y)
  {
    var cycles := (n - 1) / 146097;
    CycleStart(cycles);
    var y := ScanYear(400 * cycles + 1, n);
    YearBound(y, n);
    DaysBeforeNextYear(y);
    y
  }

  /** The year holding day `n`, searched upwards from year `y`. */
  function ScanYear(y: int, n: int): (r: int)
    requires 1 <= y && DaysBeforeYear(y) < n
    ensures y <= r && DaysBeforeYear(r) < n <= DaysBeforeYear(r + 1)
    decreases n - DaysBeforeYear(y)
  {
    DaysBeforeNextYear(y);
    if n <= DaysBeforeYear(y + 1) then y else ScanYear(y + 1, n)
  }

  /** The month holding day `dayOfYear` of year `y`, searched upwards from month `m`. */
  function ScanMonth(y: int, m: int, dayOfYear: int): (r: int)
    requires 1 <= m <= 12 && DaysBeforeMonth(y, m) < dayOfYear <= DaysInYear(y)
    ensures m <= r <= 12
    ensures DaysBeforeMonth(y, r) < dayOfYear <= DaysBeforeMonth(y, r) + DaysInMonth(y, r)
    decreases 12 - m
  {
    if m == 12 || dayOfYear <= DaysBeforeMonth(y, m + 1) then m else ScanMonth(y, m + 1, dayOfYear)
  }

  // ---------------------------------------------------------------------------
  // Lemmas

  lemma DaysBeforeNextYear(y: int)
    requires y >= 1
    ensures DaysBeforeYear(y + 1) == DaysBeforeYear(y) + DaysInYear(y)
  {
  }

  /** The closed form `_days_before_year` of Python's datetime computes. */
  lemma {:induction false} DaysBeforeYearClosedForm(y: int)
    requires y >= 1
    ensures var p := y - 1; DaysBeforeYear(y) == 365 * p + p / 4 - p / 100 + p / 400
    decreases y
  {
    if y > 1 {
      DaysBeforeYearClosedForm(y - 1);
      DivStep(y - 1, 4);
      DivStep(y - 1, 100);
      DivStep(y - 1, 400);
      LeapCount(y - 1);
    }
  }

  lemma DivStep(p: int, k: int)
    requires p >= 1 && (k == 4 || k == 100 || k == 400)
    ensures p / k == (p - 1) / k + (if p % k == 0 then 1 else 0)
  {
    if k == 4 {
      assert p / 4 == (p - 1) / 4 + (if p % 4 == 0 then 1 else 0);
    } else if k == 100 {
      assert p / 100 == (p - 1) / 100 + (if p % 100 == 0 then 1 else 0);
    } else {
      assert p / 400 == (p - 1) / 400 + (if p % 400 == 0 then 1 else 0);
    }
  }

  /** A year's length as the closed form counts it: every 4th, not every 100th, every 400th. */
  lemma LeapCount(p: int)
    ensures DaysInYear(p) == 365 + (if p % 4 == 0 then 1 else 0)
      - (if p % 100 == 0 then 1 else 0) + (if p % 400 == 0 then 1 else 0)
  {
    if p % 400 == 0 {
      CenturyOf400(p);
      QuadOf100(p);
    } else if p % 100 == 0 {
      QuadOf100(p);
    }
  }

  lemma CenturyOf400(p: int)
    requires p % 400 == 0
    ensures p % 100 == 0
  {
    assert p == 100 * (4 * (p / 400));
  }

  lemma QuadOf100(p: int)
    requires p % 100 == 0
    ensures p % 4 == 0
  {
    assert p == 4 * (25 * (p / 100));
  }

  lemma {:induction false} DaysBeforeYearMonotone(a: int, b: int)
    requires 1 <= a <= b
    ensures DaysBeforeYear(a) + 365 * (b - a) <= DaysBeforeYear(b)
    decreases b - a
  {
    if a < b {
      DaysBeforeYearMonotone(a, b - 1);
      DaysBeforeNextYear(b - 1);
    }
  }

  /** Every 400 Gregorian years hold 146097 days. */
  lemma CycleStart(c: int)
    requires c >= 0
    ensures DaysBeforeYear(400 * c + 1) == 146097 * c
  {
    DaysBeforeYearClosedForm(400 * c + 1);
    var p := 400 * c;
    assert p / 4 == 100 * c;
    assert p / 100 == 4 * c;
    assert p / 400 == c;
  }

  lemma LastOrdinal()
    ensures DaysBeforeYear(MAX_YEAR + 1) == MAX_ORDINAL
  {
    DaysBeforeYearClosedForm(MAX_YEAR + 1);
  }

  /** A month ends no later than its year does. */
  lemma MonthFits(y: int, m: int)
    requires 1 <= m <= 12
    ensures DaysBeforeMonth(y, m) + DaysInMonth(y, m) <= DaysInYear(y)
  {
  }

  lemma YearBound(y: int, n: int)
    requires 1 <= y && DaysBeforeYear(y) < n <= MAX_ORDINAL
    ensures y <= MAX_YEAR
  {
    if y > MAX_YEAR {
      LastOrdinal();
      DaysBeforeYearMonotone(MAX_YEAR + 1, y);
    }
  }

  lemma {:induction false} ScanMonthFinds(y: int, m: int, dayOfYear: int, target: int)
    requires 1 <= m <= target <= 12
    requires DaysBeforeMonth(y, target) < dayOfYear <= DaysBeforeMonth(y, target) + DaysInMonth(y, target)
    ensures DaysBeforeMonth(y, m) < dayOfYear <= DaysInYear(y)
    ensures ScanMonth(y, m, dayOfYear) == target
    decreases target - m
  {
    if m < target {
      ScanMonthFinds(y, m + 1, dayOfYear, target);
    }
  }

  /** Only one year brackets a given day. */
  lemma YearOfUnique(n: int, y: int)
    requires 1 <= n <= MAX_ORDINAL && 1 <= y
    requires DaysBeforeYear(y) < n <= DaysBeforeYear(y) + DaysInYear(y)
    ensures YearOf(n) == y
  {
    var r := YearOf(n);
    DaysBeforeNextYear(r);
    DaysBeforeNextYear(y);
    BracketUnique(n, r, y);
  }

  lemma BracketUnique(n: int, r: int, y: int)
    requires 1 <= r && 1 <= y
    requires DaysBeforeYear(r) < n <= DaysBeforeYear(r + 1)
    requires DaysBeforeYear(y) < n <= DaysBeforeYear(y + 1)
    ensures r == y
  {
    if r < y {
      DaysBeforeYearMonotone(r + 1, y);
    } else if r > y {
      DaysBeforeYearMonotone(y + 1, r);
    }
  }

  /** Converting a date to its ordinal and back gives the date again. */
  lemma FromToOrdinal(d: Date)
    requires ValidDate(d)
    ensures FromOrdinal(ToOrdinal(d)) == d
  {
    var n := ToOrdinal(d);
    YearOfUnique(n, d.year);
    var dayOfYear := n - DaysBeforeYear(d.year);
    ScanMonthFinds(d.year, 1, dayOfYear, d.month);
  }

  /** Ordinals are one-to-one on valid dates. */
  lemma ToOrdinalInjective(d: Date, e: Date)
    requires ValidDate(d) && ValidDate(e) && ToOrdinal(d) == ToOrdinal(e)
    ensures d == e
  {
    FromToOrdinal(d);
    FromToOrdinal(e);
  }
}
