/** Calendar arithmetic of Python's `datetime.date`, on which the views compute
    week starts, month ends, the activity streak and ages.

    A date is a (year, month, day) triple in the proleptic Gregorian calendar,
    years 1 to 9999 as `date` allows. Day arithmetic (`date +/- timedelta`)
    works on the day's ordinal, the number `date.toordinal()` gives: 0001-01-01
    is day 1. A result outside 1..MaxOrdinal is the OverflowError Python raises. */
module Calendar {
  import opened Wrappers

  const MinYear: int := 1
  const MaxYear: int := 9999
  /** The ordinal of 9999-12-31, the last day `date` can represent. */
  const MaxOrdinal: int := 3652059

  datatype Date = Date(year: int, month: int, day: int)

  predicate IsLeap(y: int) {
    y % 4 == 0 && (y % 100 != 0 || y % 400 == 0)
  }

  function DaysInYear(y: int): int {
    if IsLeap(y) then 366 else 365
  }

  function DaysInMonth(y: int, m: int): (n: int)
    requires 1 <= m <= 12
    ensures 28 <= n <= 31
    ensures n == 29 <==> m == 2 && IsLeap(y)
  {
    if m == 2 then (if IsLeap(y) then 29 else 28)
    else if m == 4 || m == 6 || m == 9 || m == 11 then 30
    else 31
  }

  const CumulativeDays: seq<int> := [0, 31, 59, 90, 120, 151, 181, 212, 243, 273, 304, 334]

  /** Days of the year `y` that come before the first of month `m`. */
  function DaysBeforeMonth(y: int, m: int): int
    requires 1 <= m <= 12
  {
    CumulativeDays[m - 1] + (if m > 2 && IsLeap(y) then 1 else 0)
  }

  /** Days before January 1 of year `y`, counted from 0001-01-01. */
  function DaysBeforeYear(y: int): int
    requires y >= 1
  {
    var p := y - 1;
    p * 365 + p / 4 - p / 100 + p / 400
  }

  predicate ValidDate(d: Date) {
    MinYear <= d.year <= MaxYear && 1 <= d.month <= 12 && 1 <= d.day <= DaysInMonth(d.year, d.month)
  }

  predicate ValidOrdinal(n: int) {
    1 <= n <= MaxOrdinal
  }

  function ToOrdinal(d: Date): int
    requires ValidDate(d)
  {
    DaysBeforeYear(d.year) + DaysBeforeMonth(d.year, d.month) + d.day
  }

  /** `date.weekday()`: Monday is 0 and Sunday is 6. */
  function Weekday(n: int): (w: int)
    ensures 0 <= w < 7
  {
    (n + 6) % 7
  }

  /** Lexicographic order on (year, month, day), the order of `date` values. */
  predicate Before(a: Date, b: Date) {
    a.year < b.year || (a.year == b.year && (a.month < b.month || (a.month == b.month && a.day < b.day)))
  }

  // ---------------------------------------------------------------- lemmas

  lemma DivSteps(p: int)
    requires p >= 0
    ensures (p + 1) / 4 - p / 4 == if (p + 1) % 4 == 0 then 1 else 0
    ensures (p + 1) / 100 - p / 100 == if (p + 1) % 100 == 0 then 1 else 0
    ensures (p + 1) / 400 - p / 400 == if (p + 1) % 400 == 0 then 1 else 0
  {
  }

  /** A multiple of 400 is a multiple of 100, and a multiple of 100 one of 4. */
  lemma DivisorSteps(y: int)
    ensures y % 400 == 0 ==> y % 100 == 0
    ensures y % 100 == 0 ==> y % 4 == 0
  {
    var q4, r4 := y / 4, y % 4;
    var q100, r100 := y / 100, y % 100;
    assert y == 4 * q4 + r4 && 0 <= r4 < 4;
    assert y == 100 * q100 + r100 && 0 <= r100 < 100;
    if y % 400 == 0 {
      var q := y / 400;
      assert y == 400 * q;
      assert r100 == 100 * (4 * q - q100);
    }
    if r100 == 0 {
      assert r4 == 4 * (25 * q100 - q4);
    }
  }

  /** A year has 365 days, or 366 when it is a leap year. */
  lemma {:induction false} YearLength(y: int)
    requires y >= 1
    ensures DaysBeforeYear(y + 1) == DaysBeforeYear(y) + DaysInYear(y)
  {
    var p := y - 1;
    DivSteps(p);
    DivisorSteps(y);
    var d4, d100, d400 := y / 4 - p / 4, y / 100 - p / 100, y / 400 - p / 400;
    assert DaysBeforeYear(y + 1) == DaysBeforeYear(y) + 365 + d4 - d100 + d400;
    assert DaysInYear(y) == 365 + d4 - d100 + d400;
  }

  /** Month `m` ends the day before month `m + 1` (or the next year) begins. */
  lemma MonthLength(y: int, m: int)
    requires 1 <= m <= 12
    ensures DaysBeforeMonth(y, m) + DaysInMonth(y, m) == if m == 12 then DaysInYear(y) else DaysBeforeMonth(y, m + 1)
  {
  }

  lemma {:induction false} DaysBeforeYearMonotone(a: int, b: int)
    requires 1 <= a <= b
    ensures DaysBeforeYear(a) <= DaysBeforeYear(b)
    decreases b - a
  {
    if a < b {
      DaysBeforeYearMonotone(a, b - 1);
      YearLength(b - 1);
    }
  }

  /** Every valid date has an ordinal in 1..MaxOrdinal. */
  lemma OrdinalRange(d: Date)
    requires ValidDate(d)
    ensures ValidOrdinal(ToOrdinal(d))
  {
    var p := d.year - 1;
    assert p / 4 >= p / 100 by {
      var q4, r4 := p / 4, p % 4;
      var q100, r100 := p / 100, p % 100;
      assert p == 4 * q4 + r4 && 0 <= r4 < 4;
      assert p == 100 * q100 + r100 && 0 <= r100 < 100;
    }
    MonthLength(d.year, d.month);
    if d.month < 12 {
      assert DaysBeforeMonth(d.year, d.month + 1) <= DaysBeforeMonth(d.year, 12) + DaysInMonth(d.year, 12);
    }
    YearLength(d.year);
    DaysBeforeYearMonotone(d.year + 1, MaxYear + 1);
    assert DaysBeforeYear(MaxYear + 1) == MaxOrdinal;
  }

  // ---------------------------------------------------------- month bounds

  /** `date(y, m, 1)`: the first of the month, or None where `date` raises
      ValueError (year outside 1..9999 or month outside 1..12). */
  function MonthStart(y: int, m: int): (r: Option<int>)
    ensures r.Some? <==> MinYear <= y <= MaxYear && 1 <= m <= 12
    ensures r.Some? ==> ValidOrdinal(r.value) && Weekday(r.value) == Weekday(ToOrdinal(Date(y, m, 1)))
    ensures r.Some? ==> r.value == ToOrdinal(Date(y, m, 1))
  {
    if MinYear <= y <= MaxYear && 1 <= m <= 12 then
      OrdinalRange(Date(y, m, 1));
      Some(ToOrdinal(Date(y, m, 1)))
    else None
  }

  /** The month end of monthly_analytics and workout_calendar: the first of
      the next month (January of the next year for December) minus one day.
      It exists for every month except December 9999, where `date(10000, 1, 1)`
      raises ValueError; where it exists it is the month's last day. */
  function MonthEnd(y: int, m: int): (r: Option<int>)
    requires MinYear <= y <= MaxYear && 1 <= m <= 12
    ensures r.Some? <==> !(y == MaxYear && m == 12)
    ensures r.Some? ==> ValidOrdinal(r.value) && r.value == ToOrdinal(Date(y, m, DaysInMonth(y, m)))
  {
    MonthLength(y, m);
    OrdinalRange(Date(y, m, DaysInMonth(y, m)));
    if m == 12 then
      if y + 1 > MaxYear then None
      else
        YearLength(y);
        Some(ToOrdinal(Date(y + 1, 1, 1)) - 1)
    else
      Some(ToOrdinal(Date(y, m + 1, 1)) - 1)
  }

  lemma {:induction false} MonthSpan(y: int, m: int)
    requires MinYear <= y <= MaxYear && 1 <= m <= 12 && !(y == MaxYear && m == 12)
    ensures MonthStart(y, m).Some? && MonthEnd(y, m).Some?
    ensures MonthEnd(y, m).value - MonthStart(y, m).value + 1 == DaysInMonth(y, m)
  {
    var s := MonthStart(y, m);
    var e := MonthEnd(y, m);
    assert s.value == DaysBeforeYear(y) + DaysBeforeMonth(y, m) + 1;
    assert e.value == DaysBeforeYear(y) + DaysBeforeMonth(y, m) + DaysInMonth(y, m);
  }

  // ----------------------------------------------------------- week bounds

  /** `today - timedelta(days=today.weekday())`: the Monday of the week that
      contains day `t`. It never underflows because 0001-01-01 is a Monday. */
  function WeekStartOf(t: int): (r: int)
    requires ValidOrdinal(t)
    ensures ValidOrdinal(r) && Weekday(r) == 0
    ensures r <= t < r + 7
  {
    t - Weekday(t)
  }

  /** The Monday of a week is the only Monday among the seven days ending at `t`. */
  lemma {:induction false} WeekStartUnique(t: int, monday: int)
    requires ValidOrdinal(t) && Weekday(monday) == 0 && monday <= t < monday + 7
    ensures monday == WeekStartOf(t)
  {
    var r := WeekStartOf(t);
    var k := (monday + 6) / 7;
    assert monday + 6 == 7 * k;
    var j := (r + 6) / 7;
    assert r + 6 == 7 * j;
    assert -7 < 7 * k - 7 * j < 7;
    assert k == j;
  }

  /** `n + timedelta(days=k)`: None where Python raises OverflowError. */
  function AddDays(n: int, k: int): (r: Option<int>)
    ensures r.Some? <==> ValidOrdinal(n + k)
    ensures r.Some? ==> r.value - n == k
  {
    if ValidOrdinal(n + k) then Some(n + k) else None
  }

  /** `week_start + timedelta(days=6)`: the Sunday that ends a week begun on
      a Monday; None in the last days of 9999, where Python overflows. */
  function WeekEnd(start: int): (r: Option<int>)
    requires ValidOrdinal(start)
    ensures r.Some? <==> start + 6 <= MaxOrdinal
    ensures r.Some? ==> r.value - start == 6 && Weekday(r.value) == (Weekday(start) + 6) % 7
    ensures r.Some? && Weekday(start) == 0 ==> Weekday(r.value) == 6
  {
    AddDays(start, 6)
  }
}
