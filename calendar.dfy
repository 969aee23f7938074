/**
 * Calendar arithmetic used by the ledger: Python `datetime` values down
 * to the microsecond (the resolution of both `datetime` and the store's
 * timestamps), their order, month lengths, `- timedelta(days=n)`, and
 * the month bounds that the monthly summary and the forecast window are
 * computed from.
 */
module Calendar {

  /** A `datetime`: `micro` counts the microseconds since midnight. */
  datatype DateTime = DateTime(year: int, month: int, day: int, micro: int)

  /** Microseconds in a day. */
  const DayMicros := 86_400_000_000

  predicate IsLeap(y: int)
  {
    y % 4 == 0 && (y % 100 != 0 || y % 400 == 0)
  }

  function DaysInMonth(y: int, m: int): (n: int)
    requires 1 <= m <= 12
    ensures 28 <= n <= 31
    ensures m == 2 ==> (n == 29 <==> IsLeap(y))
  {
    if m == 2 then (if IsLeap(y) then 29 else 28)
    else if m == 4 || m == 6 || m == 9 || m == 11 then 30
    else 31
  }

  predicate ValidDate(d: DateTime)
  {
    1 <= d.month <= 12 && 1 <= d.day <= DaysInMonth(d.year, d.month) && 0 <= d.micro < DayMicros
  }

  /** `a <= b` on datetimes: lexicographic on (year, month, day, time of day). */
  predicate Le(a: DateTime, b: DateTime)
  {
    a.year < b.year ||
    (a.year == b.year && (a.month < b.month ||
      (a.month == b.month && (a.day < b.day ||
        (a.day == b.day && a.micro <= b.micro)))))
  }

  predicate Lt(a: DateTime, b: DateTime) { Le(a, b) && a != b }

  lemma LeTotal(a: DateTime, b: DateTime)
    ensures Le(a, b) || Le(b, a)
  {
  }

  lemma LeTransitive(a: DateTime, b: DateTime, c: DateTime)
    requires Le(a, b) && Le(b, c)
    ensures Le(a, c)
  {
  }

  lemma LeAntisymmetric(a: DateTime, b: DateTime)
    requires Le(a, b) && Le(b, a)
    ensures a == b
  {
  }

  /** `datetime(y, m, 1)`. */
  function FirstOfMonth(y: int, m: int): (d: DateTime)
    requires 1 <= m <= 12
    ensures ValidDate(d)
  {
    DateTime(y, m, 1, 0)
  }

  /** The (year, month) that follows (y, m), rolling December into January. */
  function NextMonth(y: int, m: int): (r: (int, int))
    requires 1 <= m <= 12
    ensures 1 <= r.1 <= 12
  {
    if m == 12 then (y + 1, 1) else (y, m + 1)
  }

  /** `d - timedelta(days=1)`: the time of day is kept. */
  function PreviousDay(d: DateTime): (r: DateTime)
    requires ValidDate(d)
    ensures ValidDate(r)
    ensures Lt(r, d)
  {
    if d.day > 1 then DateTime(d.year, d.month, d.day - 1, d.micro)
    else if d.month > 1 then DateTime(d.year, d.month - 1, DaysInMonth(d.year, d.month - 1), d.micro)
    else DateTime(d.year - 1, 12, 31, d.micro)
  }

  /** The years a Python `datetime` can hold; outside them construction and arithmetic raise. */
  const MinYear := 1
  const MaxYear := 9999

  /** `d + timedelta(days=1)`: the time of day is kept. */
  function NextDay(d: DateTime): (r: DateTime)
    requires ValidDate(d)
    ensures ValidDate(r)
    ensures Lt(d, r)
  {
    if d.day < DaysInMonth(d.year, d.month) then DateTime(d.year, d.month, d.day + 1, d.micro)
    else if d.month < 12 then DateTime(d.year, d.month + 1, 1, d.micro)
    else DateTime(d.year + 1, 1, 1, d.micro)
  }

  /** `d + timedelta(days=n)`. */
  function AddDays(d: DateTime, n: nat): (r: DateTime)
    requires ValidDate(d)
    ensures ValidDate(r)
    ensures Le(d, r)
    decreases n
  {
    if n == 0 then d
    else
      var r := AddDays(NextDay(d), n - 1);
      LeTransitive(d, NextDay(d), r);
      r
  }

  /** The two steps undo each other. */
  lemma PreviousDayNextDay(d: DateTime)
    requires ValidDate(d)
    ensures PreviousDay(NextDay(d)) == d && NextDay(PreviousDay(d)) == d
  {
  }

  /** `d - timedelta(days=n)`. */
  function SubtractDays(d: DateTime, n: nat): (r: DateTime)
    requires ValidDate(d)
    ensures ValidDate(r)
    ensures Le(r, d)
    decreases n
  {
    if n == 0 then d
    else
      var r := SubtractDays(PreviousDay(d), n - 1);
      LeTransitive(r, PreviousDay(d), d);
      r
  }

  /**
   * The upper bound the source computes for a month:
   * `datetime(next month, 1) - timedelta(days=1)`.
   */
  function MonthEndAsWritten(y: int, m: int): DateTime
    requires 1 <= m <= 12
  {
    var (ny, nm) := NextMonth(y, m);
    PreviousDay(FirstOfMonth(ny, nm))
  }

  /** That bound is the month's last day, at midnight, including for December. */
  lemma MonthEndAsWrittenIsLastMidnight(y: int, m: int)
    requires 1 <= m <= 12
    ensures MonthEndAsWritten(y, m) == DateTime(y, m, DaysInMonth(y, m), 0)
  {
  }

  /**
   * The last microsecond of a month: the bound that covers the whole month,
   * the last instant strictly before the next month's first.
   */
  function MonthEnd(y: int, m: int): (d: DateTime)
    requires 1 <= m <= 12
    ensures ValidDate(d)
    ensures d.year == y && d.month == m
    ensures var (ny, nm) := NextMonth(y, m); Lt(d, FirstOfMonth(ny, nm))
  {
    DateTime(y, m, DaysInMonth(y, m), DayMicros - 1)
  }

  /**
   * No datetime lies between the bound and the next month: `t <= MonthEnd`
   * is the same test as `t < datetime(next month, 1)`.
   */
  lemma MonthEndIsBeforeNextMonth(t: DateTime, y: int, m: int)
    requires ValidDate(t) && 1 <= m <= 12
    ensures var (ny, nm) := NextMonth(y, m); Le(t, MonthEnd(y, m)) <==> Lt(t, FirstOfMonth(ny, nm))
  {
  }

  /** A valid datetime lies in month (y, m) exactly when it is within [first, MonthEnd]. */
  lemma InMonthIffWithinBounds(t: DateTime, y: int, m: int)
    requires ValidDate(t) && 1 <= m <= 12
    ensures (t.year == y && t.month == m) <==> (Le(FirstOfMonth(y, m), t) && Le(t, MonthEnd(y, m)))
  {
  }

  /**
   * With the bound as written, a datetime on the last day of the month
   * after midnight is in the month but above the bound.
   */
  lemma LastDayAfterMidnightEscapesBound()
    ensures var t := DateTime(2024, 1, 31, 36_000_000_000);
            ValidDate(t) && t.year == 2024 && t.month == 1 && !Le(t, MonthEndAsWritten(2024, 1))
  {
    MonthEndAsWrittenIsLastMidnight(2024, 1);
  }
}
