/**
 * Local calendar dates as the pages read them from JavaScript's Date
 * (getFullYear(), getMonth() counting January as 0, getDate()), and the date
 * arithmetic the pages rely on: the Date(y, m, d) constructor and setMonth(),
 * both of which roll an out-of-range month into the year and an out-of-range
 * day into the neighbouring months rather than clamping it.
 */
module Dates {

  datatype Date = Date(year: int, month: int, day: int)

  /** A point in time: a local date and the milliseconds since its midnight. */
  datatype DateTime = DateTime(date: Date, millis: int)

  const MillisPerDay: int := 86_400_000

  /** Proleptic Gregorian leap years, as JavaScript's Date counts them. */
  predicate IsLeapYear(y: int)
  {
    y % 4 == 0 && (y % 100 != 0 || y % 400 == 0)
  }

  function DaysInMonth(y: int, m: int): (n: int)
    requires 0 <= m < 12
    ensures 28 <= n <= 31
    ensures n == 28 <==> m == 1 && !IsLeapYear(y)
  {
    if m == 1 then (if IsLeapYear(y) then 29 else 28)
    else if m == 3 || m == 5 || m == 8 || m == 10 then 30
    else 31
  }

  predicate ValidDate(d: Date)
  {
    0 <= d.month < 12 && 1 <= d.day <= DaysInMonth(d.year, d.month)
  }

  predicate ValidDateTime(t: DateTime)
  {
    ValidDate(t.date) && 0 <= t.millis < MillisPerDay
  }

  /** Months counted from January of year 0: consecutive months differ by one. */
  function MonthNumber(y: int, m: int): int
  {
    y * 12 + m
  }

  function NextMonth(y: int, m: int): (r: (int, int))
    requires 0 <= m < 12
    ensures 0 <= r.1 < 12 && MonthNumber(r.0, r.1) == MonthNumber(y, m) + 1
  {
    if m == 11 then (y + 1, 0) else (y, m + 1)
  }

  function PrevMonth(y: int, m: int): (r: (int, int))
    requires 0 <= m < 12
    ensures 0 <= r.1 < 12 && MonthNumber(r.0, r.1) == MonthNumber(y, m) - 1
  {
    if m == 0 then (y - 1, 11) else (y, m - 1)
  }

  /** Day d of month m of year y, a day outside the month counted on into the
      following months, or back into the preceding ones when d < 1. */
  function RollDay(y: int, m: int, d: int): (r: Date)
    requires 0 <= m < 12
    ensures ValidDate(r)
    decreases (if d <= 0 then 1 else 0), (if d <= 0 then -d else d)
  {
    if d < 1 then
      var p := PrevMonth(y, m);
      RollDay(p.0, p.1, d + DaysInMonth(p.0, p.1))
    else if d <= DaysInMonth(y, m) then
      Date(y, m, d)
    else
      var n := NextMonth(y, m);
      RollDay(n.0, n.1, d - DaysInMonth(y, m))
  }

  /** `new Date(y, m, d)`: the month index is reduced into the year by floor
      division, then the day is rolled. (Dafny's / and % on a positive divisor
      are floor division and a non-negative remainder.) */
  function MakeDate(y: int, m: int, d: int): (r: Date)
    ensures ValidDate(r)
  {
    RollDay(y + m / 12, m % 12, d)
  }

  /** `copy.setMonth(date.getMonth() + k)` on a copy of date. */
  function AddMonths(date: Date, k: int): (r: Date)
    ensures ValidDate(r)
  {
    MakeDate(date.year, date.month + k, date.day)
  }

  /** An in-range day is kept as it is. */
  lemma MakeDateInRange(y: int, m: int, d: int)
    requires 0 <= m < 12 && 1 <= d <= DaysInMonth(y, m)
    ensures MakeDate(y, m, d) == Date(y, m, d)
  {
  }

  /** A day past the end of the month (31 in a 30-day month, 29 to 31 in
      February) rolls into the first days of the next month: nothing clamps it. */
  lemma MakeDateRollsOver(y: int, m: int, d: int)
    requires 0 <= m < 12 && DaysInMonth(y, m) < d <= 31
    ensures var n := NextMonth(y, m);
      MakeDate(y, m, d) == Date(n.0, n.1, d - DaysInMonth(y, m))
  {
    var n := NextMonth(y, m);
    assert y + m / 12 == y && m % 12 == m;
    assert d - DaysInMonth(y, m) <= DaysInMonth(n.0, n.1);
    assert RollDay(n.0, n.1, d - DaysInMonth(y, m)) == Date(n.0, n.1, d - DaysInMonth(y, m));
  }

  /** Adding k months to a date whose day exists in the target month lands on
      the same day, k months on. */
  lemma AddMonthsSameDay(date: Date, k: int)
    requires ValidDate(date)
    requires date.day <= DaysInMonth(date.year + (date.month + k) / 12, (date.month + k) % 12)
    ensures var r := AddMonths(date, k);
      r.day == date.day && MonthNumber(r.year, r.month) == MonthNumber(date.year, date.month) + k
  {
  }

  /** Lexicographic order of dates. */
  predicate OnOrBefore(a: Date, b: Date)
  {
    a.year < b.year || (a.year == b.year && (a.month < b.month || (a.month == b.month && a.day <= b.day)))
  }

  /** An integer that orders date-times as time does; what the expense page
      compares by `new Date(b.date) - new Date(a.date)` and the backend by
      ORDER BY date. */
  function Instant(t: DateTime): int
  {
    ((MonthNumber(t.date.year, t.date.month) * 32) + t.date.day) * MillisPerDay + t.millis
  }

  /** Midnight of the first day of the month of now: Python's
      `datetime(now.year, now.month, 1)`. */
  function StartOfMonth(now: Date): DateTime
  {
    DateTime(Date(now.year, now.month, 1), 0)
  }

  /** A valid date-time is at or after the start of now's month exactly when
      its month is now's month or a later one. */
  lemma AtOrAfterStartOfMonth(t: DateTime, now: Date)
    requires ValidDateTime(t)
    ensures Instant(t) >= Instant(StartOfMonth(now))
        <==> MonthNumber(t.date.year, t.date.month) >= MonthNumber(now.year, now.month)
  {
    var mt := MonthNumber(t.date.year, t.date.month);
    var mn := MonthNumber(now.year, now.month);
    if mt < mn {
      assert mt * 32 + t.date.day <= mn * 32;
    }
  }

  /** Instants order valid date-times lexicographically. */
  lemma InstantMonotone(a: DateTime, b: DateTime)
    requires ValidDateTime(a) && ValidDateTime(b)
    requires OnOrBefore(a.date, b.date) && (a.date == b.date ==> a.millis <= b.millis)
    ensures Instant(a) <= Instant(b)
  {
    var ma := MonthNumber(a.date.year, a.date.month);
    var mb := MonthNumber(b.date.year, b.date.month);
    if ma < mb {
      assert ma * 32 + a.date.day < mb * 32 + b.date.day;
    } else if a.date.day < b.date.day {
      assert ma == mb;
    }
  }
}
