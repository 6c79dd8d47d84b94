/**
 * Naive Python datetimes: a proleptic Gregorian calendar with whole-second
 * resolution.  Timedelta arithmetic goes through a second count on the time
 * line (`Seconds`), month and year arithmetic follows dateutil's
 * `relativedelta` (move the month or year, clamp the day to the length of the
 * target month).  Python's datetime only holds years 1..9999; a result outside
 * that range raises, which the model reports as `None`.
 */
module Calendar {
  import opened Wrappers

  datatype DateTime = DateTime(year: int, month: int, day: int, hour: int, minute: int, second: int)

  const MinYear: int := 1
  const MaxYear: int := 9999
  const SecondsPerDay: int := 86400

  predicate IsLeapYear(y: int)
  {
    y % 4 == 0 && (y % 100 != 0 || y % 400 == 0)
  }

  function DaysInYear(y: int): int
  {
    if IsLeapYear(y) then 366 else 365
  }

  function DaysInMonth(y: int, m: int): (n: int)
    requires 1 <= m <= 12
    ensures 28 <= n <= 31
  {
    if m == 2 then (if IsLeapYear(y) then 29 else 28)
    else if m == 4 || m == 6 || m == 9 || m == 11 then 30
    else 31
  }

  /** Days of year `y` that come before the first of month `m` (`m == 13` is the whole year). */
  function DaysBeforeMonth(y: int, m: int): int
    requires 1 <= m <= 13
  {
    [0, 31, 59, 90, 120, 151, 181, 212, 243, 273, 304, 334, 365][m - 1]
      + (if m > 2 && IsLeapYear(y) then 1 else 0)
  }

  /** Days before January 1st of year `y`, counted from January 1st of year 1. */
  function DaysBeforeYear(y: int): int
  {
    var p := y - 1;
    p * 365 + p / 4 - p / 100 + p / 400
  }

  /** A day that exists in the proleptic Gregorian calendar (any year). */
  predicate WellFormedDate(y: int, m: int, d: int)
  {
    1 <= m <= 12 && 1 <= d <= DaysInMonth(y, m)
  }

  predicate ValidDate(y: int, m: int, d: int)
  {
    MinYear <= y <= MaxYear && WellFormedDate(y, m, d)
  }

  /** A value Python's `datetime` can hold (microseconds are not modelled). */
  predicate Valid(t: DateTime)
  {
    ValidDate(t.year, t.month, t.day)
    && 0 <= t.hour < 24 && 0 <= t.minute < 60 && 0 <= t.second < 60
  }

  /** `date.toordinal()`: January 1st of year 1 is day 1. */
  function Ordinal(y: int, m: int, d: int): int
    requires 1 <= m <= 12
  {
    DaysBeforeYear(y) + DaysBeforeMonth(y, m) + d
  }

  /** Position on the time line, in seconds from 0001-01-01T00:00:00. */
  function Seconds(t: DateTime): int
    requires 1 <= t.month <= 12
  {
    (Ordinal(t.year, t.month, t.day) - 1) * SecondsPerDay + t.hour * 3600 + t.minute * 60 + t.second
  }

  lemma MonthStep(y: int, m: int)
    requires 1 <= m <= 12
    ensures DaysBeforeMonth(y, m + 1) == DaysBeforeMonth(y, m) + DaysInMonth(y, m)
  {
  }

  lemma YearStep(y: int)
    ensures DaysBeforeYear(y + 1) == DaysBeforeYear(y) + DaysInYear(y)
  {
    var p := y - 1;
    assert (p + 1) / 4 == p / 4 + (if (p + 1) % 4 == 0 then 1 else 0);
    assert (p + 1) / 100 == p / 100 + (if (p + 1) % 100 == 0 then 1 else 0);
    assert (p + 1) / 400 == p / 400 + (if (p + 1) % 400 == 0 then 1 else 0);
  }

  lemma {:induction false} DaysBeforeYearMonotone(a: int, b: int)
    requires a <= b
    ensures DaysBeforeYear(a) + 365 * (b - a) <= DaysBeforeYear(b)
    decreases b - a
  {
    if a < b {
      DaysBeforeYearMonotone(a, b - 1);
      YearStep(b - 1);
    }
  }

  /** The ordinal of a valid date falls inside its year and inside its month. */
  lemma OrdinalBounds(y: int, m: int, d: int)
    requires WellFormedDate(y, m, d)
    ensures DaysBeforeYear(y) + DaysBeforeMonth(y, m) < Ordinal(y, m, d) <= DaysBeforeYear(y) + DaysBeforeMonth(y, m + 1)
    ensures DaysBeforeYear(y) < Ordinal(y, m, d) <= DaysBeforeYear(y + 1)
  {
    MonthStep(y, m);
    YearStep(y);
  }

  /** Month `m` of the year holding day `n` of that year (1-based). */
  function MonthOfDay(y: int, m: int, n: int): (r: int)
    requires 1 <= m <= 12
    requires DaysBeforeMonth(y, m) < n <= DaysInYear(y)
    ensures m <= r <= 12
    ensures DaysBeforeMonth(y, r) < n <= DaysBeforeMonth(y, r + 1)
    decreases 12 - m
  {
    if n <= DaysBeforeMonth(y, m + 1) || m == 12 then m else MonthOfDay(y, m + 1, n)
  }

  /** The date (year, month, day) that is day `n` counted from January 1st of year `y`. */
  function DateFrom(y: int, n: int): (int, int, int)
    requires n >= 1
    decreases n
  {
    if n <= DaysInYear(y) then
      var m := MonthOfDay(y, 1, n);
      (y, m, n - DaysBeforeMonth(y, m))
    else DateFrom(y + 1, n - DaysInYear(y))
  }

  lemma {:induction false} DateFromCorrect(y: int, n: int)
    requires n >= 1
    ensures var (y', m', d') := DateFrom(y, n);
      y' >= y && 1 <= m' <= 12 && 1 <= d' <= DaysInMonth(y', m')
      && Ordinal(y', m', d') == DaysBeforeYear(y) + n
    decreases n
  {
    if n <= DaysInYear(y) {
      var m := MonthOfDay(y, 1, n);
      MonthStep(y, m);
    } else {
      YearStep(y);
      DateFromCorrect(y + 1, n - DaysInYear(y));
    }
  }

  /** `datetime.fromordinal`-style inverse of `Seconds`, on the non-negative time line. */
  function FromSeconds(n: int): (t: DateTime)
    requires n >= 0
  {
    var (y, m, d) := DateFrom(1, n / SecondsPerDay + 1);
    var s := n % SecondsPerDay;
    DateTime(y, m, d, s / 3600, s % 3600 / 60, s % 60)
  }

  /** `FromSeconds` gives the time-line position it was asked for, on a well-formed date. */
  lemma FromSecondsCorrect(n: int)
    requires n >= 0
    ensures var t := FromSeconds(n);
      t.year >= MinYear && WellFormedDate(t.year, t.month, t.day)
      && 0 <= t.hour < 24 && 0 <= t.minute < 60 && 0 <= t.second < 60
      && Seconds(t) == n
  {
    var q, s := n / SecondsPerDay, n % SecondsPerDay;
    DateFromCorrect(1, q + 1);
    TimeOfDay(s);
    DaysSplit(n);
  }

  lemma DaysSplit(n: int)
    ensures n == n / SecondsPerDay * SecondsPerDay + n % SecondsPerDay
    ensures 0 <= n % SecondsPerDay < SecondsPerDay
  {
  }

  lemma TimeOfDay(s: int)
    requires 0 <= s < SecondsPerDay
    ensures s == s / 3600 * 3600 + s % 3600 / 60 * 60 + s % 60
    ensures 0 <= s / 3600 < 24 && 0 <= s % 3600 / 60 < 60 && 0 <= s % 60 < 60
  {
    var h, r := s / 3600, s % 3600;
    assert s == h * 3600 + r && 0 <= r < 3600;
    assert r == r / 60 * 60 + r % 60;
    assert s % 60 == r % 60;
  }

  /** Dividing a day-and-time count by the day length gives back the day and the time. */
  lemma DayDivision(q: int, tod: int)
    requires 0 <= tod < SecondsPerDay
    ensures (q * SecondsPerDay + tod) / SecondsPerDay == q
    ensures (q * SecondsPerDay + tod) % SecondsPerDay == tod
  {
  }

  /** Two valid dates with the same ordinal are the same date. */
  lemma OrdinalInjective(y1: int, m1: int, d1: int, y2: int, m2: int, d2: int)
    requires 1 <= m1 <= 12 && 1 <= d1 <= DaysInMonth(y1, m1)
    requires 1 <= m2 <= 12 && 1 <= d2 <= DaysInMonth(y2, m2)
    requires Ordinal(y1, m1, d1) == Ordinal(y2, m2, d2)
    ensures y1 == y2 && m1 == m2 && d1 == d2
  {
    OrdinalSameYear(y1, m1, d1, y2, m2, d2);
    OrdinalSameMonth(y1, m1, d1, m2, d2);
  }

  lemma OrdinalSameYear(y1: int, m1: int, d1: int, y2: int, m2: int, d2: int)
    requires WellFormedDate(y1, m1, d1) && WellFormedDate(y2, m2, d2)
    requires Ordinal(y1, m1, d1) == Ordinal(y2, m2, d2)
    ensures y1 == y2
  {
    OrdinalBounds(y1, m1, d1);
    OrdinalBounds(y2, m2, d2);
    if y1 < y2 {
      DaysBeforeYearMonotone(y1 + 1, y2);
      assert false;
    } else if y2 < y1 {
      DaysBeforeYearMonotone(y2 + 1, y1);
      assert false;
    }
  }

  lemma OrdinalSameMonth(y: int, m1: int, d1: int, m2: int, d2: int)
    requires WellFormedDate(y, m1, d1) && WellFormedDate(y, m2, d2)
    requires Ordinal(y, m1, d1) == Ordinal(y, m2, d2)
    ensures m1 == m2
  {
    OrdinalBounds(y, m1, d1);
    OrdinalBounds(y, m2, d2);
    if m1 < m2 {
      MonthsApart(y, m1 + 1, m2);
      assert false;
    } else if m2 < m1 {
      MonthsApart(y, m2 + 1, m1);
      assert false;
    }
  }

  lemma {:induction false} MonthsApart(y: int, a: int, b: int)
    requires 1 <= a <= b <= 13
    ensures DaysBeforeMonth(y, a) <= DaysBeforeMonth(y, b)
    decreases b - a
  {
    if a < b {
      MonthsApart(y, a, b - 1);
      MonthStep(y, b - 1);
    }
  }

  /** The date search finds a valid date from its ordinal. */
  lemma DateFromOrdinal(y: int, m: int, d: int)
    requires ValidDate(y, m, d)
    ensures Ordinal(y, m, d) >= 1
    ensures DateFrom(1, Ordinal(y, m, d)) == (y, m, d)
  {
    OrdinalBounds(y, m, d);
    DaysBeforeYearMonotone(1, y);
    var n := Ordinal(y, m, d);
    DateFromCorrect(1, n);
    var (y', m', d') := DateFrom(1, n);
    OrdinalInjective(y', m', d', y, m, d);
  }

  /** `Seconds` is one-to-one on valid datetimes; `FromSeconds` undoes it. */
  lemma FromSecondsOfSeconds(t: DateTime)
    requires Valid(t)
    ensures Seconds(t) >= 0
    ensures FromSeconds(Seconds(t)) == t
  {
    DateFromOrdinal(t.year, t.month, t.day);
    var n := Seconds(t);
    var q := Ordinal(t.year, t.month, t.day) - 1;
    var tod := t.hour * 3600 + t.minute * 60 + t.second;
    assert n == q * SecondsPerDay + tod;
    FromSecondsSplit(q, tod);
    TimeFields(t.hour, t.minute, t.second);
  }

  /** `FromSeconds` splits a position into whole days and the time of day. */
  lemma FromSecondsSplit(q: int, tod: int)
    requires q >= 0 && 0 <= tod < SecondsPerDay
    ensures var t := FromSeconds(q * SecondsPerDay + tod);
      DateFrom(1, q + 1) == (t.year, t.month, t.day)
      && t.hour == tod / 3600 && t.minute == tod % 3600 / 60 && t.second == tod % 60
  {
    DayDivision(q, tod);
  }

  lemma TimeFields(h: int, mi: int, s: int)
    requires 0 <= h < 24 && 0 <= mi < 60 && 0 <= s < 60
    ensures var tod := h * 3600 + mi * 60 + s;
      tod / 3600 == h && tod % 3600 / 60 == mi && tod % 60 == s
  {
    var tod := h * 3600 + mi * 60 + s;
    assert tod % 3600 == mi * 60 + s;
  }

  /** Two valid datetimes at the same time-line position are equal. */
  lemma SecondsInjective(a: DateTime, b: DateTime)
    requires Valid(a) && Valid(b) && Seconds(a) == Seconds(b)
    ensures a == b
  {
    FromSecondsOfSeconds(a);
    FromSecondsOfSeconds(b);
  }

  /** `t + timedelta(seconds=k)`: `None` when Python would raise OverflowError. */
  function AddSeconds(t: DateTime, k: int): (r: Option<DateTime>)
    requires Valid(t)
  {
    var n := Seconds(t) + k;
    if n < 0 then None
    else
      var u := FromSeconds(n);
      if u.year > MaxYear then None else Some(u)
  }

  /** Adding seconds moves exactly that far along the time line, and fails only outside years 1..9999. */
  lemma AddSecondsCorrect(t: DateTime, k: int)
    requires Valid(t)
    ensures AddSeconds(t, k).Some? ==> Valid(AddSeconds(t, k).value) && Seconds(AddSeconds(t, k).value) == Seconds(t) + k
    ensures AddSeconds(t, k).None? <==> Seconds(t) + k < 0 || Seconds(t) + k >= DaysBeforeYear(MaxYear + 1) * SecondsPerDay
  {
    var n := Seconds(t) + k;
    if n >= 0 {
      FromSecondsCorrect(n);
      var u := FromSeconds(n);
      OrdinalBounds(u.year, u.month, u.day);
      if u.year > MaxYear {
        DaysBeforeYearMonotone(MaxYear + 1, u.year);
      } else {
        DaysBeforeYearMonotone(u.year + 1, MaxYear + 1);
      }
    }
  }

  /** Moving to month index `k` months later, clamping the day (relativedelta(months=k)). */
  function AddMonths(t: DateTime, k: nat): (r: Option<DateTime>)
    requires Valid(t)
  {
    var idx := t.year * 12 + (t.month - 1) + k;
    var y := idx / 12;
    var m := idx % 12 + 1;
    if y > MaxYear then None
    else Some(DateTime(y, m, Min(t.day, DaysInMonth(y, m)), t.hour, t.minute, t.second))
  }

  /** Moving `k` years later, clamping February 29th (relativedelta(years=k)). */
  function AddYears(t: DateTime, k: nat): (r: Option<DateTime>)
    requires Valid(t)
  {
    var y := t.year + k;
    if y > MaxYear then None
    else Some(DateTime(y, t.month, Min(t.day, DaysInMonth(y, t.month)), t.hour, t.minute, t.second))
  }

  function Min(a: int, b: int): int
  {
    if a <= b then a else b
  }

  /** Month index (12 * year + month - 1): the count `relativedelta` arithmetic moves along. */
  function MonthIndex(t: DateTime): int
  {
    t.year * 12 + t.month - 1
  }

  /**
   * `t + relativedelta(months=k)` lands `k` calendar months later, keeps the
   * time of day and the day of month unless that month is too short, and
   * fails only past year 9999.
   */
  lemma AddMonthsCorrect(t: DateTime, k: nat)
    requires Valid(t)
    ensures AddMonths(t, k).None? <==> MonthIndex(t) + k >= (MaxYear + 1) * 12
    ensures AddMonths(t, k).Some? ==>
      var r := AddMonths(t, k).value;
      Valid(r) && MonthIndex(r) == MonthIndex(t) + k
      && r.day <= t.day && (r.day == t.day || r.day == DaysInMonth(r.year, r.month))
      && r.hour == t.hour && r.minute == t.minute && r.second == t.second
  {
  }

  /** `t + relativedelta(years=k)` keeps month, time of day and (unless February 29th moves to a common year) the day. */
  lemma AddYearsCorrect(t: DateTime, k: nat)
    requires Valid(t)
    ensures AddYears(t, k).None? <==> t.year + k > MaxYear
    ensures AddYears(t, k).Some? ==>
      var r := AddYears(t, k).value;
      Valid(r) && r.year == t.year + k && r.month == t.month
      && (r.day == t.day || (t.month == 2 && t.day == 29 && r.day == 28 && !IsLeapYear(r.year)))
      && r.hour == t.hour && r.minute == t.minute && r.second == t.second
  {
  }

  /** A later month index is later on the time line, whatever the day and time. */
  lemma MonthIndexOrder(a: DateTime, b: DateTime)
    requires Valid(a) && Valid(b)
    requires MonthIndex(a) < MonthIndex(b)
    ensures Seconds(a) < Seconds(b)
  {
    OrdinalBounds(a.year, a.month, a.day);
    OrdinalBounds(b.year, b.month, b.day);
    if a.year < b.year {
      DaysBeforeYearMonotone(a.year + 1, b.year);
    } else {
      MonthsApart(a.year, a.month + 1, b.month);
    }
    EarlierDay(a, b);
  }

  /** A datetime on an earlier day is earlier on the time line, whatever the times of day. */
  lemma EarlierDay(a: DateTime, b: DateTime)
    requires Valid(a) && Valid(b)
    requires Ordinal(a.year, a.month, a.day) < Ordinal(b.year, b.month, b.day)
    ensures Seconds(a) < Seconds(b)
  {
  }
}
