/**
 * The time-window planner of `InfluxQuery.data_query`: a chunk count per
 * split unit (the `'Difference'` of the unit table) and chunk `i` spanning
 * `start + i * step` to `start + (i + 1) * step` (the `'Timedelta'`).  Chunks
 * are anchored at `start`, not at calendar boundaries, and the last one is not
 * clipped to `end`: the hour and day counts round down, so the tail can be left
 * out, while the week count rounds up and the month and year counts compare
 * calendar fields only, so the last chunk can run past `end`.
 */
module Planner {
  import opened Wrappers
  import opened Calendar

  /** `time_split`: Python's `None` is `NoSplit`. */
  datatype SplitUnit = NoSplit | Hour | Day | Week | Month | Year

  /** Seconds from `s` to `e` (negative when `e` is earlier). */
  function Elapsed(s: DateTime, e: DateTime): int
    requires Valid(s) && Valid(e)
  {
    Seconds(e) - Seconds(s)
  }

  /** `(end - start).days`: whole days, rounded towards minus infinity. */
  function DeltaDays(s: DateTime, e: DateTime): int
    requires Valid(s) && Valid(e)
  {
    Elapsed(s, e) / SecondsPerDay
  }

  /** `(end - start).seconds`: the remaining seconds, always in `[0, 86400)`. */
  function DeltaSeconds(s: DateTime, e: DateTime): int
    requires Valid(s) && Valid(e)
  {
    Elapsed(s, e) % SecondsPerDay
  }

  /** `int(np.ceil(a / b))` for a positive `b`. */
  function CeilDiv(a: int, b: int): int
    requires b > 0
  {
    -((-a) / b)
  }

  /** `time_dict[time_split]['Difference']`: how many chunks the loop runs. */
  function Difference(unit: SplitUnit, s: DateTime, e: DateTime): int
    requires Valid(s) && Valid(e)
  {
    match unit
    case Hour => DeltaDays(s, e) * 24 + DeltaSeconds(s, e) / 3600
    case Day => DeltaDays(s, e)
    case Week => CeilDiv(DeltaDays(s, e), 7)
    case Month => (e.year - s.year) * 12 + (e.month - s.month)
    case Year => e.year - s.year
    case NoSplit => 1
  }

  /** Length in seconds of the fixed `'Timedelta'` steps. */
  function StepSeconds(unit: SplitUnit, s: DateTime, e: DateTime): int
    requires Valid(s) && Valid(e)
    requires unit !in {Month, Year}
  {
    match unit
    case Hour => 3600
    case Day => SecondsPerDay
    case Week => 7 * SecondsPerDay
    case NoSplit => DeltaDays(s, e) * SecondsPerDay + DeltaSeconds(s, e)
  }

  /** `start_date + time_dict[time_split]['Timedelta'] * k`; `None` where Python raises. */
  function Bound(unit: SplitUnit, s: DateTime, e: DateTime, k: nat): Option<DateTime>
    requires Valid(s) && Valid(e)
  {
    match unit
    case Month => AddMonths(s, k)
    case Year => AddYears(s, k)
    case _ => AddSeconds(s, StepSeconds(unit, s, e) * k)
  }

  /** `(start_t, end_t)` of loop pass `i`. */
  function Chunk(unit: SplitUnit, s: DateTime, e: DateTime, i: nat): Option<(DateTime, DateTime)>
    requires Valid(s) && Valid(e)
  {
    match Bound(unit, s, e, i)
    case None => None
    case Some(a) =>
      match Bound(unit, s, e, i + 1)
      case None => None
      case Some(b) => Some((a, b))
  }

  lemma HourDivision(a: int, q: int, r: int)
    requires a == q * 3600 + r && 0 <= r < 3600
    ensures a / 3600 == q
  {
  }

  /** The hour count is the number of whole hours elapsed. */
  lemma HourCount(s: DateTime, e: DateTime)
    requires Valid(s) && Valid(e)
    ensures Difference(Hour, s, e) == Elapsed(s, e) / 3600
  {
    var t, d, r := Elapsed(s, e), DeltaDays(s, e), DeltaSeconds(s, e);
    DaysSplit(t);
    assert t == d * 86400 + r;
    assert r == r / 3600 * 3600 + r % 3600;
    assert t == (d * 24 + r / 3600) * 3600 + r % 3600;
    HourDivision(t, d * 24 + r / 3600, r % 3600);
  }

  /** The week count is the number of started weeks among the whole days elapsed. */
  lemma WeekCount(s: DateTime, e: DateTime)
    requires Valid(s) && Valid(e)
    ensures var n := Difference(Week, s, e);
      7 * (n - 1) < DeltaDays(s, e) <= 7 * n
  {
    CeilDivBounds(DeltaDays(s, e), 7);
  }

  lemma CeilDivBounds(a: int, b: int)
    requires b > 0
    ensures b * (CeilDiv(a, b) - 1) < a <= b * CeilDiv(a, b)
  {
    var q := (-a) / b;
    assert -a == q * b + (-a) % b;
  }

  /** A fixed-step bound lies exactly `k` steps after `start` on the time line. */
  lemma FixedBound(unit: SplitUnit, s: DateTime, e: DateTime, k: nat)
    requires Valid(s) && Valid(e) && unit !in {Month, Year}
    requires Bound(unit, s, e, k).Some?
    ensures Valid(Bound(unit, s, e, k).value)
    ensures Seconds(Bound(unit, s, e, k).value) == Seconds(s) + k * StepSeconds(unit, s, e)
  {
    AddSecondsCorrect(s, StepSeconds(unit, s, e) * k);
  }

  /** Every bound the loop computes is a valid datetime. */
  lemma BoundValid(unit: SplitUnit, s: DateTime, e: DateTime, k: nat)
    requires Valid(s) && Valid(e)
    requires Bound(unit, s, e, k).Some?
    ensures Valid(Bound(unit, s, e, k).value)
  {
    match unit
    case Month => AddMonthsCorrect(s, k);
    case Year => AddYearsCorrect(s, k);
    case _ => FixedBound(unit, s, e, k);
  }

  /**
   * Consecutive chunks meet: the end of chunk `i` is the start of chunk
   * `i + 1`; and, for every split unit, chunk starts strictly increase.
   */
  lemma ChunksContiguous(unit: SplitUnit, s: DateTime, e: DateTime, i: nat)
    requires Valid(s) && Valid(e) && unit != NoSplit
    requires Chunk(unit, s, e, i).Some? && Chunk(unit, s, e, i + 1).Some?
    ensures Chunk(unit, s, e, i).value.1 == Chunk(unit, s, e, i + 1).value.0
    ensures Valid(Chunk(unit, s, e, i).value.0) && Valid(Chunk(unit, s, e, i).value.1)
    ensures Seconds(Chunk(unit, s, e, i).value.0) < Seconds(Chunk(unit, s, e, i + 1).value.0)
    ensures Seconds(Chunk(unit, s, e, i).value.0) < Seconds(Chunk(unit, s, e, i).value.1)
  {
    var a, b, c := Bound(unit, s, e, i), Bound(unit, s, e, i + 1), Bound(unit, s, e, i + 2);
    assert Chunk(unit, s, e, i) == Some((a.value, b.value));
    assert Chunk(unit, s, e, i + 1) == Some((b.value, c.value));
    BoundsIncrease(unit, s, e, i);
  }

  lemma BoundsIncrease(unit: SplitUnit, s: DateTime, e: DateTime, k: nat)
    requires Valid(s) && Valid(e) && unit != NoSplit
    requires Bound(unit, s, e, k).Some? && Bound(unit, s, e, k + 1).Some?
    ensures Valid(Bound(unit, s, e, k).value) && Valid(Bound(unit, s, e, k + 1).value)
    ensures Seconds(Bound(unit, s, e, k).value) < Seconds(Bound(unit, s, e, k + 1).value)
  {
    if unit == Month {
      AddMonthsCorrect(s, k);
      AddMonthsCorrect(s, k + 1);
      MonthIndexOrder(AddMonths(s, k).value, AddMonths(s, k + 1).value);
    } else if unit == Year {
      AddYearsCorrect(s, k);
      AddYearsCorrect(s, k + 1);
      MonthIndexOrder(AddYears(s, k).value, AddYears(s, k + 1).value);
    } else {
      FixedBoundsIncrease(unit, s, e, k);
    }
  }

  lemma FixedBoundsIncrease(unit: SplitUnit, s: DateTime, e: DateTime, k: nat)
    requires Valid(s) && Valid(e) && unit in {Hour, Day, Week}
    requires Bound(unit, s, e, k).Some? && Bound(unit, s, e, k + 1).Some?
    ensures Valid(Bound(unit, s, e, k).value) && Valid(Bound(unit, s, e, k + 1).value)
    ensures Seconds(Bound(unit, s, e, k).value) < Seconds(Bound(unit, s, e, k + 1).value)
  {
    var step := StepSeconds(unit, s, e);
    FixedBound(unit, s, e, k);
    FixedBound(unit, s, e, k + 1);
    assert (k + 1) * step == k * step + step;
  }

  /** Without a split there is one chunk, and it is exactly `[start, end]`. */
  lemma NoSplitIsWholeRange(s: DateTime, e: DateTime)
    requires Valid(s) && Valid(e)
    ensures Difference(NoSplit, s, e) == 1
    ensures Chunk(NoSplit, s, e, 0) == Some((s, e))
  {
    var t := Elapsed(s, e);
    DaysSplit(t);
    assert StepSeconds(NoSplit, s, e) == t;
    AddSecondsTo(s, s);
    AddSecondsTo(s, e);
  }

  /** Adding the seconds between two datetimes to the first lands on the second. */
  lemma AddSecondsTo(s: DateTime, e: DateTime)
    requires Valid(s) && Valid(e)
    ensures AddSeconds(s, Seconds(e) - Seconds(s)) == Some(e)
  {
    FromSecondsOfSeconds(e);
  }

  /**
   * Hour and day chunks never pass `end`: the last one ends within one step
   * before it, so up to one step's worth of the tail is not queried.
   */
  lemma FixedUnitsUnderCover(unit: SplitUnit, s: DateTime, e: DateTime)
    requires Valid(s) && Valid(e) && unit in {Hour, Day}
    requires Difference(unit, s, e) >= 0
    ensures var lastEnd := Seconds(s) + Difference(unit, s, e) * StepSeconds(unit, s, e);
      lastEnd <= Seconds(e) < lastEnd + StepSeconds(unit, s, e)
  {
    if unit == Hour {
      HourCount(s, e);
    }
    DaysSplit(Elapsed(s, e));
    var t, step := Elapsed(s, e), StepSeconds(unit, s, e);
    assert t == t / step * step + t % step;
  }

  /**
   * Week chunks cover every whole day elapsed and end less than a week after
   * it: they can run past `end`, or stop short of it by part of a day.
   */
  lemma WeekCover(s: DateTime, e: DateTime)
    requires Valid(s) && Valid(e)
    ensures var lastEnd := Seconds(s) + Difference(Week, s, e) * StepSeconds(Week, s, e);
      var wholeDays := Seconds(s) + DeltaDays(s, e) * SecondsPerDay;
      wholeDays <= lastEnd < wholeDays + 7 * SecondsPerDay
  {
    WeekCount(s, e);
    assert StepSeconds(Week, s, e) == 7 * SecondsPerDay;
  }

  /**
   * The last month bound falls in `end`'s calendar month, at `start`'s day
   * (clamped) and time of day: it is after `end` whenever that day and time
   * are later in the month than `end`'s.
   */
  lemma MonthLastBound(s: DateTime, e: DateTime)
    requires Valid(s) && Valid(e)
    requires Difference(Month, s, e) >= 0
    ensures Bound(Month, s, e, Difference(Month, s, e)).Some?
    ensures var b := Bound(Month, s, e, Difference(Month, s, e)).value;
      b.year == e.year && b.month == e.month
      && b.day == Min(s.day, DaysInMonth(e.year, e.month))
      && b.hour == s.hour && b.minute == s.minute && b.second == s.second
  {
    var n := Difference(Month, s, e);
    AddMonthsCorrect(s, n);
    assert MonthIndex(s) + n == MonthIndex(e);
  }

  /** The last year bound falls in `end`'s year, in `start`'s month. */
  lemma YearLastBound(s: DateTime, e: DateTime)
    requires Valid(s) && Valid(e)
    requires Difference(Year, s, e) >= 0
    ensures Bound(Year, s, e, Difference(Year, s, e)).Some?
    ensures var b := Bound(Year, s, e, Difference(Year, s, e)).value;
      b.year == e.year && b.month == s.month
  {
    AddYearsCorrect(s, Difference(Year, s, e));
  }

  // --------------------------------------------------------------- examples

  /**
   * 2023-01-15 to 2023-04-03 split by month: three chunks anchored on the
   * 15th, the last ending on 2023-04-15, after `end` (not four chunks aligned
   * to the first of each month).
   */
  lemma MonthExample()
    ensures var s, e := DateTime(2023, 1, 15, 0, 0, 0), DateTime(2023, 4, 3, 0, 0, 0);
      Difference(Month, s, e) == 3
      && Chunk(Month, s, e, 0) == Some((s, DateTime(2023, 2, 15, 0, 0, 0)))
      && Chunk(Month, s, e, 1) == Some((DateTime(2023, 2, 15, 0, 0, 0), DateTime(2023, 3, 15, 0, 0, 0)))
      && Chunk(Month, s, e, 2) == Some((DateTime(2023, 3, 15, 0, 0, 0), DateTime(2023, 4, 15, 0, 0, 0)))
      && Seconds(e) < Seconds(DateTime(2023, 4, 15, 0, 0, 0))
  {
    var s, e := DateTime(2023, 1, 15, 0, 0, 0), DateTime(2023, 4, 3, 0, 0, 0);
    assert AddMonths(s, 0) == Some(s);
    assert AddMonths(s, 1) == Some(DateTime(2023, 2, 15, 0, 0, 0));
    assert AddMonths(s, 2) == Some(DateTime(2023, 3, 15, 0, 0, 0));
    assert AddMonths(s, 3) == Some(DateTime(2023, 4, 15, 0, 0, 0));
    EarlierInMonth(e, DateTime(2023, 4, 15, 0, 0, 0));
  }

  /** A month split from January 31st clamps each bound separately: February 28th, then March 31st. */
  lemma MonthClampExample()
    ensures var s, e := DateTime(2023, 1, 31, 0, 0, 0), DateTime(2023, 3, 31, 0, 0, 0);
      Difference(Month, s, e) == 2
      && Chunk(Month, s, e, 0) == Some((s, DateTime(2023, 2, 28, 0, 0, 0)))
      && Chunk(Month, s, e, 1) == Some((DateTime(2023, 2, 28, 0, 0, 0), e))
  {
    var s := DateTime(2023, 1, 31, 0, 0, 0);
    assert AddMonths(s, 0) == Some(s);
    assert AddMonths(s, 1) == Some(DateTime(2023, 2, 28, 0, 0, 0));
    assert AddMonths(s, 2) == Some(DateTime(2023, 3, 31, 0, 0, 0));
  }

  /** Thirty days inside one calendar month give a month count of zero: no chunk at all. */
  lemma MonthZeroExample()
    ensures Difference(Month, DateTime(2023, 1, 1, 0, 0, 0), DateTime(2023, 1, 31, 0, 0, 0)) == 0
  {
  }

  /** 90 minutes split by hour: one chunk of 60 minutes, the last half hour is not queried. */
  lemma HourExample()
    ensures var s, e := DateTime(2023, 1, 1, 0, 0, 0), DateTime(2023, 1, 1, 1, 30, 0);
      Difference(Hour, s, e) == 1
      && Chunk(Hour, s, e, 0) == Some((s, DateTime(2023, 1, 1, 1, 0, 0)))
  {
    var s, e := DateTime(2023, 1, 1, 0, 0, 0), DateTime(2023, 1, 1, 1, 30, 0);
    HourCount(s, e);
    ShiftExample(s, 0, s);
    ShiftExample(s, 3600, DateTime(2023, 1, 1, 1, 0, 0));
  }

  /** One day split by week: one chunk of seven days, running six days past `end`. */
  lemma WeekExample()
    ensures var s, e := DateTime(2023, 1, 2, 0, 0, 0), DateTime(2023, 1, 3, 0, 0, 0);
      Difference(Week, s, e) == 1
      && Chunk(Week, s, e, 0) == Some((s, DateTime(2023, 1, 9, 0, 0, 0)))
  {
    var s := DateTime(2023, 1, 2, 0, 0, 0);
    ShiftExample(s, 0, s);
    ShiftExample(s, 7 * SecondsPerDay, DateTime(2023, 1, 9, 0, 0, 0));
  }

  lemma EarlierInMonth(a: DateTime, b: DateTime)
    requires Valid(a) && Valid(b)
    requires a.year == b.year && a.month == b.month && a.day < b.day
    ensures Seconds(a) < Seconds(b)
  {
  }

  lemma ShiftExample(s: DateTime, k: int, r: DateTime)
    requires Valid(s) && Valid(r) && s.year == 2023 && r.year == 2023
    requires Seconds(r) == Seconds(s) + k
    ensures AddSeconds(s, k) == Some(r)
  {
    AddSecondsCorrect(s, k);
    OrdinalBounds(r.year, r.month, r.day);
    DaysBeforeYearMonotone(r.year + 1, MaxYear + 1);
    SecondsInjective(AddSeconds(s, k).value, r);
  }
}
