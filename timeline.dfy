/**
 * The reporting timeline anchored at the clock reading `now`
 * (`ForecastService.get_current_month_info`) and the timestamp comparisons
 * that select the historical window.
 */
module Timeline {
  import opened Calendar

  /** A `datetime.now()` reading: a date and the time of day in microseconds. */
  datatype DateTime = DateTime(date: Date, micros: int)

  const MicrosPerDay: int := 86_400_000_000

  /**
   * A clock reading the timeline arithmetic can handle: Python's `datetime`
   * holds years 1..9999, the history start lies 13 months back and the last
   * forecast month 5 months ahead, so the current month runs from February
   * of year 2 to July of year 9999; outside it the source raises.
   */
  predicate ValidNow(now: DateTime) {
    ValidDate(now.date) && 0 <= now.micros < MicrosPerDay
    && Index(Month(2, 2)) <= Index(MonthOf(now.date)) <= Index(Month(9999, 7))
  }

  /** A pandas timestamp that falls on day `day` of `month`, `micros` into the day. */
  datatype Instant = Instant(month: Month, day: int, micros: int)

  /** Timestamp order: by month, then day, then time of day. */
  predicate InstantLe(a: Instant, b: Instant) {
    Index(a.month) < Index(b.month)
    || (Index(a.month) == Index(b.month) && (a.day < b.day || (a.day == b.day && a.micros <= b.micros)))
  }

  /** The midnight timestamp of the first of the month, as a pivot-table index holds it. */
  function MonthStart(m: Month): Instant {
    Instant(m, 1, 0)
  }

  /**
   * The timeline. `current_month`, `previous_month` and `historical_start`
   * are first-of-month datetimes that keep `currentDate`'s time of day.
   */
  datatype TimelineInfo = TimelineInfo(
    currentDate: DateTime,
    currentMonth: Month,
    previousMonth: Month,
    historicalStart: Month,
    forecastMonths: seq<Month>,
    historicalPeriod: int,
    forecastPeriod: int)

  /** Reference definition of the timeline by month index arithmetic. */
  function TimelineOf(now: DateTime): TimelineInfo
    requires ValidNow(now)
  {
    var cur := MonthOf(now.date);
    TimelineInfo(now, cur, FromIndex(Index(cur) - 1), FromIndex(Index(cur) - 13),
                 MonthsFrom(cur, 6), 12, 6)
  }

  /** The `n` consecutive months starting at `start`. */
  function MonthsFrom(start: Month, n: nat): (ms: seq<Month>)
    ensures |ms| == n
  {
    seq(n, k => FromIndex(Index(start) + k))
  }

  lemma MonthsFromStep(start: Month, n: nat)
    ensures MonthsFrom(start, n + 1) == MonthsFrom(start, n) + [FromIndex(Index(start) + n)]
  {
  }

  /** The lower bound of the historical mask, `historical_start` with now's time of day. */
  function StartBound(info: TimelineInfo): Instant {
    Instant(info.historicalStart, 1, info.currentDate.micros)
  }

  /** Each month of `MonthsFrom(start, n)` is valid and `i` months after `start`. */
  lemma MonthsFromIndex(start: Month, n: nat)
    ensures forall i :: 0 <= i < n ==>
              ValidMonth(MonthsFrom(start, n)[i]) && Index(MonthsFrom(start, n)[i]) == Index(start) + i
  {
    forall i | 0 <= i < n
      ensures ValidMonth(MonthsFrom(start, n)[i]) && Index(MonthsFrom(start, n)[i]) == Index(start) + i
    {
      var m := FromIndex(Index(start) + i);
      assert MonthsFrom(start, n)[i] == m;
    }
  }

  /** The upper bound of the historical mask, `previous_month` with now's time of day. */
  function EndBound(info: TimelineInfo): Instant {
    Instant(info.previousMonth, 1, info.currentDate.micros)
  }

  /** `(index >= historical_start) & (index <= previous_month)` for a table month. */
  predicate InHistoricalWindow(info: TimelineInfo, m: Month) {
    InstantLe(StartBound(info), MonthStart(m)) && InstantLe(MonthStart(m), EndBound(info))
  }

  /**
   * `get_current_month_info` with the clock as a parameter: the previous
   * month by an explicit January rollover, the history start by subtracting
   * 365 days and resetting the day to 1, and the six forecast months by
   * month/year carry.
   */
  method GetCurrentMonthInfo(now: DateTime) returns (info: TimelineInfo)
    requires ValidNow(now)
    ensures info == TimelineOf(now)
    ensures info.currentMonth == Month(now.date.year, now.date.month)
    ensures info.previousMonth ==
              if now.date.month == 1 then Month(now.date.year - 1, 12)
              else Month(now.date.year, now.date.month - 1)
    ensures info.historicalStart == Month(info.previousMonth.year - 1, info.previousMonth.month)
    ensures |info.forecastMonths| == 6 && info.forecastMonths[0] == info.currentMonth
    ensures forall i :: 0 <= i < 6 ==> ValidMonth(info.forecastMonths[i])
    ensures forall i :: 0 <= i < 5 ==>
              Index(info.forecastMonths[i + 1]) == Index(info.forecastMonths[i]) + 1
  {
    var current := MonthOf(now.date);
    var previous: Month;
    if current.month == 1 {
      previous := Month(current.year - 1, 12);
    } else {
      previous := Month(current.year, current.month - 1);
    }

    var forecastMonths: seq<Month> := [];
    for i := 0 to 6
      invariant forecastMonths == MonthsFrom(current, i)
    {
      var totalMonths := current.month + i;
      var year := current.year + (totalMonths - 1) / 12;
      var month := (totalMonths - 1) % 12 + 1;
      MonthCarry(current, i);
      MonthsFromStep(current, i);
      forecastMonths := forecastMonths + [Month(year, month)];
    }
    var historicalStart := HistoricalStartOf(previous);
    info := TimelineInfo(now, current, previous, historicalStart, forecastMonths, 12, 6);
    IndexInjective(previous, FromIndex(Index(current) - 1));
    IndexInjective(historicalStart, FromIndex(Index(current) - 13));
    MonthsFromIndex(current, 6);
    IndexInjective(forecastMonths[0], current);
  }

  /** The history start one year before `previous`, by day arithmetic on the calendar. */
  method HistoricalStartOf(previous: Month) returns (start: Month)
    requires ValidMonth(previous) && previous.year >= 2
    ensures start == Month(previous.year - 1, previous.month)
  {
    start := YearBack(previous);
  }

  /** The month/year carry of the forecast loop is month index arithmetic. */
  lemma MonthCarry(c: Month, i: int)
    requires ValidMonth(c) && 0 <= i
    ensures var total := c.month + i;
            Month(c.year + (total - 1) / 12, (total - 1) % 12 + 1) == FromIndex(Index(c) + i)
  {
    var total := c.month + i;
    var m := Month(c.year + (total - 1) / 12, (total - 1) % 12 + 1);
    assert Index(m) == c.year * 12 + ((total - 1) / 12) * 12 + (total - 1) % 12;
    IndexInjective(m, FromIndex(Index(c) + i));
  }

  /**
   * `(previous_month - timedelta(days=365)).replace(day=1)`: the same month
   * one year earlier, whether or not the year in between has a 29 February.
   */
  function YearBack(previous: Month): (start: Month)
    requires ValidMonth(previous) && previous.year >= 2
    ensures start == Month(previous.year - 1, previous.month)
    ensures Index(start) == Index(previous) - 12
  {
    YearBeforeFirstOfMonth(previous.year, previous.month);
    MonthOf(MinusDays(FirstDay(previous), 365))
  }

  /**
   * The historical window holds the months after the history start up to the
   * previous month; the start month itself is admitted only when the clock
   * reads exactly midnight, because both bounds keep now's time of day.
   */
  lemma HistoricalWindow(now: DateTime, m: Month)
    requires ValidNow(now) && ValidMonth(m)
    ensures var info := TimelineOf(now);
            InHistoricalWindow(info, m) <==>
              (Index(info.historicalStart) < Index(m) <= Index(info.previousMonth)
               || (m == info.historicalStart && now.micros == 0))
  {
    var info := TimelineOf(now);
    if Index(m) == Index(info.historicalStart) {
      IndexInjective(m, info.historicalStart);
    }
  }

  /** The historical window ends before the first forecast month. */
  lemma WindowBeforeForecast(now: DateTime, m: Month)
    requires ValidNow(now) && ValidMonth(m)
    requires InHistoricalWindow(TimelineOf(now), m)
    ensures Index(m) < Index(TimelineOf(now).forecastMonths[0])
  {
    var cur := MonthOf(now.date);
    assert TimelineOf(now).forecastMonths[0] == FromIndex(Index(cur));
  }
}
