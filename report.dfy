/**
 * The dashboard payload (`ForecastService.generate_react_forecast_data` and
 * its state twin): the historical table rows inside the reporting window,
 * one row per forecast month holding each entity's prediction, sorted by
 * month, with the KPIs and the timeline metadata.
 */
module Report {
  import opened Wrappers
  import opened Calendar
  import opened Timeline
  import opened Collections
  import opened Series
  import opened Aggregation
  import opened Ranking
  import opened Kpis

  /** Python's `int()` on a float: truncation toward zero. */
  function Trunc(x: real): (n: int)
    ensures x >= 0.0 ==> n as real <= x < n as real + 1.0
    ensures x < 0.0 ==> n as real - 1.0 < x <= n as real
  {
    if x >= 0.0 then x.Floor else -((-x).Floor)
  }

  /** `max(0, n)`. */
  function NonNegative(n: int): int {
    if n > 0 then n else 0
  }

  /**
   * `max(0, int(yhat))` of the first forecast row dated in month `m`, or 0
   * when no row is.
   */
  function PredFor(rows: seq<ForecastRow>, m: Month): (p: int)
    ensures p >= 0
  {
    if |rows| == 0 then 0
    else if MonthOf(rows[0].ds) == m then NonNegative(Trunc(rows[0].yhat))
    else PredFor(rows[1..], m)
  }

  /** The prediction for `m` comes from the first row dated in `m`. */
  lemma {:induction false} PredForFirstMatch(rows: seq<ForecastRow>, m: Month, k: nat)
    requires k < |rows| && MonthOf(rows[k].ds) == m
    requires forall i :: 0 <= i < k ==> MonthOf(rows[i].ds) != m
    ensures PredFor(rows, m) == NonNegative(Trunc(rows[k].yhat))
  {
    if k > 0 {
      PredForFirstMatch(rows[1..], m, k - 1);
    }
  }

  /** Without a row dated in `m` the prediction is 0. */
  lemma {:induction false} PredForNoMatch(rows: seq<ForecastRow>, m: Month)
    requires forall i :: 0 <= i < |rows| ==> MonthOf(rows[i].ds) != m
    ensures PredFor(rows, m) == 0
  {
    if |rows| > 0 {
      PredForNoMatch(rows[1..], m);
    }
  }

  /** `forecasts[name]`: the forecast stored under `name`. */
  function Lookup(fs: seq<(string, EntityForecast)>, name: string): (r: Option<EntityForecast>)
    ensures r.Some? <==> name in Keys(fs)
  {
    if |fs| == 0 then None
    else if fs[0].0 == name then Some(fs[0].1)
    else
      assert Keys(fs) == [fs[0].0] + Keys(fs[1..]);
      Lookup(fs[1..], name)
  }

  /** `int(historical_data.loc[date, name])`, or 0 for a name that is not a column. */
  function CellValue(t: Table, i: nat, name: string): int
    requires Shaped(t) && i < |t.months|
  {
    if name in t.entities then Trunc(t.cells[i][IndexOf(t.entities, name)]) else 0
  }

  /** The entity values of the historical row for table row `i`. */
  function HistoricalValues(t: Table, i: nat, names: seq<string>): (vs: map<string, int>)
    requires Shaped(t) && i < |t.months|
  {
    map n | n in names :: CellValue(t, i, n)
  }

  /** The entity predictions of the forecast row for month `m`. */
  function ForecastPreds(fs: seq<(string, EntityForecast)>, m: Month, names: seq<string>): map<string, int> {
    map n | n in names :: match Lookup(fs, n) case Some(f) => PredFor(f.forecast, m) case None => 0
  }

  /**
   * The positions among the first `n` table rows that the historical mask
   * keeps: exactly those in the window, in increasing order.
   */
  function WindowIndices(t: Table, info: TimelineInfo, n: nat): (idx: seq<nat>)
    requires n <= |t.months|
    ensures forall k :: 0 <= k < |idx| ==> idx[k] < n && InHistoricalWindow(info, t.months[idx[k]])
    ensures forall a, b :: 0 <= a < b < |idx| ==> idx[a] < idx[b]
    ensures forall i: nat :: i < n ==> (i in idx <==> InHistoricalWindow(info, t.months[i]))
    ensures |idx| <= n
  {
    if n == 0 then []
    else
      var prev := WindowIndices(t, info, n - 1);
      if InHistoricalWindow(info, t.months[n - 1]) then prev + [n - 1] else prev
  }

  /** The historical rows built from the first `n` table rows. */
  function HistoricalRows(t: Table, info: TimelineInfo, names: seq<string>, n: nat): (rows: seq<ReportRow>)
    requires Shaped(t) && n <= |t.months|
    ensures |rows| == |WindowIndices(t, info, n)|
  {
    var idx := WindowIndices(t, info, n);
    seq(|idx|, k requires 0 <= k < |idx| => HistoricalRow(t.months[idx[k]], HistoricalValues(t, idx[k], names)))
  }

  /** One row per forecast month; the first is flagged as the current month. */
  function ForecastRows(fs: seq<(string, EntityForecast)>, info: TimelineInfo, names: seq<string>): (rows: seq<ReportRow>)
    ensures |rows| == |info.forecastMonths|
  {
    var fm := info.forecastMonths;
    seq(|fm|, i requires 0 <= i < |fm| => ForecastMonthRow(fm[i], i == 0, ForecastPreds(fs, fm[i], names)))
  }

  /** `key=lambda x: datetime.strptime(x['month'], '%b %Y')`: rows in month order. */
  function RowOrder(): (le: (ReportRow, ReportRow) -> bool)
    ensures TotalPreorder(le)
    ensures forall a, b :: le(a, b) == (Index(a.month) <= Index(b.month))
  {
    (a: ReportRow, b: ReportRow) => Index(a.month) <= Index(b.month)
  }

  /**
   * The returned dict. `NoForecasts` is the empty payload with its error
   * message. Otherwise `entities` is `companies` or `states` (their count is
   * `totalCompanies` / `totalStates`), `timeline` holds the dates the
   * metadata formats, and `generatedAt` is the second clock reading.
   */
  datatype ReactReport =
    | NoForecasts(key: GroupKey)
    | ReactReport(key: GroupKey, forecastData: seq<ReportRow>, kpis: KpiSet, entities: seq<string>,
                  timeline: TimelineInfo, historicalMonths: nat, forecastMonths: nat, generatedAt: DateTime)

  /** The `error` text of an empty payload. */
  function ErrorMessage(key: GroupKey): string {
    match key
    case ByCompany => "No forecasts generated"
    case ByState => "No state forecasts generated"
  }

  /** The payload as a function of the forecasts, the table and the clock. */
  function ReportOf(fs: seq<(string, EntityForecast)>, t: Table, now: DateTime, generatedAt: DateTime,
                    key: GroupKey): ReactReport
    requires ValidNow(now) && Shaped(t)
  {
    if |fs| == 0 then NoForecasts(key)
    else
      var info := TimelineOf(now);
      var names := Keys(fs);
      var hist := HistoricalRows(t, info, names, |t.months|);
      var rows := SortBy(hist + ForecastRows(fs, info, names), RowOrder());
      ReactReport(key, rows, KpisOf(rows, names), names, info, |hist|, |info.forecastMonths|, generatedAt)
  }

  /** The inner loop filling one historical row. */
  method BuildHistoricalRow(t: Table, i: nat, names: seq<string>) returns (row: ReportRow)
    requires Shaped(t) && i < |t.months|
    ensures row == HistoricalRow(t.months[i], HistoricalValues(t, i, names))
  {
    var values: map<string, int> := map[];
    for k := 0 to |names|
      invariant values == HistoricalValues(t, i, names[..k])
    {
      var name := names[k];
      if name in t.entities {
        values := values[name := Trunc(t.cells[i][IndexOf(t.entities, name)])];
      } else {
        values := values[name := 0];
      }
      assert forall n :: n in names[..k + 1] <==> n in names[..k] || n == name;
    }
    assert names[..|names|] == names;
    row := HistoricalRow(t.months[i], values);
  }

  /** The inner loop filling one forecast row. */
  method BuildForecastRow(fs: seq<(string, EntityForecast)>, m: Month, first: bool, names: seq<string>)
    returns (row: ReportRow)
    ensures row == ForecastMonthRow(m, first, ForecastPreds(fs, m, names))
  {
    var preds: map<string, int> := map[];
    for k := 0 to |names|
      invariant preds == ForecastPreds(fs, m, names[..k])
    {
      var name := names[k];
      var found := Lookup(fs, name);
      if found.Some? {
        preds := preds[name := PredFor(found.value.forecast, m)];
      } else {
        preds := preds[name := 0];
      }
      assert forall n :: n in names[..k + 1] <==> n in names[..k] || n == name;
    }
    assert names[..|names|] == names;
    row := ForecastMonthRow(m, first, preds);
  }

  /**
   * `generate_react_forecast_data` / `generate_state_react_forecast_data`
   * with both clock readings as parameters.
   */
  method GenerateReactForecastData(fs: seq<(string, EntityForecast)>, t: Table, now: DateTime,
                                   generatedAt: DateTime, key: GroupKey) returns (r: ReactReport)
    requires ValidNow(now) && Shaped(t)
    ensures r == ReportOf(fs, t, now, generatedAt, key)
  {
    if |fs| == 0 {
      return NoForecasts(key);
    }
    var info := GetCurrentMonthInfo(now);
    var names := Keys(fs);

    var reactData: seq<ReportRow> := [];
    for i := 0 to |t.months|
      invariant reactData == HistoricalRows(t, info, names, i)
    {
      if InHistoricalWindow(info, t.months[i]) {
        var row := BuildHistoricalRow(t, i, names);
        reactData := reactData + [row];
      }
    }
    var hist := reactData;

    for i := 0 to |info.forecastMonths|
      invariant reactData == hist + ForecastRows(fs, info, names)[..i]
    {
      var row := BuildForecastRow(fs, info.forecastMonths[i], i == 0, names);
      reactData := reactData + [row];
    }
    assert ForecastRows(fs, info, names)[..|info.forecastMonths|] == ForecastRows(fs, info, names);

    reactData := SortBy(reactData, RowOrder());
    var kpis := CalculateKpis(reactData, names);
    r := ReactReport(key, reactData, kpis, names, info, |hist|, |info.forecastMonths|, generatedAt);
  }

  /** The historical rows are in strictly increasing month order, all inside the window. */
  lemma HistoricalRowsOrdered(t: Table, info: TimelineInfo, names: seq<string>)
    requires WellFormed(t)
    ensures var hist := HistoricalRows(t, info, names, |t.months|);
            (forall k :: 0 <= k < |hist| ==>
               hist[k].HistoricalRow? && ValidMonth(hist[k].month) && InHistoricalWindow(info, hist[k].month))
            && (forall a, b :: 0 <= a < b < |hist| ==> Index(hist[a].month) < Index(hist[b].month))
  {
    var idx := WindowIndices(t, info, |t.months|);
    var hist := HistoricalRows(t, info, names, |t.months|);
    forall a, b | 0 <= a < b < |hist| ensures Index(hist[a].month) < Index(hist[b].month) {
      assert hist[a].month == t.months[idx[a]] && hist[b].month == t.months[idx[b]];
    }
  }

  /** The forecast rows follow the forecast months, one month apart. */
  lemma ForecastRowsOrdered(fs: seq<(string, EntityForecast)>, now: DateTime, names: seq<string>)
    requires ValidNow(now)
    ensures var info := TimelineOf(now);
            var rows := ForecastRows(fs, info, names);
            |rows| == 6
            && (forall i :: 0 <= i < 6 ==>
                  (rows[i].ForecastMonthRow? && Index(rows[i].month) == Index(info.currentMonth) + i
                   && ValidMonth(rows[i].month)))
  {
    var info := TimelineOf(now);
    MonthsFromIndex(info.currentMonth, 6);
  }

  /** The rows as built, before the sort: the historical block, then the forecast block. */
  function PayloadRows(fs: seq<(string, EntityForecast)>, t: Table, info: TimelineInfo): (rows: seq<ReportRow>)
    requires Shaped(t)
    ensures |rows| == |HistoricalRows(t, info, Keys(fs), |t.months|)| + |info.forecastMonths|
  {
    HistoricalRows(t, info, Keys(fs), |t.months|) + ForecastRows(fs, info, Keys(fs))
  }

  /** The built rows are strictly increasing by month. */
  lemma PayloadOrdered(fs: seq<(string, EntityForecast)>, t: Table, now: DateTime)
    requires ValidNow(now) && WellFormed(t)
    ensures var rows := PayloadRows(fs, t, TimelineOf(now));
            forall a, b :: 0 <= a < b < |rows| ==> Index(rows[a].month) < Index(rows[b].month)
  {
    var info := TimelineOf(now);
    var names := Keys(fs);
    var hist := HistoricalRows(t, info, names, |t.months|);
    var fore := ForecastRows(fs, info, names);
    var rows := hist + fore;
    HistoricalRowsOrdered(t, info, names);
    ForecastRowsOrdered(fs, now, names);
    forall a, b | 0 <= a < b < |rows| ensures Index(rows[a].month) < Index(rows[b].month) {
      if b < |hist| {
        assert rows[a] == hist[a] && rows[b] == hist[b];
      } else if a >= |hist| {
        assert rows[a] == fore[a - |hist|] && rows[b] == fore[b - |hist|];
      } else {
        assert rows[a] == hist[a] && rows[b] == fore[b - |hist|];
        WindowBeforeForecast(now, hist[a].month);
      }
    }
  }

  /**
   * The payload's rows are the rows as built, the historical rows of the
   * window then the six forecast months: being in month order already
   * (`PayloadOrdered`), the final sort leaves them in place. The KPIs are
   * those of these rows.
   */
  lemma ReportLayout(fs: seq<(string, EntityForecast)>, t: Table, now: DateTime, generatedAt: DateTime, key: GroupKey)
    requires ValidNow(now) && WellFormed(t) && |fs| > 0
    ensures var r := ReportOf(fs, t, now, generatedAt, key);
            var info := TimelineOf(now);
            r.ReactReport?
            && r.forecastData == PayloadRows(fs, t, info)
            && r.historicalMonths == |HistoricalRows(t, info, Keys(fs), |t.months|)|
            && |r.forecastData| == r.historicalMonths + 6 && r.forecastMonths == 6
            && r.kpis == KpisOf(PayloadRows(fs, t, info), Keys(fs))
            && r.entities == Keys(fs)
  {
    var info := TimelineOf(now);
    var rows := PayloadRows(fs, t, info);
    PayloadOrdered(fs, t, now);
    assert SortedBy(rows, RowOrder());
    SortSortedFixpoint(rows, RowOrder());
    assert ReportOf(fs, t, now, generatedAt, key)
        == ReactReport(key, rows, KpisOf(rows, Keys(fs)), Keys(fs), info,
                       |HistoricalRows(t, info, Keys(fs), |t.months|)|, |info.forecastMonths|, generatedAt);
  }

  /** Each entity's prediction is the non-negative truncated `yhat` of its forecast for that month. */
  lemma ForecastPredsMeaning(fs: seq<(string, EntityForecast)>, m: Month)
    ensures var preds := ForecastPreds(fs, m, Keys(fs));
            forall n :: (n in preds <==> n in Keys(fs))
                        && (n in preds ==> preds[n] == PredFor(Lookup(fs, n).value.forecast, m) && preds[n] >= 0)
  {
  }

  /**
   * Exactly the table months inside the window yield a historical row,
   * carrying the truncated table values, and the rows before the forecast
   * block are all historical rows of window months.
   */
  lemma PayloadHistoricalRows(fs: seq<(string, EntityForecast)>, t: Table, info: TimelineInfo)
    requires WellFormed(t)
    ensures var rows := PayloadRows(fs, t, info);
            var h := |HistoricalRows(t, info, Keys(fs), |t.months|)|;
            (forall i :: 0 <= i < |t.months| ==>
               (HistoricalRow(t.months[i], HistoricalValues(t, i, Keys(fs))) in rows
                <==> InHistoricalWindow(info, t.months[i])))
            && (forall k :: 0 <= k < h ==> rows[k].HistoricalRow? && InHistoricalWindow(info, rows[k].month))
            && (forall k :: h <= k < |rows| ==> rows[k].ForecastMonthRow?)
  {
    var names := Keys(fs);
    var hist := HistoricalRows(t, info, names, |t.months|);
    var fore := ForecastRows(fs, info, names);
    var idx := WindowIndices(t, info, |t.months|);
    HistoricalRowsOrdered(t, info, names);
    var rows := hist + fore;
    forall i | 0 <= i < |t.months|
      ensures HistoricalRow(t.months[i], HistoricalValues(t, i, names)) in rows <==> InHistoricalWindow(info, t.months[i])
    {
      var row := HistoricalRow(t.months[i], HistoricalValues(t, i, names));
      if InHistoricalWindow(info, t.months[i]) {
        var k :| 0 <= k < |idx| && idx[k] == i;
        assert rows[k] == hist[k] == row;
      }
    }
    assert forall k :: 0 <= k < |hist| ==> rows[k] == hist[k];
    assert forall k :: |hist| <= k < |rows| ==> rows[k] == fore[k - |hist|];
  }

  /**
   * The forecast block holds one row per forecast month with each entity's
   * prediction, flagged as the current month exactly when it is the current
   * month.
   */
  lemma PayloadForecastRows(fs: seq<(string, EntityForecast)>, t: Table, now: DateTime)
    requires ValidNow(now) && Shaped(t)
    ensures var info := TimelineOf(now);
            var rows := PayloadRows(fs, t, info);
            var h := |HistoricalRows(t, info, Keys(fs), |t.months|)|;
            |rows| == h + 6
            && (forall i :: 0 <= i < 6 ==>
                  rows[h + i]
                  == ForecastMonthRow(info.forecastMonths[i], i == 0, ForecastPreds(fs, info.forecastMonths[i], Keys(fs))))
            && (forall k :: h <= k < |rows| ==> (rows[k].isCurrentMonth <==> rows[k].month == info.currentMonth))
  {
    var info := TimelineOf(now);
    var names := Keys(fs);
    var hist := HistoricalRows(t, info, names, |t.months|);
    var fore := ForecastRows(fs, info, names);
    ForecastRowsOrdered(fs, now, names);
    var rows := hist + fore;
    assert forall i :: 0 <= i < 6 ==> rows[|hist| + i] == fore[i];
    forall k | |hist| <= k < |rows| ensures rows[k].isCurrentMonth <==> rows[k].month == info.currentMonth {
      assert rows[k] == fore[k - |hist|];
      if rows[k].month == info.currentMonth {
        assert Index(rows[k].month) == Index(info.currentMonth);
      }
    }
  }

  /** Every prediction in the payload is non-negative. */
  lemma PayloadPredsNonNegative(fs: seq<(string, EntityForecast)>, t: Table, info: TimelineInfo)
    requires Shaped(t)
    ensures forall row, n :: row in PayloadRows(fs, t, info) && n in PredsOf(row) ==> PredsOf(row)[n] >= 0
  {
    var names := Keys(fs);
    var hist := HistoricalRows(t, info, names, |t.months|);
    var fore := ForecastRows(fs, info, names);
    var rows := hist + fore;
    forall row, n | row in rows && n in PredsOf(row) ensures PredsOf(row)[n] >= 0 {
      var k :| 0 <= k < |rows| && rows[k] == row;
      if k >= |hist| {
        assert rows[k] == fore[k - |hist|];
        ForecastPredsMeaning(fs, rows[k].month);
      }
    }
  }

  /**
   * The KPIs of the built rows: the previous-month total is the sum over the
   * last historical row and the current and next totals sum the first two
   * forecast months.
   */
  lemma PayloadKpiSums(fs: seq<(string, EntityForecast)>, t: Table, now: DateTime)
    requires ValidNow(now) && WellFormed(t)
    ensures var info := TimelineOf(now);
            var names := Keys(fs);
            var rows := PayloadRows(fs, t, info);
            var h := |HistoricalRows(t, info, names, |t.months|)|;
            var k := KpisOf(rows, names);
            k.previousMonthTotal == (if h > 0 then SumOver(rows[h - 1].values, names) else 0)
            && k.currentMonthPredicted == SumOver(ForecastPreds(fs, info.forecastMonths[0], names), names)
            && k.nextMonthPredicted == SumOver(ForecastPreds(fs, info.forecastMonths[1], names), names)
            && k.totalEntities == |fs|
  {
    var info := TimelineOf(now);
    var names := Keys(fs);
    var hist := HistoricalRows(t, info, names, |t.months|);
    var fore := ForecastRows(fs, info, names);
    HistoricalRowsOrdered(t, info, names);
    ForecastRowsOrdered(fs, now, names);
    FilterBlocks(hist, fore);
    var rows := hist + fore;
    assert rows == PayloadRows(fs, t, info);
    if |hist| > 0 {
      assert rows[|hist| - 1] == hist[|hist| - 1];
    }
  }

  /**
   * With its non-negative predictions, the payload's six-month total covers
   * the current and next month's totals, and the average is the rounded
   * six-month mean.
   */
  lemma PayloadKpiBounds(fs: seq<(string, EntityForecast)>, t: Table, now: DateTime)
    requires ValidNow(now) && WellFormed(t)
    ensures var info := TimelineOf(now);
            var k := KpisOf(PayloadRows(fs, t, info), Keys(fs));
            k.currentMonthPredicted >= 0 && k.nextMonthPredicted >= 0
            && k.total6MonthForecast >= k.currentMonthPredicted + k.nextMonthPredicted
            && k.avgMonthlyForecast == Average(k.total6MonthForecast, 6)
  {
    var info := TimelineOf(now);
    var names := Keys(fs);
    var hist := HistoricalRows(t, info, names, |t.months|);
    var fore := ForecastRows(fs, info, names);
    HistoricalRowsOrdered(t, info, names);
    ForecastRowsOrdered(fs, now, names);
    PayloadPredsNonNegative(fs, t, info);
    FilterBlocks(hist, fore);
    var rows := hist + fore;
    assert rows == PayloadRows(fs, t, info);
    assert |ForecastOnly(rows)| == 6;
    KpiBounds(rows, names);
  }
}
