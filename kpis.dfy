/**
 * The dashboard rows and `ForecastService.calculate_kpis` (and its state
 * twin): totals of the last historical row and of the forecast rows,
 * growth percentages guarded against a non-positive base, and the average
 * forecast month.
 */
module Kpis {
  import opened Calendar

  /**
   * One entry of `forecastData`. A historical row maps each entity to its
   * truncated table value; a forecast row maps each entity to its `_pred`
   * value. The `%b %Y` label is represented by the month itself.
   */
  datatype ReportRow =
    | HistoricalRow(month: Month, values: map<string, int>)
    | ForecastMonthRow(month: Month, isCurrentMonth: bool, preds: map<string, int>)

  /** `d.get(key, 0)`. */
  function Get(m: map<string, int>, key: string): int {
    if key in m then m[key] else 0
  }

  /** The values a historical row holds for its entities. */
  function ValuesOf(r: ReportRow): map<string, int> {
    if r.HistoricalRow? then r.values else map[]
  }

  /** The `_pred` values a forecast row holds for its entities. */
  function PredsOf(r: ReportRow): map<string, int> {
    if r.ForecastMonthRow? then r.preds else map[]
  }

  /** Sum of `m.get(c, 0)` over the listed entities. */
  function SumOver(m: map<string, int>, entities: seq<string>): int {
    if |entities| == 0 then 0
    else SumOver(m, entities[..|entities| - 1]) + Get(m, entities[|entities| - 1])
  }

  /** Sum of the `_pred` values of every listed row. */
  function TotalOver(rows: seq<ReportRow>, entities: seq<string>): int {
    if |rows| == 0 then 0
    else TotalOver(rows[..|rows| - 1], entities) + SumOver(PredsOf(rows[|rows| - 1]), entities)
  }

  /** `[d for d in forecast_data if d.get('isHistorical', False)]`. */
  function HistoricalOnly(rows: seq<ReportRow>): (hs: seq<ReportRow>)
    ensures |hs| <= |rows|
  {
    if |rows| == 0 then []
    else
      HistoricalOnly(rows[..|rows| - 1]) + (if rows[|rows| - 1].HistoricalRow? then [rows[|rows| - 1]] else [])
  }

  /** `[d for d in forecast_data if not d.get('isHistorical', False)]`. */
  function ForecastOnly(rows: seq<ReportRow>): (fs: seq<ReportRow>)
    ensures |fs| <= |rows|
  {
    if |rows| == 0 then []
    else
      ForecastOnly(rows[..|rows| - 1]) + (if rows[|rows| - 1].ForecastMonthRow? then [rows[|rows| - 1]] else [])
  }

  /** The filters keep exactly the rows of their kind. */
  lemma {:induction false} FilterMembership(rows: seq<ReportRow>)
    ensures forall r :: r in HistoricalOnly(rows) <==> r in rows && r.HistoricalRow?
    ensures forall r :: r in ForecastOnly(rows) <==> r in rows && r.ForecastMonthRow?
  {
    if |rows| > 0 {
      var init, last := rows[..|rows| - 1], rows[|rows| - 1];
      FilterMembership(init);
      assert rows == init + [last];
    }
  }

  /**
   * Percentage change from `base` to `x`, or 0 when `base` is not positive.
   * Kept exact: the source's rounding to one decimal is not modelled.
   */
  function Growth(base: int, x: int): real {
    if base > 0 then (x - base) as real / base as real * 100.0 else 0.0
  }

  /**
   * Python's `round()` to an integer: to the nearest integer, halves to the
   * even neighbour.
   */
  function RoundHalfEven(x: real): (n: int)
    ensures -(1.0 / 2.0) <= n as real - x <= 1.0 / 2.0
    ensures (n as real - x == 1.0 / 2.0 || x - n as real == 1.0 / 2.0) ==> n % 2 == 0
  {
    var f := x.Floor;
    var frac := x - f as real;
    if frac < 1.0 / 2.0 then f
    else if frac > 1.0 / 2.0 then f + 1
    else if f % 2 == 0 then f else f + 1
  }

  /** `round(total / count) if count else 0`. */
  function Average(total: int, count: nat): (avg: int)
    ensures count > 0 ==> -(1.0 / 2.0) <= avg as real - total as real / count as real <= 1.0 / 2.0
    ensures count == 0 ==> avg == 0
  {
    if count > 0 then RoundHalfEven(total as real / count as real) else 0
  }

  /** The `avgRejection` placeholder of the dashboard. */
  const AvgRejection: real := 8.2

  /**
   * The KPI dict. `totalEntities` is `totalVendors` for companies and
   * `totalStates` for states.
   */
  datatype KpiSet = KpiSet(
    previousMonthTotal: int,
    currentMonthPredicted: int,
    nextMonthPredicted: int,
    growthCurrentVsPrevious: real,
    growthNextVsCurrent: real,
    total6MonthForecast: int,
    avgMonthlyForecast: int,
    avgRejection: real,
    totalEntities: int)

  /** The KPIs of `rows` for the listed entities. */
  function KpisOf(rows: seq<ReportRow>, entities: seq<string>): KpiSet {
    var hist := HistoricalOnly(rows);
    var fore := ForecastOnly(rows);
    var previous := if |hist| > 0 then SumOver(ValuesOf(hist[|hist| - 1]), entities) else 0;
    var current := if |fore| > 0 then SumOver(PredsOf(fore[0]), entities) else 0;
    var next := if |fore| > 1 then SumOver(PredsOf(fore[1]), entities) else 0;
    var total := TotalOver(fore, entities);
    KpiSet(previous, current, next, Growth(previous, current), Growth(current, next), total,
           Average(total, |fore|),
           AvgRejection, |entities|)
  }

  /** The per-entity accumulation loop: `sum(row.get(c, 0) for c in entities)`. */
  method SumEntities(m: map<string, int>, entities: seq<string>) returns (s: int)
    ensures s == SumOver(m, entities)
  {
    s := 0;
    for i := 0 to |entities|
      invariant s == SumOver(m, entities[..i])
    {
      s := s + Get(m, entities[i]);
      assert entities[..i + 1][..i] == entities[..i];
    }
    assert entities[..|entities|] == entities;
  }

  /** `((x - base) / base * 100) if base > 0 else 0`. */
  method GrowthPercent(base: int, x: int) returns (g: real)
    ensures g == Growth(base, x)
  {
    g := 0.0;
    if base > 0 {
      g := (x - base) as real / base as real * 100.0;
    }
  }

  /** `calculate_kpis` / `calculate_state_kpis`, accumulating the totals in loops. */
  method CalculateKpis(rows: seq<ReportRow>, entities: seq<string>) returns (k: KpiSet)
    ensures k == KpisOf(rows, entities)
  {
    var hist := HistoricalOnly(rows);
    var fore := ForecastOnly(rows);

    var previous := 0;
    if |hist| > 0 {
      previous := SumEntities(ValuesOf(hist[|hist| - 1]), entities);
    }
    var current := 0;
    if |fore| > 0 {
      current := SumEntities(PredsOf(fore[0]), entities);
    }
    var next := 0;
    if |fore| > 1 {
      next := SumEntities(PredsOf(fore[1]), entities);
    }

    var growthCurrent := GrowthPercent(previous, current);
    var growthNext := GrowthPercent(current, next);

    var total := 0;
    for j := 0 to |fore|
      invariant total == TotalOver(fore[..j], entities)
    {
      var monthTotal := SumEntities(PredsOf(fore[j]), entities);
      total := total + monthTotal;
      assert fore[..j + 1][..j] == fore[..j];
    }
    assert fore[..|fore|] == fore;

    var average := 0;
    if |fore| > 0 {
      average := RoundHalfEven(total as real / |fore| as real);
    }
    assert average == Average(total, |fore|);
    k := KpiSet(previous, current, next, growthCurrent, growthNext, total, average, AvgRejection, |entities|);
  }

  /**
   * The growth figure is a percentage change: applied to a positive base it
   * gives back the new value, it is positive exactly when the value rose,
   * and it is 0 whenever the base is not positive.
   */
  lemma GrowthMeaning(base: int, x: int)
    ensures base > 0 ==> base as real + base as real * Growth(base, x) / 100.0 == x as real
    ensures base > 0 ==> (Growth(base, x) > 0.0 <==> x > base)
    ensures base > 0 ==> (Growth(base, x) == 0.0 <==> x == base)
    ensures base <= 0 ==> Growth(base, x) == 0.0
  {
    if base > 0 {
      var b, d := base as real, (x - base) as real;
      assert Growth(base, x) == d / b * 100.0;
      assert b * (d / b * 100.0) / 100.0 == d;
      DivSign(d, b);
    }
  }

  lemma DivSign(d: real, b: real)
    requires b > 0.0
    ensures d / b * 100.0 > 0.0 <==> d > 0.0
    ensures d / b * 100.0 == 0.0 <==> d == 0.0
  {
    var q := d / b;
    assert q * b == d;
    if q > 0.0 { assert q * b > 0.0; }
  }

  /** A sum of non-negative values is non-negative. */
  lemma {:induction false} SumOverNonNegative(m: map<string, int>, entities: seq<string>)
    requires forall e :: e in m ==> m[e] >= 0
    ensures SumOver(m, entities) >= 0
  {
    if |entities| > 0 {
      SumOverNonNegative(m, entities[..|entities| - 1]);
    }
  }

  /** The six-month total is the sum over the forecast rows, each counted once. */
  lemma {:induction false} TotalOverSplit(rows: seq<ReportRow>, entities: seq<string>)
    requires |rows| > 0
    ensures TotalOver(rows, entities) == SumOver(PredsOf(rows[0]), entities) + TotalOver(rows[1..], entities)
  {
    if |rows| > 1 {
      TotalOverSplit(rows[..|rows| - 1], entities);
      assert rows[..|rows| - 1][1..] == rows[1..][..|rows| - 2];
    }
  }

  /**
   * With non-negative predictions, the six-month total covers the current
   * and next month's totals, and the average is the rounded mean over the
   * forecast rows.
   */
  lemma KpiBounds(rows: seq<ReportRow>, entities: seq<string>)
    requires forall r, e :: r in rows && e in PredsOf(r) ==> PredsOf(r)[e] >= 0
    ensures var k := KpisOf(rows, entities);
            var fore := ForecastOnly(rows);
            k.currentMonthPredicted >= 0 && k.nextMonthPredicted >= 0
            && k.total6MonthForecast >= k.currentMonthPredicted + k.nextMonthPredicted
            && k.avgMonthlyForecast == Average(k.total6MonthForecast, |fore|)
            && (|fore| == 0 ==> k.total6MonthForecast == 0)
  {
    var fore := ForecastOnly(rows);
    FilterMembership(rows);
    forall r | r in fore ensures forall e :: e in PredsOf(r) ==> PredsOf(r)[e] >= 0 {
      assert r in rows;
    }
    TotalNonNegative(fore, entities);
    if |fore| > 0 {
      SumOverNonNegative(PredsOf(fore[0]), entities);
      TotalOverSplit(fore, entities);
      var rest := fore[1..];
      TotalNonNegative(rest, entities);
      if |fore| > 1 {
        SumOverNonNegative(PredsOf(fore[1]), entities);
        TotalOverSplit(rest, entities);
        assert rest[0] == fore[1];
        TotalNonNegative(rest[1..], entities);
      }
    }
  }

  lemma {:induction false} TotalNonNegative(rows: seq<ReportRow>, entities: seq<string>)
    requires forall r, e :: r in rows && e in PredsOf(r) ==> PredsOf(r)[e] >= 0
    ensures TotalOver(rows, entities) >= 0
  {
    if |rows| > 0 {
      TotalNonNegative(rows[..|rows| - 1], entities);
      SumOverNonNegative(PredsOf(rows[|rows| - 1]), entities);
    }
  }

  /** A block of historical rows filters to itself, and to nothing among the forecasts. */
  lemma {:induction false} HistoricalBlock(hs: seq<ReportRow>)
    requires forall k :: 0 <= k < |hs| ==> hs[k].HistoricalRow?
    ensures HistoricalOnly(hs) == hs && ForecastOnly(hs) == []
  {
    if |hs| > 0 {
      var init := hs[..|hs| - 1];
      HistoricalBlock(init);
      assert init + [hs[|hs| - 1]] == hs;
    }
  }

  /** A block of forecast rows filters to itself, and to nothing among the historical rows. */
  lemma {:induction false} ForecastBlock(fs: seq<ReportRow>)
    requires forall k :: 0 <= k < |fs| ==> fs[k].ForecastMonthRow?
    ensures ForecastOnly(fs) == fs && HistoricalOnly(fs) == []
  {
    if |fs| > 0 {
      var init := fs[..|fs| - 1];
      ForecastBlock(init);
      assert init + [fs[|fs| - 1]] == fs;
    }
  }

  /** Both filters take one more row at the end one step at a time. */
  lemma FiltersSnoc(rows: seq<ReportRow>, r: ReportRow)
    ensures HistoricalOnly(rows + [r]) == HistoricalOnly(rows) + (if r.HistoricalRow? then [r] else [])
    ensures ForecastOnly(rows + [r]) == ForecastOnly(rows) + (if r.ForecastMonthRow? then [r] else [])
  {
    var all := rows + [r];
    assert all[..|all| - 1] == rows;
    assert all[|all| - 1] == r;
  }

  /** Filtering distributes over concatenation. */
  lemma {:induction false} FiltersAppend(a: seq<ReportRow>, b: seq<ReportRow>)
    ensures HistoricalOnly(a + b) == HistoricalOnly(a) + HistoricalOnly(b)
    ensures ForecastOnly(a + b) == ForecastOnly(a) + ForecastOnly(b)
  {
    if |b| == 0 {
      assert a + b == a;
    } else {
      var init, last := b[..|b| - 1], b[|b| - 1];
      FiltersAppend(a, init);
      assert a + b == (a + init) + [last];
      assert init + [last] == b;
      FiltersSnoc(a + init, last);
      FiltersSnoc(init, last);
    }
  }

  /** Splitting a historical block followed by a forecast block recovers both blocks. */
  lemma FilterBlocks(hs: seq<ReportRow>, fs: seq<ReportRow>)
    requires forall k :: 0 <= k < |hs| ==> hs[k].HistoricalRow?
    requires forall k :: 0 <= k < |fs| ==> fs[k].ForecastMonthRow?
    ensures HistoricalOnly(hs + fs) == hs && ForecastOnly(hs + fs) == fs
  {
    FiltersAppend(hs, fs);
    HistoricalBlock(hs);
    ForecastBlock(fs);
  }
}
