/**
 * Choosing and forecasting the leading entities
 * (`ForecastService.get_top_companies_forecast`, `forecast_company_returns`
 * and their state twins): the entities are ranked by their total over the
 * six latest table rows, the first `top_n` are forecast, and an entity whose
 * series is too thin or whose forecast raises is skipped.
 */
module Ranking {
  import opened Wrappers
  import opened Calendar
  import opened Collections
  import opened Series
  import opened Aggregation

  /** The first row kept by `tail(6)`. */
  function RecentStart(t: Table): (k: nat)
    ensures k <= |t.months|
    ensures |t.months| - k == if |t.months| < 6 then |t.months| else 6
  {
    if |t.months| < 6 then 0 else |t.months| - 6
  }

  /** Sum of column `j` over `rows`. */
  function ColumnSum(rows: seq<seq<real>>, j: nat): real
    requires forall i :: 0 <= i < |rows| ==> j < |rows[i]|
  {
    if |rows| == 0 then 0.0 else rows[0][j] + ColumnSum(rows[1..], j)
  }

  /** `time_series_data.tail(6).sum()` for column `j`. */
  function RecentTotal(t: Table, j: nat): real
    requires Shaped(t) && j < |t.entities|
  {
    ColumnSum(t.cells[RecentStart(t)..], j)
  }

  /** The recent total of column `j`, or 0 for a position outside the table. */
  function ColumnTotal(t: Table, j: nat): real {
    if Shaped(t) && j < |t.entities| then RecentTotal(t, j) else 0.0
  }

  /** Columns with larger recent totals first. */
  function ByTotalDescending(t: Table): (le: (nat, nat) -> bool)
    ensures TotalPreorder(le)
    ensures forall a, b :: le(a, b) == (ColumnTotal(t, a) >= ColumnTotal(t, b))
  {
    (a: nat, b: nat) => ColumnTotal(t, a) >= ColumnTotal(t, b)
  }

  /** The column positions `0 .. n - 1`. */
  function Positions(n: nat): (ps: seq<nat>)
    ensures |ps| == n && Distinct(ps)
    ensures forall j :: 0 <= j < n ==> ps[j] == j
  {
    seq(n, j requires 0 <= j < n => j)
  }

  /**
   * `recent_data.sum().sort_values(ascending=False)` as column positions; its
   * order among equal totals is one admissible choice.
   */
  function Ranked(t: Table): (rs: seq<nat>)
    requires Shaped(t)
    ensures |rs| == |t.entities|
    ensures SortedBy(rs, ByTotalDescending(t))
    ensures multiset(rs) == multiset(Positions(|t.entities|))
  {
    SortBy(Positions(|t.entities|), ByTotalDescending(t))
  }

  /** The ranking lists every column position exactly once. */
  lemma RankedPositions(t: Table)
    requires Shaped(t)
    ensures Distinct(Ranked(t))
    ensures forall j: nat :: j in Ranked(t) <==> j < |t.entities|
  {
    var ps, rs := Positions(|t.entities|), Ranked(t);
    DistinctPermutation(ps, rs);
    forall j: nat ensures j in rs <==> j < |t.entities| {
      assert j in rs <==> j in multiset(rs);
      assert j in ps <==> j in multiset(ps);
      assert j < |t.entities| ==> ps[j] == j;
    }
  }

  /** How many items `Series.head(n)` keeps of `len`; a negative `n` drops `-n` from the end. */
  function HeadCount(n: int, len: nat): (k: nat)
    ensures k <= len
  {
    if n >= 0 then (if n < len then n else len)
    else if len + n > 0 then len + n else 0
  }

  /** `company_totals.head(top_n).index.tolist()`. */
  function TopEntities(t: Table, topN: int): (top: seq<string>)
    requires Shaped(t)
    ensures |top| == HeadCount(topN, |t.entities|)
    ensures forall e :: e in top ==> e in t.entities
  {
    var rs := Ranked(t);
    RankedPositions(t);
    assert forall i :: 0 <= i < |rs| ==> rs[i] in rs;
    seq(HeadCount(topN, |rs|), i requires 0 <= i < HeadCount(topN, |rs|) => t.entities[rs[i]])
  }

  /**
   * The selection: `min(top_n, columns)` distinct table entities (for a
   * non-negative `top_n`), listed by non-increasing recent total, and every
   * selected entity's total at least that of every entity left out.
   */
  lemma TopEntitiesSelection(t: Table, topN: int)
    requires WellFormed(t)
    ensures var top := TopEntities(t, topN);
            (topN >= 0 ==> |top| == if topN < |t.entities| then topN else |t.entities|)
            && Distinct(top)
            && (forall a, b :: (0 <= a < |t.entities| && 0 <= b < |t.entities|
                  && t.entities[a] in top && t.entities[b] !in top) ==> RecentTotal(t, a) >= RecentTotal(t, b))
            && (forall p, q :: 0 <= p < q < |top| ==>
                  RecentTotal(t, IndexOf(t.entities, top[p])) >= RecentTotal(t, IndexOf(t.entities, top[q])))
  {
    TopPositions(t, topN);
    TopEntitiesDominate(t, topN);
    TopEntitiesOrdered(t, topN);
  }

  /** The selected names are the entities at the first ranked positions, hence distinct. */
  lemma TopPositions(t: Table, topN: int)
    requires WellFormed(t)
    ensures var top, rs := TopEntities(t, topN), Ranked(t);
            Distinct(top)
            && forall p :: 0 <= p < |top| ==> IndexOf(t.entities, top[p]) == rs[p]
  {
    var top, rs := TopEntities(t, topN), Ranked(t);
    RankedPositions(t);
    forall p | 0 <= p < |top| ensures IndexOf(t.entities, top[p]) == rs[p] {
      assert rs[p] in rs;
      var i := IndexOf(t.entities, top[p]);
      assert t.entities[i] == t.entities[rs[p]];
    }
    forall p, q | 0 <= p < q < |top| ensures top[p] != top[q] {
      assert rs[p] != rs[q];
    }
  }

  lemma TopEntitiesDominate(t: Table, topN: int)
    requires WellFormed(t)
    ensures var top := TopEntities(t, topN);
            forall a, b :: (0 <= a < |t.entities| && 0 <= b < |t.entities|
              && t.entities[a] in top && t.entities[b] !in top) ==> RecentTotal(t, a) >= RecentTotal(t, b)
  {
    var top, rs := TopEntities(t, topN), Ranked(t);
    var k := |top|;
    TopPositions(t, topN);
    RankedPositions(t);
    forall a, b | 0 <= a < |t.entities| && 0 <= b < |t.entities| && t.entities[a] in top && t.entities[b] !in top
      ensures RecentTotal(t, a) >= RecentTotal(t, b)
    {
      var p :| 0 <= p < k && top[p] == t.entities[a];
      assert rs[p] == IndexOf(t.entities, t.entities[a]) == a;
      assert b in rs;
      var q :| 0 <= q < |rs| && rs[q] == b;
      assert ByTotalDescending(t)(rs[p], rs[q]);
    }
  }

  lemma TopEntitiesOrdered(t: Table, topN: int)
    requires WellFormed(t)
    ensures var top := TopEntities(t, topN);
            forall p, q :: 0 <= p < q < |top| ==>
              RecentTotal(t, IndexOf(t.entities, top[p])) >= RecentTotal(t, IndexOf(t.entities, top[q]))
  {
    var top, rs := TopEntities(t, topN), Ranked(t);
    TopPositions(t, topN);
    RankedPositions(t);
    forall p, q | 0 <= p < q < |top|
      ensures RecentTotal(t, IndexOf(t.entities, top[p])) >= RecentTotal(t, IndexOf(t.entities, top[q]))
    {
      assert rs[p] in rs && rs[q] in rs;
      assert ByTotalDescending(t)(rs[p], rs[q]);
    }
  }

  /** `time_series_data[name].reset_index()`: the column as a series over the table months. */
  function ColumnSeries(t: Table, name: string): (s: seq<Observation>)
    requires Shaped(t) && name in t.entities
    ensures |s| == |t.months|
  {
    var j := IndexOf(t.entities, name);
    seq(|t.months|, i requires 0 <= i < |t.months| => Observation(FirstDay(t.months[i]), t.cells[i][j]))
  }

  /** `prophet_df[prophet_df['y'] > 0]`. */
  function PositivePoints(s: seq<Observation>): (r: seq<Observation>)
    ensures |r| <= |s|
    ensures forall o :: o in r <==> o in s && o.y > 0.0
  {
    if |s| == 0 then []
    else
      assert forall o :: o in s <==> o == s[0] || o in s[1..];
      (if s[0].y > 0.0 then [s[0]] else []) + PositivePoints(s[1..])
  }

  /** The fewest positive points a forecast is attempted with. */
  const MinPoints: nat := 4

  /** A forecast and the series it was fitted on (`accuracy` is not modelled). */
  datatype EntityForecast = EntityForecast(forecast: seq<ForecastRow>, historical: seq<Observation>)

  /**
   * `forecast_company_returns`. The forecaster stands for Prophet's fit and
   * predict with `periods` future months; `None` is an exception.
   */
  function ForecastEntity(s: seq<Observation>, periods: int,
                          prophet: (seq<Observation>, int) -> Option<seq<ForecastRow>>): (r: Option<EntityForecast>)
    ensures r.Some? <==> |PositivePoints(s)| >= MinPoints && prophet(PositivePoints(s), periods).Some?
    ensures r.Some? ==> r.value.historical == PositivePoints(s)
                        && forall o :: o in r.value.historical ==> o.y > 0.0
    ensures r.Some? ==> r.value.forecast == prophet(PositivePoints(s), periods).value
  {
    var points := PositivePoints(s);
    if |points| < MinPoints then None
    else
      match prophet(points, periods)
      case None => None
      case Some(rows) => Some(EntityForecast(rows, points))
  }

  /** The forecasts that succeed among `names`, in their order (the `forecasts` dict). */
  function Collected(t: Table, names: seq<string>, periods: int,
                     prophet: (seq<Observation>, int) -> Option<seq<ForecastRow>>): seq<(string, EntityForecast)>
    requires Shaped(t) && forall e :: e in names ==> e in t.entities
  {
    if |names| == 0 then []
    else
      var init := names[..|names| - 1];
      var last := names[|names| - 1];
      var r := ForecastEntity(ColumnSeries(t, last), periods, prophet);
      Collected(t, init, periods, prophet) + (if r.Some? then [(last, r.value)] else [])
  }

  /** An entity is kept when it has enough positive points and its forecast completes. */
  predicate Kept(t: Table, name: string, periods: int, prophet: (seq<Observation>, int) -> Option<seq<ForecastRow>>)
    requires Shaped(t) && name in t.entities
  {
    var points := PositivePoints(ColumnSeries(t, name));
    |points| >= MinPoints && prophet(points, periods).Some?
  }

  /** The keys of a forecasts dict. */
  function Keys(fs: seq<(string, EntityForecast)>): (ks: seq<string>)
    ensures |ks| == |fs| && forall i :: 0 <= i < |fs| ==> ks[i] == fs[i].0
  {
    seq(|fs|, i requires 0 <= i < |fs| => fs[i].0)
  }

  /**
   * `get_top_companies_forecast` / `get_top_states_forecast`: one attempt per
   * ranked entity, keeping the successes.
   */
  method GetTopForecasts(t: Table, topN: int, periods: int,
                         prophet: (seq<Observation>, int) -> Option<seq<ForecastRow>>)
    returns (forecasts: seq<(string, EntityForecast)>)
    requires WellFormed(t)
    ensures forecasts == Collected(t, TopEntities(t, topN), periods, prophet)
  {
    var top := TopEntities(t, topN);
    assert Shaped(t) && forall e :: e in top ==> e in t.entities by {
      TopEntitiesSelection(t, topN);
    }
    forecasts := [];
    for k := 0 to |top|
      invariant forecasts == Collected(t, top[..k], periods, prophet)
    {
      var r := ForecastEntity(ColumnSeries(t, top[k]), periods, prophet);
      if r.Some? {
        forecasts := forecasts + [(top[k], r.value)];
      }
      assert top[..k + 1][..k] == top[..k];
    }
    assert top[..|top|] == top;
  }

  /**
   * The skip rule over a list of entities: an entity is in the result exactly
   * when it is in the list and kept, the result follows the list's order,
   * and its forecasts are the entities' own.
   */
  lemma CollectedKeys(t: Table, names: seq<string>, periods: int,
                      prophet: (seq<Observation>, int) -> Option<seq<ForecastRow>>)
    requires Shaped(t) && forall e :: e in names ==> e in t.entities
    ensures var fs := Collected(t, names, periods, prophet);
            (forall e :: e in Keys(fs) <==> e in names && Kept(t, e, periods, prophet))
            && (forall i :: 0 <= i < |fs| ==>
                  ForecastEntity(ColumnSeries(t, fs[i].0), periods, prophet) == Some(fs[i].1))
            && |fs| <= |names|
            && (Distinct(names) ==> forall i, j :: 0 <= i < j < |fs| ==>
                  IndexOf(names, fs[i].0) < IndexOf(names, fs[j].0))
  {
    CollectedMembers(t, names, periods, prophet);
    if Distinct(names) {
      CollectedOrder(t, names, periods, prophet);
    }
  }

  /** The keys, forecasts and size of `Collected`. */
  lemma {:induction false} CollectedMembers(t: Table, names: seq<string>, periods: int,
                                            prophet: (seq<Observation>, int) -> Option<seq<ForecastRow>>)
    requires Shaped(t) && forall e :: e in names ==> e in t.entities
    ensures var fs := Collected(t, names, periods, prophet);
            (forall e :: e in Keys(fs) <==> e in names && Kept(t, e, periods, prophet))
            && (forall i :: 0 <= i < |fs| ==>
                  ForecastEntity(ColumnSeries(t, fs[i].0), periods, prophet) == Some(fs[i].1))
            && |fs| <= |names|
  {
    if |names| > 0 {
      var init := names[..|names| - 1];
      var last := names[|names| - 1];
      assert forall e :: e in names <==> e in init || e == last;
      CollectedMembers(t, init, periods, prophet);
      var fs := Collected(t, names, periods, prophet);
      var fi := Collected(t, init, periods, prophet);
      var r := ForecastEntity(ColumnSeries(t, last), periods, prophet);
      assert fs == fi + (if r.Some? then [(last, r.value)] else []);
      assert forall i :: 0 <= i < |fi| ==> fs[i] == fi[i];
      assert Keys(fs) == Keys(fi) + (if r.Some? then [last] else []);
      assert r.Some? <==> Kept(t, last, periods, prophet);
    }
  }

  /** Over distinct names, `Collected` follows their order. */
  lemma {:induction false} CollectedOrder(t: Table, names: seq<string>, periods: int,
                                          prophet: (seq<Observation>, int) -> Option<seq<ForecastRow>>)
    requires Shaped(t) && (forall e :: e in names ==> e in t.entities) && Distinct(names)
    ensures var fs := Collected(t, names, periods, prophet);
            (forall i :: 0 <= i < |fs| ==> fs[i].0 in names)
            && forall i, j :: 0 <= i < j < |fs| ==> IndexOf(names, fs[i].0) < IndexOf(names, fs[j].0)
  {
    if |names| > 0 {
      var init := names[..|names| - 1];
      var last := names[|names| - 1];
      assert forall e :: e in init ==> e in names;
      assert Distinct(init);
      CollectedOrder(t, init, periods, prophet);
      CollectedMembers(t, init, periods, prophet);
      var fs := Collected(t, names, periods, prophet);
      var fi := Collected(t, init, periods, prophet);
      var r := ForecastEntity(ColumnSeries(t, last), periods, prophet);
      assert fs == fi + (if r.Some? then [(last, r.value)] else []);
      CollectedMembers(t, names, periods, prophet);
      forall i | 0 <= i < |fs| ensures fs[i].0 in names {
        assert Keys(fs)[i] == fs[i].0;
      }
      forall e | e in init ensures IndexOf(names, e) == IndexOf(init, e) {
        IndexOfPrefix(names, init, e);
      }
      assert last !in init;
      assert IndexOf(names, last) == |init|;
      forall i, j | 0 <= i < j < |fs| ensures IndexOf(names, fs[i].0) < IndexOf(names, fs[j].0) {
        assert fs[i] == fi[i];
        assert Keys(fi)[i] == fi[i].0;
        assert fi[i].0 in Keys(fi);
        if j == |fi| {
          assert IndexOf(names, fs[i].0) == IndexOf(init, fi[i].0);
        } else {
          assert fs[j] == fi[j];
          assert Keys(fi)[j] == fi[j].0;
          assert fi[j].0 in Keys(fi);
        }
      }
    }
  }

  /** A lookup in a prefix finds what the whole sequence finds. */
  lemma {:induction false} IndexOfPrefix<T>(xs: seq<T>, pre: seq<T>, x: T)
    requires |pre| <= |xs| && pre == xs[..|pre|] && x in pre
    ensures x in xs && IndexOf(xs, x) == IndexOf(pre, x)
  {
    if xs[0] != x {
      IndexOfPrefix(xs[1..], pre[1..], x);
    }
  }

  /**
   * The forecasts of the ranked entities: keyed by a ranked entity exactly
   * when it was kept, in rank order.
   */
  lemma TopForecastsKeys(t: Table, topN: int, periods: int,
                         prophet: (seq<Observation>, int) -> Option<seq<ForecastRow>>)
    requires WellFormed(t)
    ensures var top := TopEntities(t, topN);
            var fs := Collected(t, top, periods, prophet);
            (forall e :: e in Keys(fs) <==> e in top && Kept(t, e, periods, prophet))
            && (forall i, j :: 0 <= i < j < |fs| ==> IndexOf(top, fs[i].0) < IndexOf(top, fs[j].0))
            && Distinct(Keys(fs))
  {
    var top := TopEntities(t, topN);
    TopEntitiesSelection(t, topN);
    CollectedKeys(t, top, periods, prophet);
    var fs := Collected(t, top, periods, prophet);
    assert Distinct(Keys(fs)) by {
      forall i, j | 0 <= i < j < |fs| ensures Keys(fs)[i] != Keys(fs)[j] {
        assert fs[i].0 in Keys(fs) && fs[j].0 in Keys(fs);
        assert IndexOf(top, fs[i].0) < IndexOf(top, fs[j].0);
      }
    }
  }
}
