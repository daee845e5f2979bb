/**
 * `ForecastService.prepare_time_series_data` and its state twin: records are
 * grouped by entity (company name or state) and calendar month, the amounts
 * summed, and the sums pivoted into a month-by-entity table with 0 where an
 * entity has no record in a month.
 */
module Aggregation {
  import opened Wrappers
  import opened Calendar
  import opened Collections

  /**
   * One input row: `DateTransactionJulian`, `NameAlpha`, `State` and
   * `Orig_Inv_Ttl_Prod_Value`; a missing value is `None`.
   */
  datatype SourceRecord = SourceRecord(date: Option<string>, name: Option<string>, state: Option<string>,
                                       amount: Option<real>)

  /** The column the records are grouped by: the company or the state variant. */
  datatype GroupKey = ByCompany | ByState

  function KeyOf(r: SourceRecord, key: GroupKey): Option<string> {
    match key
    case ByCompany => r.name
    case ByState => r.state
  }

  /**
   * A record after its date has been parsed: the month it falls in, its
   * group value and its amount (a missing amount adds nothing to a sum).
   */
  datatype Entry = Entry(month: Month, entity: Option<string>, amount: real)

  /** The month-by-entity table; `cells[i][j]` belongs to `months[i]` and `entities[j]`. */
  datatype Table = Table(months: seq<Month>, entities: seq<string>, cells: seq<seq<real>>)

  predicate Shaped(t: Table) {
    |t.cells| == |t.months| && forall i :: 0 <= i < |t.cells| ==> |t.cells[i]| == |t.entities|
  }

  /**
   * What a pivot table guarantees: the shape fits, the month index is
   * strictly increasing and the entity columns are distinct.
   */
  predicate WellFormed(t: Table) {
    Shaped(t)
    && (forall i :: 0 <= i < |t.months| ==> ValidMonth(t.months[i]))
    && (forall i, j :: 0 <= i < j < |t.months| ==> Index(t.months[i]) < Index(t.months[j]))
    && Distinct(t.entities)
  }

  /** A date parser that only produces calendar dates (`pd.to_datetime` with `%Y-%m-%d`). */
  ghost predicate DateParser(parse: string -> Option<Date>) {
    forall s :: parse(s).Some? ==> ValidDate(parse(s).value)
  }

  /**
   * The records with a date, in order. `pd.to_datetime` turns a missing
   * date into `NaT` without raising, and `groupby` drops the rows whose
   * month is `NaT`.
   */
  function Dated(records: seq<SourceRecord>): (ds: seq<SourceRecord>)
    ensures |ds| <= |records|
    ensures forall k :: 0 <= k < |ds| ==> ds[k].date.Some?
    ensures forall x :: x in ds <==> x in records && x.date.Some?
  {
    if |records| == 0 then []
    else
      assert forall x :: x in records <==> x == records[0] || x in records[1..];
      (if records[0].date.Some? then [records[0]] else []) + Dated(records[1..])
  }

  /** A present date that `%Y-%m-%d` cannot parse: it makes `pd.to_datetime` raise. */
  predicate Unparsable(r: SourceRecord, parse: string -> Option<Date>) {
    r.date.Some? && parse(r.date.value).None?
  }

  /** The month a record is grouped under, if its date is present and parses. */
  function RecordMonth(r: SourceRecord, parse: string -> Option<Date>): Option<Month> {
    if r.date.Some? && parse(r.date.value).Some? then Some(MonthOf(parse(r.date.value).value)) else None
  }

  /** The dated records with their dates parsed; one unparsable date fails them all. */
  function ParseDated(ds: seq<SourceRecord>, key: GroupKey, parse: string -> Option<Date>): (r: Option<seq<Entry>>)
    requires forall k :: 0 <= k < |ds| ==> ds[k].date.Some?
    ensures r.None? <==> exists i :: 0 <= i < |ds| && parse(ds[i].date.value).None?
    ensures r.Some? ==> |r.value| == |ds|
    ensures r.Some? ==> forall i :: 0 <= i < |ds| ==>
              r.value[i].entity == KeyOf(ds[i], key) && Some(r.value[i].month) == RecordMonth(ds[i], parse)
    ensures r.Some? && DateParser(parse) ==> forall i :: 0 <= i < |ds| ==> ValidMonth(r.value[i].month)
  {
    if |ds| == 0 then Some([])
    else
      assert forall i :: 1 <= i < |ds| ==> ds[i] == ds[1..][i - 1];
      var rest := ParseDated(ds[1..], key, parse);
      var d := parse(ds[0].date.value);
      if d.None? || rest.None? then None
      else Some([Entry(MonthOf(d.value), KeyOf(ds[0], key), ds[0].amount.GetOr(0.0))] + rest.value)
  }

  /**
   * The records ready for grouping: one entry per dated record, with its
   * month and group value; one present date that does not parse fails the
   * whole preparation, and a missing one only drops its record.
   */
  function ParseRecords(records: seq<SourceRecord>, key: GroupKey, parse: string -> Option<Date>): (r: Option<seq<Entry>>)
    ensures r.None? <==> exists i :: 0 <= i < |records| && Unparsable(records[i], parse)
    ensures r.Some? ==> |r.value| == |Dated(records)|
    ensures r.Some? ==> forall i :: 0 <= i < |r.value| ==>
              r.value[i].entity == KeyOf(Dated(records)[i], key)
              && Some(r.value[i].month) == RecordMonth(Dated(records)[i], parse)
    ensures r.Some? && DateParser(parse) ==> forall i :: 0 <= i < |r.value| ==> ValidMonth(r.value[i].month)
  {
    var ds := Dated(records);
    var r := ParseDated(ds, key, parse);
    assert r.None? <==> exists i :: 0 <= i < |records| && Unparsable(records[i], parse) by {
      if r.None? {
        var i :| 0 <= i < |ds| && parse(ds[i].date.value).None?;
        assert ds[i] in records;
        var j :| 0 <= j < |records| && records[j] == ds[i];
        assert Unparsable(records[j], parse);
      }
      if exists i :: 0 <= i < |records| && Unparsable(records[i], parse) {
        var j :| 0 <= j < |records| && Unparsable(records[j], parse);
        assert records[j] in ds;
        var i :| 0 <= i < |ds| && ds[i] == records[j];
        assert parse(ds[i].date.value).None?;
      }
    }
    r
  }

  /** Sum of the amounts of the entries for entity `e` in month `m`. */
  function CellSum(es: seq<Entry>, m: Month, e: string): real {
    if |es| == 0 then 0.0
    else (if es[0].month == m && es[0].entity == Some(e) then es[0].amount else 0.0) + CellSum(es[1..], m, e)
  }

  /** The months of the entries that have a group value (groupby drops the others). */
  function GroupedMonths(es: seq<Entry>): (ms: seq<Month>)
    ensures forall m :: m in ms <==> exists k :: 0 <= k < |es| && es[k].entity.Some? && es[k].month == m
  {
    if |es| == 0 then []
    else
      assert forall k :: 1 <= k < |es| ==> es[k] == es[1..][k - 1];
      (if es[0].entity.Some? then [es[0].month] else []) + GroupedMonths(es[1..])
  }

  /** The group values present among the entries. */
  function GroupedEntities(es: seq<Entry>): (ns: seq<string>)
    ensures forall e :: e in ns <==> exists k :: 0 <= k < |es| && es[k].entity == Some(e)
  {
    if |es| == 0 then []
    else
      assert forall k :: 1 <= k < |es| ==> es[k] == es[1..][k - 1];
      (if es[0].entity.Some? then [es[0].entity.value] else []) + GroupedEntities(es[1..])
  }

  /** Chronological order on months. */
  function MonthOrder(): (le: (Month, Month) -> bool)
    ensures TotalPreorder(le)
    ensures forall a, b :: le(a, b) == (Index(a) <= Index(b))
  {
    (a: Month, b: Month) => Index(a) <= Index(b)
  }

  /** The pivot's row index: the grouped months, once each, in chronological order. */
  function TableMonths(es: seq<Entry>): seq<Month> {
    SortBy(Dedup(GroupedMonths(es)), MonthOrder())
  }

  /** The pivot's columns: the group values, once each, in string order. */
  function TableEntities(es: seq<Entry>): seq<string> {
    SortBy(Dedup(GroupedEntities(es)), StringOrder())
  }

  /** The pivot of the grouped sums, with sorted month index and sorted entity columns. */
  function BuildTable(es: seq<Entry>): Table {
    var months := TableMonths(es);
    var entities := TableEntities(es);
    Table(months, entities,
          seq(|months|, i requires 0 <= i < |months| =>
            seq(|entities|, j requires 0 <= j < |entities| => CellSum(es, months[i], entities[j]))))
  }

  /**
   * `prepare_time_series_data` (grouping by name) and
   * `prepare_state_time_series_data` (grouping by state).
   */
  function PrepareTimeSeriesData(records: seq<SourceRecord>, key: GroupKey, parse: string -> Option<Date>): (r: Option<Table>)
    ensures r.None? <==> exists i :: 0 <= i < |records| && Unparsable(records[i], parse)
    ensures r.Some? ==> Shaped(r.value)
  {
    match ParseRecords(records, key, parse)
    case None => None
    case Some(es) => Some(BuildTable(es))
  }

  /** A sorted, duplicate-free list of valid months has strictly increasing indices. */
  lemma MonthsStrict(ms: seq<Month>)
    requires SortedBy(ms, MonthOrder()) && Distinct(ms)
    requires forall i :: 0 <= i < |ms| ==> ValidMonth(ms[i])
    ensures forall i, j :: 0 <= i < j < |ms| ==> Index(ms[i]) < Index(ms[j])
  {
    forall i, j | 0 <= i < j < |ms| ensures Index(ms[i]) < Index(ms[j]) {
      assert Index(ms[i]) <= Index(ms[j]);
      if Index(ms[i]) == Index(ms[j]) {
        IndexInjective(ms[i], ms[j]);
      }
    }
  }

  /**
   * The table's shape: one row per month in which some record has a group
   * value, in increasing order; one column per distinct group value of a
   * dated record, in string order; each cell the sum of that entity's
   * amounts in that month (0 when it has none).
   */
  lemma PreparedTableShape(records: seq<SourceRecord>, key: GroupKey, parse: string -> Option<Date>)
    requires DateParser(parse)
    requires PrepareTimeSeriesData(records, key, parse).Some?
    ensures var t := PrepareTimeSeriesData(records, key, parse).value;
            var es := ParseRecords(records, key, parse).value;
            WellFormed(t)
            && (forall m :: m in t.months <==>
                  exists k :: 0 <= k < |records| && KeyOf(records[k], key).Some? && RecordMonth(records[k], parse) == Some(m))
            && (forall e :: e in t.entities <==>
                  exists k :: 0 <= k < |records| && records[k].date.Some? && KeyOf(records[k], key) == Some(e))
            && SortedBy(t.entities, StringOrder())
            && (forall i, j :: 0 <= i < |t.months| && 0 <= j < |t.entities| ==>
                  t.cells[i][j] == CellSum(es, t.months[i], t.entities[j]))
  {
    var es := ParseRecords(records, key, parse).value;
    var t := BuildTable(es);
    assert PrepareTimeSeriesData(records, key, parse).value == t;
    TableMonthsFacts(es);
    TableEntitiesFacts(es);
    EntryMonthsOfRecords(records, key, parse);
    EntryEntitiesOfRecords(records, key, parse);
  }

  /** The table's months are those of the records with a group value. */
  lemma EntryMonthsOfRecords(records: seq<SourceRecord>, key: GroupKey, parse: string -> Option<Date>)
    requires DateParser(parse)
    requires ParseRecords(records, key, parse).Some?
    ensures forall m :: m in TableMonths(ParseRecords(records, key, parse).value) <==>
              exists k :: 0 <= k < |records| && KeyOf(records[k], key).Some? && RecordMonth(records[k], parse) == Some(m)
  {
    var es, ds := ParseRecords(records, key, parse).value, Dated(records);
    var ms := TableMonths(es);
    TableMonthsFacts(es);
    forall m ensures m in ms <==>
                     exists k :: 0 <= k < |records| && KeyOf(records[k], key).Some? && RecordMonth(records[k], parse) == Some(m)
    {
      if m in ms {
        var k :| 0 <= k < |es| && es[k].entity.Some? && es[k].month == m;
        assert ds[k] in records;
        var j :| 0 <= j < |records| && records[j] == ds[k];
        assert KeyOf(records[j], key).Some? && RecordMonth(records[j], parse) == Some(m);
      }
      if exists k :: 0 <= k < |records| && KeyOf(records[k], key).Some? && RecordMonth(records[k], parse) == Some(m) {
        var j :| 0 <= j < |records| && KeyOf(records[j], key).Some? && RecordMonth(records[j], parse) == Some(m);
        assert records[j] in ds;
        var k :| 0 <= k < |ds| && ds[k] == records[j];
        assert es[k].entity.Some? && es[k].month == m;
      }
    }
  }

  /** The table's entities are the group values of the dated records. */
  lemma EntryEntitiesOfRecords(records: seq<SourceRecord>, key: GroupKey, parse: string -> Option<Date>)
    requires ParseRecords(records, key, parse).Some?
    ensures forall e :: e in TableEntities(ParseRecords(records, key, parse).value) <==>
              exists k :: 0 <= k < |records| && records[k].date.Some? && KeyOf(records[k], key) == Some(e)
  {
    TableEntitiesFacts(ParseRecords(records, key, parse).value);
    EntryEntitiesBridge(records, key, parse);
  }

  /** An entry's group value is that of a dated record, and back. */
  lemma EntryEntitiesBridge(records: seq<SourceRecord>, key: GroupKey, parse: string -> Option<Date>)
    requires ParseRecords(records, key, parse).Some?
    ensures var es := ParseRecords(records, key, parse).value;
            forall e :: (exists k :: 0 <= k < |es| && es[k].entity == Some(e)) <==>
                        exists k :: 0 <= k < |records| && records[k].date.Some? && KeyOf(records[k], key) == Some(e)
  {
    var es, ds := ParseRecords(records, key, parse).value, Dated(records);
    forall e ensures (exists k :: 0 <= k < |es| && es[k].entity == Some(e)) <==>
                     exists k :: 0 <= k < |records| && records[k].date.Some? && KeyOf(records[k], key) == Some(e)
    {
      if exists k :: 0 <= k < |es| && es[k].entity == Some(e) {
        var k :| 0 <= k < |es| && es[k].entity == Some(e);
        assert ds[k] in records;
        var j :| 0 <= j < |records| && records[j] == ds[k];
        assert records[j].date.Some? && KeyOf(records[j], key) == Some(e);
      }
      if exists k :: 0 <= k < |records| && records[k].date.Some? && KeyOf(records[k], key) == Some(e) {
        var j :| 0 <= j < |records| && records[j].date.Some? && KeyOf(records[j], key) == Some(e);
        assert records[j] in ds;
        var k :| 0 <= k < |ds| && ds[k] == records[j];
        assert es[k].entity == Some(e);
      }
    }
  }

  /** The row index holds each grouped month once, in strictly increasing order. */
  lemma TableMonthsFacts(es: seq<Entry>)
    requires forall k :: 0 <= k < |es| ==> ValidMonth(es[k].month)
    ensures var ms := TableMonths(es);
            (forall m :: m in ms <==> exists k :: 0 <= k < |es| && es[k].entity.Some? && es[k].month == m)
            && (forall i :: 0 <= i < |ms| ==> ValidMonth(ms[i]))
            && (forall i, j :: 0 <= i < j < |ms| ==> Index(ms[i]) < Index(ms[j]))
  {
    var ms := TableMonths(es);
    var dm := Dedup(GroupedMonths(es));
    DistinctPermutation(dm, ms);
    forall m ensures m in ms <==> m in dm {
      assert m in ms <==> m in multiset(ms);
      assert m in dm <==> m in multiset(dm);
    }
    forall i | 0 <= i < |ms| ensures ValidMonth(ms[i]) {
      assert ms[i] in dm;
      var k :| 0 <= k < |es| && es[k].entity.Some? && es[k].month == ms[i];
    }
    MonthsStrict(ms);
  }

  /** The columns hold each group value once, in string order. */
  lemma TableEntitiesFacts(es: seq<Entry>)
    ensures var ns := TableEntities(es);
            (forall e :: e in ns <==> exists k :: 0 <= k < |es| && es[k].entity == Some(e))
            && Distinct(ns) && SortedBy(ns, StringOrder())
  {
    var ns := TableEntities(es);
    var de := Dedup(GroupedEntities(es));
    DistinctPermutation(de, ns);
    forall e ensures e in ns <==> e in de {
      assert e in ns <==> e in multiset(ns);
      assert e in de <==> e in multiset(de);
    }
  }

  /** Sum of every cell of the table. */
  function TableTotal(cells: seq<seq<real>>): real {
    if |cells| == 0 then 0.0 else RowTotal(cells[0]) + TableTotal(cells[1..])
  }

  function RowTotal(row: seq<real>): real {
    if |row| == 0 then 0.0 else row[0] + RowTotal(row[1..])
  }

  /** Sum of the amounts of the entries that have a group value. */
  function GroupedTotal(es: seq<Entry>): real {
    if |es| == 0 then 0.0 else (if es[0].entity.Some? then es[0].amount else 0.0) + GroupedTotal(es[1..])
  }

  /** The sum of the cells of month `m` over the columns `ns`, by entry. */
  function MonthSum(es: seq<Entry>, m: Month, ns: seq<string>): real {
    if |ns| == 0 then 0.0 else CellSum(es, m, ns[0]) + MonthSum(es, m, ns[1..])
  }

  /** The sum of all cells for months `ms` and columns `ns`, by entry. */
  function GridSum(es: seq<Entry>, ms: seq<Month>, ns: seq<string>): real {
    if |ms| == 0 then 0.0 else MonthSum(es, ms[0], ns) + GridSum(es, ms[1..], ns)
  }

  lemma {:induction false} MonthSumStep(es: seq<Entry>, m: Month, ns: seq<string>)
    requires |es| > 0 && Distinct(ns)
    ensures MonthSum(es, m, ns) == MonthSum(es[1..], m, ns)
              + (if es[0].month == m && es[0].entity.Some? && es[0].entity.value in ns then es[0].amount else 0.0)
  {
    if |ns| > 0 {
      assert Distinct(ns[1..]) by {
        forall i, j | 0 <= i < j < |ns[1..]| ensures ns[1..][i] != ns[1..][j] {
          assert ns[1..][i] == ns[i + 1] && ns[1..][j] == ns[j + 1];
        }
      }
      MonthSumStep(es, m, ns[1..]);
      if es[0].entity == Some(ns[0]) {
        assert ns[0] !in ns[1..];
      }
      assert forall x :: x in ns <==> x == ns[0] || x in ns[1..];
    }
  }

  lemma {:induction false} GridSumStep(es: seq<Entry>, ms: seq<Month>, ns: seq<string>)
    requires |es| > 0 && Distinct(ms) && Distinct(ns)
    ensures GridSum(es, ms, ns) == GridSum(es[1..], ms, ns)
              + (if es[0].month in ms && es[0].entity.Some? && es[0].entity.value in ns then es[0].amount else 0.0)
  {
    if |ms| > 0 {
      assert Distinct(ms[1..]) by {
        forall i, j | 0 <= i < j < |ms[1..]| ensures ms[1..][i] != ms[1..][j] {
          assert ms[1..][i] == ms[i + 1] && ms[1..][j] == ms[j + 1];
        }
      }
      GridSumStep(es, ms[1..], ns);
      MonthSumStep(es, ms[0], ns);
      if es[0].month == ms[0] {
        assert ms[0] !in ms[1..];
      }
      assert forall x :: x in ms <==> x == ms[0] || x in ms[1..];
    }
  }

  lemma {:induction false} GridSumEmpty(ms: seq<Month>, ns: seq<string>)
    ensures GridSum([], ms, ns) == 0.0
  {
    if |ms| > 0 {
      GridSumEmpty(ms[1..], ns);
      MonthSumEmpty(ms[0], ns);
    }
  }

  lemma {:induction false} MonthSumEmpty(m: Month, ns: seq<string>)
    ensures MonthSum([], m, ns) == 0.0
  {
    if |ns| > 0 {
      MonthSumEmpty(m, ns[1..]);
    }
  }

  /** Grid sums count every grouped entry exactly once when the axes cover them. */
  lemma {:induction false} GridSumCovers(es: seq<Entry>, ms: seq<Month>, ns: seq<string>)
    requires Distinct(ms) && Distinct(ns)
    requires forall k :: 0 <= k < |es| && es[k].entity.Some? ==> es[k].month in ms && es[k].entity.value in ns
    ensures GridSum(es, ms, ns) == GroupedTotal(es)
  {
    if |es| == 0 {
      GridSumEmpty(ms, ns);
    } else {
      assert forall k :: 1 <= k < |es| ==> es[k] == es[1..][k - 1];
      GridSumCovers(es[1..], ms, ns);
      GridSumStep(es, ms, ns);
    }
  }

  /** The pivot's cells, summed row by row, are the grid sum over its axes. */
  lemma {:induction false} CellsGridSum(es: seq<Entry>, ms: seq<Month>, ns: seq<string>, cells: seq<seq<real>>)
    requires |cells| == |ms|
    requires forall i :: 0 <= i < |ms| ==> |cells[i]| == |ns|
    requires forall i, j :: 0 <= i < |ms| && 0 <= j < |ns| ==> cells[i][j] == CellSum(es, ms[i], ns[j])
    ensures TableTotal(cells) == GridSum(es, ms, ns)
  {
    if |ms| > 0 {
      CellsGridSum(es, ms[1..], ns, cells[1..]);
      RowMonthSum(es, ms[0], ns, cells[0]);
    }
  }

  lemma {:induction false} RowMonthSum(es: seq<Entry>, m: Month, ns: seq<string>, row: seq<real>)
    requires |row| == |ns|
    requires forall j :: 0 <= j < |ns| ==> row[j] == CellSum(es, m, ns[j])
    ensures RowTotal(row) == MonthSum(es, m, ns)
  {
    if |ns| > 0 {
      RowMonthSum(es, m, ns[1..], row[1..]);
    }
  }

  /**
   * Aggregation loses and invents nothing: the table's cells add up to the
   * total amount of the records that have a group value.
   */
  lemma TableConservesAmounts(records: seq<SourceRecord>, key: GroupKey, parse: string -> Option<Date>)
    requires DateParser(parse)
    requires PrepareTimeSeriesData(records, key, parse).Some?
    ensures TableTotal(PrepareTimeSeriesData(records, key, parse).value.cells)
              == GroupedTotal(ParseRecords(records, key, parse).value)
  {
    var es := ParseRecords(records, key, parse).value;
    var t := BuildTable(es);
    PreparedTableShape(records, key, parse);
    CellsGridSum(es, t.months, t.entities, t.cells);
    TableMonthsFacts(es);
    TableEntitiesFacts(es);
    forall k | 0 <= k < |es| && es[k].entity.Some?
      ensures es[k].month in t.months && es[k].entity.value in t.entities
    {
    }
    GridSumCovers(es, t.months, t.entities);
  }
}
