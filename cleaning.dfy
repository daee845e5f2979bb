/**
 * `DataProcessor._clean_data`: the records of a frame built from the input
 * array are screened for missing critical values and for date strings of
 * the wrong shape, their dates and amounts are converted (dropping what does
 * not convert and every amount that is not positive), names and states are
 * stripped and upper-cased, and exact duplicates are dropped.
 */
module Cleaning {
  import opened Wrappers
  import opened Timeline
  import opened Collections
  import opened JsonData
  import opened DateFormat

  /** The columns of `pd.DataFrame(records)`: every key any record holds. */
  function Columns(rows: seq<Record>): (cs: set<string>)
    ensures forall c :: c in cs <==> exists i :: 0 <= i < |rows| && c in rows[i]
  {
    if |rows| == 0 then {}
    else
      var rest := Columns(rows[1..]);
      assert forall i :: 1 <= i < |rows| ==> rows[i] == rows[1..][i - 1];
      rows[0].Keys + rest
  }

  /** Survives `dropna` on the date, the name and the amount. */
  predicate HasCritical(r: Record) {
    Cell(r, DateColumn) != JNull && Cell(r, NameColumn) != JNull && Cell(r, AmountColumn) != JNull
  }

  /** Survives `dropna` and the date-shape filter. */
  predicate Screened(r: Record) {
    HasCritical(r) && IsValidDateFormat(Cell(r, DateColumn))
  }

  /** The first two filters, in row order. */
  function Screen(rows: seq<Record>): (r: seq<Record>)
    ensures |r| <= |rows|
    ensures forall x :: x in r <==> x in rows && Screened(x)
  {
    if |rows| == 0 then []
    else
      assert forall x :: x in rows <==> x == rows[0] || x in rows[1..];
      (if Screened(rows[0]) then [rows[0]] else []) + Screen(rows[1..])
  }

  /** The date column of the screened frame. */
  function DateCells(rows: seq<Record>): (col: seq<Json>)
    ensures |col| == |rows|
    ensures forall i :: 0 <= i < |rows| ==> col[i] == Cell(rows[i], DateColumn)
  {
    seq(|rows|, i requires 0 <= i < |rows| => Cell(rows[i], DateColumn))
  }

  /**
   * The conversions pandas performs: `pd.to_datetime(column, errors='coerce')`
   * on the whole date column (it infers one format for the column, so a cell's
   * result may depend on the others), `pd.to_numeric(errors='coerce')` on each
   * amount, and `str.upper`.
   */
  datatype Coercions = Coercions(toDates: seq<Json> -> seq<Option<DateTime>>,
                                 toNumber: Json -> Option<real>,
                                 upper: string -> string)

  /** The date conversion yields one result per cell. */
  ghost predicate Columnwise(co: Coercions) {
    forall col :: |co.toDates(col)| == |col|
  }

  /** A screened record with its converted date and amount. */
  datatype Typed = Typed(row: Record, date: DateTime, amount: real)

  /** The record's date converted and its amount converted to a positive number. */
  predicate Converts(r: Record, d: Option<DateTime>, toNumber: Json -> Option<real>) {
    d.Some? && toNumber(Cell(r, AmountColumn)).Some? && toNumber(Cell(r, AmountColumn)).value > 0.0
  }

  /** The three conversion filters: no date, no number, not positive. */
  function Convert(rows: seq<Record>, dates: seq<Option<DateTime>>, toNumber: Json -> Option<real>): (r: seq<Typed>)
    requires |dates| == |rows|
    ensures |r| <= |rows|
    ensures forall t :: t in r <==>
              exists i :: 0 <= i < |rows| && Converts(rows[i], dates[i], toNumber)
                          && t == Typed(rows[i], dates[i].value, toNumber(Cell(rows[i], AmountColumn)).value)
  {
    if |rows| == 0 then []
    else
      var rest := Convert(rows[1..], dates[1..], toNumber);
      var head := if Converts(rows[0], dates[0], toNumber)
                  then [Typed(rows[0], dates[0].value, toNumber(Cell(rows[0], AmountColumn)).value)]
                  else [];
      assert forall i :: 1 <= i < |rows| ==> rows[i] == rows[1..][i - 1] && dates[i] == dates[1..][i - 1];
      head + rest
  }

  /** A cleaned row: the converted date and amount, the normalised name and state, and every other column. */
  datatype CleanRow = CleanRow(date: DateTime, name: Option<string>, state: Option<string>, amount: real,
                               others: map<string, Json>)

  /** `.str.strip().str.upper()`: a string is normalised, anything else becomes a missing value. */
  function Normalised(v: Json, upper: string -> string): (r: Option<string>)
    ensures r.Some? <==> v.JString?
    ensures v.JString? ==> r.value == upper(Strip(v.s))
  {
    if v.JString? then Some(upper(Strip(v.s))) else None
  }

  function CleanRowOf(t: Typed, columns: set<string>, upper: string -> string): CleanRow {
    CleanRow(t.date, Normalised(Cell(t.row, NameColumn), upper), Normalised(Cell(t.row, StateColumn), upper),
             t.amount, map c | c in columns && c !in RequiredFields :: Cell(t.row, c))
  }

  function CleanRows(ts: seq<Typed>, columns: set<string>, upper: string -> string): (rs: seq<CleanRow>)
    ensures |rs| == |ts|
    ensures forall i :: 0 <= i < |ts| ==> rs[i] == CleanRowOf(ts[i], columns, upper)
  {
    seq(|ts|, i requires 0 <= i < |ts| => CleanRowOf(ts[i], columns, upper))
  }

  /** The normalised rows before `drop_duplicates`. */
  function Candidates(rows: seq<Record>, co: Coercions): (cs: seq<CleanRow>)
    requires Columnwise(co)
    ensures |cs| <= |rows|
  {
    var s := Screen(rows);
    var ts := Convert(s, co.toDates(DateCells(s)), co.toNumber);
    CleanRows(ts, Columns(rows), co.upper)
  }

  /** `_clean_data`: the candidates with exact duplicates removed, first occurrence kept. */
  function CleanData(rows: seq<Record>, co: Coercions): (out: seq<CleanRow>)
    requires Columnwise(co)
    ensures |out| <= |rows|
    ensures Distinct(out)
    ensures forall c :: c in out <==> c in Candidates(rows, co)
    ensures forall i, j :: 0 <= i < j < |out| ==>
              IndexOf(Candidates(rows, co), out[i]) < IndexOf(Candidates(rows, co), out[j])
  {
    Dedup(Candidates(rows, co))
  }

  /**
   * Every cleaned row comes from an input record with a date, a name and an
   * amount, whose date string passed the shape check and converted, whose
   * amount converted to a positive number, and whose name and state are
   * the stripped and upper-cased strings of the record.
   */
  lemma CleanedRowsValid(rows: seq<Record>, co: Coercions, c: CleanRow)
    requires Columnwise(co) && c in CleanData(rows, co)
    ensures exists r :: r in rows && HasCritical(r) && IsValidDateFormat(Cell(r, DateColumn))
              && co.toNumber(Cell(r, AmountColumn)) == Some(c.amount) && c.amount > 0.0
              && c.name == Normalised(Cell(r, NameColumn), co.upper)
              && c.state == Normalised(Cell(r, StateColumn), co.upper)
              && forall k :: k in c.others <==> k in Columns(rows) && k !in RequiredFields
  {
    CandidateValid(rows, co, c);
  }

  /** Every candidate row comes from a screened record that converts. */
  lemma CandidateValid(rows: seq<Record>, co: Coercions, c: CleanRow)
    requires Columnwise(co) && c in Candidates(rows, co)
    ensures exists r :: r in rows && HasCritical(r) && IsValidDateFormat(Cell(r, DateColumn))
              && co.toNumber(Cell(r, AmountColumn)) == Some(c.amount) && c.amount > 0.0
              && c.name == Normalised(Cell(r, NameColumn), co.upper)
              && c.state == Normalised(Cell(r, StateColumn), co.upper)
              && forall k :: k in c.others <==> k in Columns(rows) && k !in RequiredFields
  {
    var s := Screen(rows);
    var ts := Convert(s, co.toDates(DateCells(s)), co.toNumber);
    var cs := CleanRows(ts, Columns(rows), co.upper);
    var j :| 0 <= j < |cs| && cs[j] == c;
    var t := ts[j];
    assert t in ts;
    var i :| 0 <= i < |s| && Converts(s[i], co.toDates(DateCells(s))[i], co.toNumber)
             && t == Typed(s[i], co.toDates(DateCells(s))[i].value, co.toNumber(Cell(s[i], AmountColumn)).value);
    assert s[i] in s;
  }

  /**
   * Conversely, every screened record whose date and amount convert, with
   * a positive amount, is represented in the result.
   */
  lemma ConvertedRowsKept(rows: seq<Record>, co: Coercions, i: int)
    requires Columnwise(co)
    requires 0 <= i < |Screen(rows)|
    requires Converts(Screen(rows)[i], co.toDates(DateCells(Screen(rows)))[i], co.toNumber)
    ensures var r := Screen(rows)[i];
            CleanRowOf(Typed(r, co.toDates(DateCells(Screen(rows)))[i].value, co.toNumber(Cell(r, AmountColumn)).value),
                       Columns(rows), co.upper) in CleanData(rows, co)
  {
    var s := Screen(rows);
    var dates := co.toDates(DateCells(s));
    var ts := Convert(s, dates, co.toNumber);
    var t := Typed(s[i], dates[i].value, co.toNumber(Cell(s[i], AmountColumn)).value);
    assert t in ts;
    var j :| 0 <= j < |ts| && ts[j] == t;
    assert CleanRows(ts, Columns(rows), co.upper)[j] == CleanRowOf(t, Columns(rows), co.upper);
  }
}
