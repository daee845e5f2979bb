/**
 * The stateful part of `DataProcessor`: converting the posted records into
 * a timestamped CSV file, hashing a CSV file, and the model registry (a
 * JSON file mapping each company to its last training) with the rule that
 * decides whether the models must be retrained.
 */
module Processor {
  import opened Wrappers
  import opened Calendar
  import opened Timeline
  import opened Collections
  import opened JsonData
  import opened Aggregation
  import opened Service
  import opened Cleaning

  // The name of a converted file: `data/processed_data_%Y%m%d_%H%M%S.csv`.

  function DigitChar(d: nat): (c: char)
    requires d < 10
    ensures '0' <= c <= '9' && c as int - '0' as int == d
  {
    ('0' as int + d) as char
  }

  function DigitValue(c: char): nat
    requires '0' <= c <= '9'
  {
    c as int - '0' as int
  }

  /** The decimal digits of `n`, with no padding (`%Y` for a year below 1000 on glibc). */
  function Decimal(n: nat): (s: string)
    ensures |s| >= 1 && forall i :: 0 <= i < |s| ==> '0' <= s[i] <= '9'
  {
    if n < 10 then [DigitChar(n)] else Decimal(n / 10) + [DigitChar(n % 10)]
  }

  /** The number a string of decimal digits spells. */
  function DecimalValue(s: string): nat
    requires forall i :: 0 <= i < |s| ==> '0' <= s[i] <= '9'
  {
    if |s| == 0 then 0 else DecimalValue(s[..|s| - 1]) * 10 + DigitValue(s[|s| - 1])
  }

  lemma {:induction false} DecimalRoundTrip(n: nat)
    ensures DecimalValue(Decimal(n)) == n
  {
    if n >= 10 {
      DecimalRoundTrip(n / 10);
      var s := Decimal(n);
      assert s[..|s| - 1] == Decimal(n / 10);
    }
  }

  /** Two digits, zero-padded (`%m`, `%d`, `%H`, `%M`, `%S`). */
  function Pad2(n: nat): (s: string)
    requires n < 100
    ensures |s| == 2 && '0' <= s[0] <= '9' && '0' <= s[1] <= '9'
    ensures DigitValue(s[0]) * 10 + DigitValue(s[1]) == n
  {
    [DigitChar(n / 10), DigitChar(n % 10)]
  }

  /** A clock reading `strftime` can print: a calendar date and a time of day. */
  predicate ValidStampClock(now: DateTime) {
    ValidDate(now.date) && 0 <= now.micros < MicrosPerDay
  }

  /** The whole seconds elapsed since midnight. */
  function Seconds(now: DateTime): int {
    now.micros / 1_000_000
  }

  /** `%m%d_%H%M%S`: the fixed-width tail of the stamp. */
  function StampTail(now: DateTime): (s: string)
    requires ValidStampClock(now)
    ensures |s| == 11
  {
    var sec := Seconds(now);
    Pad2(now.date.month) + Pad2(now.date.day) + "_" + Pad2(sec / 3600) + Pad2(sec % 3600 / 60) + Pad2(sec % 3600 % 60)
  }

  /** `datetime.now().strftime("%Y%m%d_%H%M%S")`. */
  function Stamp(now: DateTime): string
    requires ValidStampClock(now)
  {
    Decimal(now.date.year) + StampTail(now)
  }

  const ProcessedPrefix: string := "data/processed_data_"
  const CsvSuffix: string := ".csv"

  /** The path a conversion at `now` writes to. */
  function CsvPath(now: DateTime): string
    requires ValidStampClock(now)
  {
    ProcessedPrefix + Stamp(now) + CsvSuffix
  }

  lemma Pad2Injective(m: nat, n: nat)
    requires m < 100 && n < 100 && Pad2(m) == Pad2(n)
    ensures m == n
  {
  }

  /** The tail of the stamp determines the month, the day and the second of the day. */
  lemma StampTailInjective(a: DateTime, b: DateTime)
    requires ValidStampClock(a) && ValidStampClock(b) && StampTail(a) == StampTail(b)
    ensures a.date.month == b.date.month && a.date.day == b.date.day && Seconds(a) == Seconds(b)
  {
    var sa, sb := StampTail(a), StampTail(b);
    var x, y := Seconds(a), Seconds(b);
    assert sa[0..2] == Pad2(a.date.month) && sb[0..2] == Pad2(b.date.month);
    assert sa[2..4] == Pad2(a.date.day) && sb[2..4] == Pad2(b.date.day);
    assert sa[5..7] == Pad2(x / 3600) && sb[5..7] == Pad2(y / 3600);
    assert sa[7..9] == Pad2(x % 3600 / 60) && sb[7..9] == Pad2(y % 3600 / 60);
    assert sa[9..11] == Pad2(x % 3600 % 60) && sb[9..11] == Pad2(y % 3600 % 60);
    Pad2Injective(a.date.month, b.date.month);
    Pad2Injective(a.date.day, b.date.day);
    Pad2Injective(x / 3600, y / 3600);
    Pad2Injective(x % 3600 / 60, y % 3600 / 60);
    Pad2Injective(x % 3600 % 60, y % 3600 % 60);
  }

  /**
   * Two conversions write the same file exactly when they happen on the
   * same day within the same second: the name is unique per second.
   */
  lemma CsvPathsDistinct(a: DateTime, b: DateTime)
    requires ValidStampClock(a) && ValidStampClock(b)
    ensures CsvPath(a) == CsvPath(b) <==> a.date == b.date && Seconds(a) == Seconds(b)
  {
    if CsvPath(a) == CsvPath(b) {
      var ya, yb := Decimal(a.date.year), Decimal(b.date.year);
      var p := |ProcessedPrefix|;
      assert |ya| == |yb|;
      assert CsvPath(a)[p..p + |ya|] == ya && CsvPath(b)[p..p + |yb|] == yb;
      assert CsvPath(a)[p + |ya|..p + |ya| + 11] == StampTail(a);
      assert CsvPath(b)[p + |yb|..p + |yb| + 11] == StampTail(b);
      DecimalRoundTrip(a.date.year);
      DecimalRoundTrip(b.date.year);
      StampTailInjective(a, b);
    }
  }

  // `calculate_data_hash`.

  /** A row as `to_string` prints it: the row label, the reformatted date and the other three columns. */
  datatype HashRow = HashRow(index: nat, date: Option<string>, name: Option<string>, state: Option<string>,
                             amount: Option<real>)

  /** The hash's oracles: `pd.to_datetime(...).dt.strftime('%Y-%m-%d')` on one cell, `to_string` and the MD5 hex digest. */
  datatype Hashing = Hashing(reformat: string -> Option<string>, render: seq<HashRow> -> string, md5: string -> string)

  /** `sort_values` order on one column: a missing value (`NaN`) after every value. */
  predicate MissingLastLe(a: Option<string>, b: Option<string>) {
    b.None? || (a.Some? && StrLe(a.value, b.value))
  }

  lemma MissingLastLeTotal(a: Option<string>, b: Option<string>)
    ensures MissingLastLe(a, b) || MissingLastLe(b, a)
  {
    if a.Some? && b.Some? {
      StrLeTotal(a.value, b.value);
    }
  }

  lemma MissingLastLeAntisymmetric(a: Option<string>, b: Option<string>)
    requires MissingLastLe(a, b) && MissingLastLe(b, a)
    ensures a == b
  {
    if a.Some? && b.Some? {
      StrLeAntisymmetric(a.value, b.value);
    }
  }

  lemma MissingLastLeTransitive(a: Option<string>, b: Option<string>, c: Option<string>)
    requires MissingLastLe(a, b) && MissingLastLe(b, c)
    ensures MissingLastLe(a, c)
  {
    if a.Some? && b.Some? && c.Some? {
      StrLeTransitive(a.value, b.value, c.value);
    }
  }

  /** The sort key `(DateTransactionJulian, NameAlpha)` on the raw strings. */
  predicate KeyLe(x: (nat, SourceRecord), y: (nat, SourceRecord)) {
    !MissingLastLe(y.1.date, x.1.date) || (x.1.date == y.1.date && MissingLastLe(x.1.name, y.1.name))
  }

  lemma KeyLeTotal(x: (nat, SourceRecord), y: (nat, SourceRecord))
    ensures KeyLe(x, y) || KeyLe(y, x)
  {
    MissingLastLeTotal(x.1.date, y.1.date);
    if MissingLastLe(x.1.date, y.1.date) && MissingLastLe(y.1.date, x.1.date) {
      MissingLastLeAntisymmetric(x.1.date, y.1.date);
      MissingLastLeTotal(x.1.name, y.1.name);
    }
  }

  lemma KeyLeTransitive(x: (nat, SourceRecord), y: (nat, SourceRecord), z: (nat, SourceRecord))
    requires KeyLe(x, y) && KeyLe(y, z)
    ensures KeyLe(x, z)
  {
    var a, b, c := x.1.date, y.1.date, z.1.date;
    MissingLastLeTotal(a, b);
    MissingLastLeTotal(b, c);
    MissingLastLeTotal(a, c);
    if MissingLastLe(c, a) {
      if a == b {
        MissingLastLeAntisymmetric(b, c);
        MissingLastLeTransitive(x.1.name, y.1.name, z.1.name);
      } else if b == c {
        MissingLastLeAntisymmetric(a, b);
      } else {
        MissingLastLeTransitive(c, a, b);
      }
    }
  }

  function HashKeyOrder(): (le: ((nat, SourceRecord), (nat, SourceRecord)) -> bool)
    ensures TotalPreorder(le)
    ensures forall x, y :: le(x, y) == KeyLe(x, y)
  {
    var le := (x: (nat, SourceRecord), y: (nat, SourceRecord)) => KeyLe(x, y);
    assert forall x, y :: le(x, y) || le(y, x) by {
      forall x, y ensures le(x, y) || le(y, x) { KeyLeTotal(x, y); }
    }
    assert forall x, y, z :: le(x, y) && le(y, z) ==> le(x, z) by {
      forall x, y, z | le(x, y) && le(y, z) ensures le(x, z) { KeyLeTransitive(x, y, z); }
    }
    le
  }

  /** The rows with the labels `read_csv` gave them: their positions in the file. */
  function Indexed(rs: seq<SourceRecord>): (ix: seq<(nat, SourceRecord)>)
    ensures |ix| == |rs| && forall i :: 0 <= i < |rs| ==> ix[i] == (i, rs[i])
  {
    seq(|rs|, i requires 0 <= i < |rs| => (i, rs[i]))
  }

  /** `df.sort_values(['DateTransactionJulian', 'NameAlpha'])` (a stable lexicographic sort), labels kept. */
  function SortedForHash(rs: seq<SourceRecord>): (r: seq<(nat, SourceRecord)>)
    ensures SortedBy(r, HashKeyOrder())
    ensures multiset(r) == multiset(Indexed(rs))
  {
    SortBy(Indexed(rs), HashKeyOrder())
  }

  /** The sorted rows are the file's rows, each under its own label. */
  lemma SortedForHashElements(rs: seq<SourceRecord>)
    ensures |SortedForHash(rs)| == |rs|
    ensures forall i :: 0 <= i < |rs| ==> (i, rs[i]) in SortedForHash(rs)
    ensures forall k :: 0 <= k < |rs| ==>
              SortedForHash(rs)[k].0 < |rs| && SortedForHash(rs)[k].1 == rs[SortedForHash(rs)[k].0]
  {
    var r, ix := SortedForHash(rs), Indexed(rs);
    assert |r| == |rs| by { assert |multiset(r)| == |multiset(ix)|; }
    forall i | 0 <= i < |rs| ensures (i, rs[i]) in r {
      assert ix[i] in multiset(ix);
    }
    forall k | 0 <= k < |rs| ensures r[k].0 < |rs| && r[k].1 == rs[r[k].0] {
      assert r[k] in multiset(r);
      assert r[k] in ix;
    }
  }

  /**
   * The sort is stable: two sorted rows with the same date and name keep the
   * order they had in the file, so the lower label comes first.
   */
  lemma SortedForHashStable(rs: seq<SourceRecord>)
    ensures forall i, j :: 0 <= i < j < |SortedForHash(rs)| && Tied(HashKeyOrder(), SortedForHash(rs)[i], SortedForHash(rs)[j]) ==>
              SortedForHash(rs)[i].0 < SortedForHash(rs)[j].0
  {
    var lab := (p: (nat, SourceRecord)) => p.0 as int;
    assert LabelsIncrease(Indexed(rs), lab);
    SortByKeepsTiedOrder(Indexed(rs), HashKeyOrder(), lab);
  }

  /** A date cell after `to_datetime(...).dt.strftime`: a missing date stays missing (`NaT`, printed as `NaN`). */
  function DateCell(d: Option<string>, reformat: string -> Option<string>): Option<string> {
    if d.Some? then reformat(d.value) else None
  }

  /** A present date that does not convert; it makes the whole column raise. */
  predicate Unconvertible(d: Option<string>, reformat: string -> Option<string>) {
    d.Some? && reformat(d.value).None?
  }

  /** The dates rewritten as `%Y-%m-%d`; one present cell that does not convert makes the whole column raise. */
  function Reformat(sorted: seq<(nat, SourceRecord)>, reformat: string -> Option<string>): (r: Option<seq<HashRow>>)
    ensures r.Some? <==> forall i :: 0 <= i < |sorted| ==> !Unconvertible(sorted[i].1.date, reformat)
    ensures r.Some? ==> |r.value| == |sorted| && forall i :: 0 <= i < |sorted| ==>
              r.value[i] == HashRow(sorted[i].0, DateCell(sorted[i].1.date, reformat),
                                    sorted[i].1.name, sorted[i].1.state, sorted[i].1.amount)
  {
    if |sorted| == 0 then Some([])
    else
      var rest := Reformat(sorted[1..], reformat);
      var d := sorted[0].1.date;
      assert forall i :: 1 <= i < |sorted| ==> sorted[i] == sorted[1..][i - 1];
      if Unconvertible(d, reformat) || rest.None? then None
      else Some([HashRow(sorted[0].0, DateCell(d, reformat), sorted[0].1.name, sorted[0].1.state, sorted[0].1.amount)]
                + rest.value)
  }

  /** The columns the hash reads; a missing one raises. */
  predicate HasHashColumns(f: Frame) {
    DateColumn in f.columns && NameColumn in f.columns && StateColumn in f.columns && AmountColumn in f.columns
  }

  /**
   * `calculate_data_hash` on the CSV file's contents (`None`: it could not
   * be read): the MD5 digest of the printed, sorted rows; any error gives `None`.
   */
  function CalculateDataHash(csv: Option<Frame>, h: Hashing): (r: Option<string>)
    ensures r.Some? <==> csv.Some? && HasHashColumns(csv.value)
                         && forall i :: 0 <= i < |csv.value.records| ==> !Unconvertible(csv.value.records[i].date, h.reformat)
  {
    if csv.None? || !HasHashColumns(csv.value) then None
    else
      var sorted := SortedForHash(csv.value.records);
      SortedForHashElements(csv.value.records);
      match Reformat(sorted, h.reformat)
      case None => None
      case Some(rows) => Some(h.md5(h.render(rows)))
  }

  /**
   * The printed rows carry the labels of the unsorted file, so a file and
   * the same two rows in the opposite order feed the same sorted text to
   * the digest only when the two rows are equal: the hash depends on the
   * row order.
   */
  lemma HashOrderSensitive(a: SourceRecord, b: SourceRecord)
    ensures SortedForHash([a, b]) == SortedForHash([b, a]) <==> a == b
  {
    assert Indexed([a, b]) == [(0, a), (1, b)];
    assert Indexed([b, a]) == [(0, b), (1, a)];
    SwappedLabelsDiffer(SortedForHash([a, b]), SortedForHash([b, a]), a, b);
  }

  /** Rows labelled 0, 1 and the same rows labelled 1, 0 coincide only when the rows are equal. */
  lemma SwappedLabelsDiffer(r: seq<(nat, SourceRecord)>, r': seq<(nat, SourceRecord)>, a: SourceRecord, b: SourceRecord)
    requires multiset(r) == multiset([(0, a), (1, b)]) && multiset(r') == multiset([(0, b), (1, a)])
    requires a == b ==> r == r'
    ensures r == r' <==> a == b
  {
    if r == r' {
      assert (0, a) in multiset([(0, a), (1, b)]);
      assert (0, a) in multiset([(0, b), (1, a)]);
    }
  }

  // The model registry.

  /** One company's entry: `last_trained`, `data_hash` and `model_path`. */
  datatype ModelEntry = ModelEntry(lastTrained: string, dataHash: string, modelPath: string)

  /**
   * The registry dict: `models`, `last_updated`, `cache_hits` and
   * `cache_misses`, each of which a stored file may lack, and whether it
   * holds any other key (whose values nothing reads, but which make the
   * dict truthy).
   */
  datatype Registry = Registry(models: Option<map<string, ModelEntry>>, lastUpdated: Option<string>,
                               cacheHits: Option<int>, cacheMisses: Option<int>, otherKeys: bool)

  /** `{}`, the one registry dict that is falsy. */
  const EmptyDict: Registry := Registry(None, None, None, None, false)

  /** The registry `update_model_registry` starts from when there is none. */
  const DefaultRegistry: Registry := Registry(Some(map[]), Some(""), Some(0), Some(0), false)

  /** `models/model_registry.json`: absent, unreadable (or not JSON), or holding a dict. */
  datatype RegistryFile = NoFile | Unreadable | Stored(registry: Registry)

  /** `_load_model_registry`: the stored dict, or `None` when the file is absent or cannot be read. */
  function LoadModelRegistry(f: RegistryFile): (r: Option<Registry>)
    ensures r.Some? <==> f.Stored?
    ensures f.Stored? ==> r.value == f.registry
  {
    if f.Stored? then Some(f.registry) else None
  }

  /** `if registry`: loaded and not `{}`. */
  predicate Truthy(reg: Option<Registry>) {
    reg.Some? && reg.value != EmptyDict
  }

  /** `df['NameAlpha'].unique()`: each name once, a missing name included, in order of appearance. */
  function Companies(f: Frame): (cs: seq<Option<string>>)
    ensures Distinct(cs)
    ensures forall c :: c in cs <==> exists i :: 0 <= i < |f.records| && f.records[i].name == c
  {
    var names := seq(|f.records|, i requires 0 <= i < |f.records| => f.records[i].name);
    assert forall i :: 0 <= i < |f.records| ==> names[i] == f.records[i].name;
    Dedup(names)
  }

  /** The companies of the file, or none when it cannot be read. */
  function CompaniesOf(csv: Option<Frame>): seq<Option<string>> {
    if csv.Some? then Companies(csv.value) else []
  }

  /** A company forces retraining: a missing name, no entry, or an entry trained on other data. */
  predicate Stale(models: map<string, ModelEntry>, c: Option<string>, hash: string) {
    c.None? || c.value !in models || models[c.value].dataHash != hash
  }

  /**
   * `should_retrain_models`, clause by clause: forced; no hash (or an empty
   * one); no registry (or `{}`); a registry without `models` raises at the
   * first company, and the error means retrain; otherwise some company
   * is stale.
   */
  predicate RetrainNeeded(force: bool, hash: Option<string>, reg: Option<Registry>, companies: seq<Option<string>>) {
    if force then true
    else if hash.None? || hash.value == "" then true
    else if !Truthy(reg) then true
    else if reg.value.models.None? then |companies| > 0
    else exists i :: 0 <= i < |companies| && Stale(reg.value.models.value, companies[i], hash.value)
  }

  /**
   * `update_model_registry` on the loaded registry: start from the default
   * when there is none, record the company's entry and the update time;
   * `None` when the registry has no `models` (the assignment raises and
   * nothing is written).
   */
  function Updated(reg: Option<Registry>, company: string, modelPath: string, dataHash: string,
                   trainedAt: string, updatedAt: string): Option<Registry>
  {
    var base := if Truthy(reg) then reg.value else DefaultRegistry;
    if base.models.None? then None
    else Some(base.(models := Some(base.models.value[company := ModelEntry(trainedAt, dataHash, modelPath)]),
                    lastUpdated := Some(updatedAt)))
  }

  /** An update can be written: no registry, `{}`, or one holding `models`. */
  predicate Writable(reg: Option<Registry>) {
    !Truthy(reg) || reg.value.models.Some?
  }

  /**
   * What an update does: the company's entry is set, every other entry and
   * the two counters are those of the registry it started from, and a
   * missing or empty registry is replaced by a fresh one holding only this
   * company; it fails exactly when the registry is a truthy dict (one
   * holding some key) that lacks `models`.
   */
  lemma UpdateEffect(reg: Option<Registry>, company: string, modelPath: string, dataHash: string,
                     trainedAt: string, updatedAt: string)
    ensures Updated(reg, company, modelPath, dataHash, trainedAt, updatedAt).Some? <==> Writable(reg)
    ensures var r := Updated(reg, company, modelPath, dataHash, trainedAt, updatedAt);
            r.Some? ==>
              r.value.models.Some? && company in r.value.models.value
              && r.value.models.value[company] == ModelEntry(trainedAt, dataHash, modelPath)
              && r.value.lastUpdated == Some(updatedAt)
              && (Truthy(reg) ==>
                    r.value.cacheHits == reg.value.cacheHits && r.value.cacheMisses == reg.value.cacheMisses
                    && r.value.otherKeys == reg.value.otherKeys
                    && forall c :: c != company ==>
                         (c in r.value.models.value <==> c in reg.value.models.value)
                         && (c in r.value.models.value ==> r.value.models.value[c] == reg.value.models.value[c]))
              && (!Truthy(reg) ==>
                    r.value.models.value.Keys == {company} && r.value.cacheHits == Some(0) && r.value.cacheMisses == Some(0))
  {
  }

  /** An update leaves the registry writable. */
  lemma UpdatedWritable(reg: Option<Registry>, company: string, modelPath: string, dataHash: string,
                        trainedAt: string, updatedAt: string)
    requires Writable(reg)
    ensures var r := Updated(reg, company, modelPath, dataHash, trainedAt, updatedAt);
            r.Some? && Truthy(r) && Writable(r)
  {
  }

  /**
   * A stored dict that lacks `models` but holds some other key is truthy:
   * an update raises `KeyError` and writes nothing, and the retraining check
   * raises (and so asks for retraining) only when there is a company to look
   * up, answering `False` for a file without companies.
   */
  lemma RegistryWithoutModels(reg: Registry, company: string, modelPath: string, dataHash: string,
                              trainedAt: string, updatedAt: string, hash: string, companies: seq<Option<string>>)
    requires reg.models.None? && reg.otherKeys && hash != ""
    ensures Truthy(Some(reg)) && !Writable(Some(reg))
    ensures Updated(Some(reg), company, modelPath, dataHash, trainedAt, updatedAt).None?
    ensures RetrainNeeded(false, Some(hash), Some(reg), companies) <==> |companies| > 0
  {
  }

  /** Updating each company in turn, each with the path `modelPath` gives it and the same hash. */
  function UpdateAll(reg: Option<Registry>, companies: seq<string>, modelPath: string -> string, dataHash: string,
                     trainedAt: string, updatedAt: string): Option<Registry>
    decreases |companies|
  {
    if |companies| == 0 then reg
    else
      var next := Updated(reg, companies[0], modelPath(companies[0]), dataHash, trainedAt, updatedAt);
      UpdateAll(if next.Some? then next else reg, companies[1..], modelPath, dataHash, trainedAt, updatedAt)
  }

  /** The entries of a registry an update starts from: none when it starts afresh. */
  function ModelsOf(reg: Option<Registry>): map<string, ModelEntry> {
    if Truthy(reg) && reg.value.models.Some? then reg.value.models.value else map[]
  }

  lemma {:induction false} UpdateAllRecords(reg: Option<Registry>, companies: seq<string>, modelPath: string -> string,
                                            dataHash: string, trainedAt: string, updatedAt: string)
    requires Writable(reg) && (|companies| > 0 || Truthy(reg))
    ensures var r := UpdateAll(reg, companies, modelPath, dataHash, trainedAt, updatedAt);
            Truthy(r) && Writable(r)
            && (forall c :: c in companies ==> c in ModelsOf(r) && ModelsOf(r)[c].dataHash == dataHash)
            && forall c :: c in ModelsOf(reg) && c !in companies ==> c in ModelsOf(r) && ModelsOf(r)[c] == ModelsOf(reg)[c]
    decreases |companies|
  {
    if |companies| > 0 {
      var next := Updated(reg, companies[0], modelPath(companies[0]), dataHash, trainedAt, updatedAt);
      UpdatedWritable(reg, companies[0], modelPath(companies[0]), dataHash, trainedAt, updatedAt);
      UpdateAllRecords(next, companies[1..], modelPath, dataHash, trainedAt, updatedAt);
      var r := UpdateAll(reg, companies, modelPath, dataHash, trainedAt, updatedAt);
      assert r == UpdateAll(next, companies[1..], modelPath, dataHash, trainedAt, updatedAt);
      assert forall c :: c in companies ==> c == companies[0] || c in companies[1..];
      if companies[0] in companies[1..] {
      } else {
        assert r.value.models.value[companies[0]] == next.value.models.value[companies[0]];
      }
    }
  }

  /**
   * Retraining settles: once every company of the data has been recorded
   * with the data's hash, the same data no longer asks for retraining.
   */
  lemma RetrainIdempotent(reg: Option<Registry>, companies: seq<Option<string>>, names: seq<string>,
                          modelPath: string -> string, hash: string, trainedAt: string, updatedAt: string)
    requires Writable(reg) && hash != "" && |names| > 0
    requires forall i :: 0 <= i < |companies| ==> companies[i].Some? && companies[i].value in names
    ensures !RetrainNeeded(false, Some(hash), UpdateAll(reg, names, modelPath, hash, trainedAt, updatedAt), companies)
  {
    UpdateAllRecords(reg, names, modelPath, hash, trainedAt, updatedAt);
  }

  /**
   * `get_model_path` on the loaded registry and the files that exist: the
   * recorded path when the company has an entry and the file is there.
   */
  predicate HasModelFile(reg: Option<Registry>, company: string, existing: set<string>) {
    Truthy(reg) && reg.value.models.Some? && company in reg.value.models.value
    && reg.value.models.value[company].modelPath in existing
  }

  /** The conversion's result: the path and the rows written, or `None`. */
  function Conversion(data: Option<seq<Record>>, co: Coercions, now: DateTime): Option<(string, seq<CleanRow>)>
    requires Columnwise(co) && ValidStampClock(now)
  {
    if data.None? || |data.value| == 0 then None
    else if exists k :: k in RequiredFields && k !in Columns(data.value) then None
    else
      var rows := CleanData(data.value, co);
      if |rows| == 0 then None else Some((CsvPath(now), rows))
  }

  /**
   * `convert_json_to_csv` gives up on no data, on a required field that no
   * record holds, and on data that cleaning empties; otherwise it writes
   * the cleaned rows to the file named after the clock.
   */
  lemma ConversionGuards(data: Option<seq<Record>>, co: Coercions, now: DateTime)
    requires Columnwise(co) && ValidStampClock(now)
    ensures Conversion(data, co, now).None? <==>
              data.None? || |data.value| == 0
              || (exists k :: k in RequiredFields && forall i :: 0 <= i < |data.value| ==> k !in data.value[i])
              || |CleanData(data.value, co)| == 0
    ensures Conversion(data, co, now).Some? ==>
              Conversion(data, co, now).value == (CsvPath(now), CleanData(data.value, co))
  {
  }

  class DataProcessor {
    /** The registry file. */
    var registryFile: RegistryFile
    /** The paths `os.path.exists` reports. */
    var existingPaths: set<string>
    /** The CSV files the conversions wrote, by path. */
    var csvFiles: map<string, seq<CleanRow>>

    constructor(registryFile: RegistryFile, existingPaths: set<string>)
      ensures this.registryFile == registryFile && this.existingPaths == existingPaths && csvFiles == map[]
    {
      this.registryFile := registryFile;
      this.existingPaths := existingPaths;
      csvFiles := map[];
    }

    /** `convert_json_to_csv`: the path of the file written, or `None`. */
    method ConvertJsonToCsv(data: Option<seq<Record>>, co: Coercions, now: DateTime) returns (path: Option<string>)
      requires Columnwise(co) && ValidStampClock(now)
      modifies this
      ensures var c := Conversion(data, co, now);
              (path.Some? <==> c.Some?)
              && (c.Some? ==> path.value == c.value.0 && csvFiles == old(csvFiles)[c.value.0 := c.value.1]
                                && existingPaths == old(existingPaths) + {c.value.0})
              && (c.None? ==> csvFiles == old(csvFiles) && existingPaths == old(existingPaths))
      ensures registryFile == old(registryFile)
    {
      if data.None? || |data.value| == 0 {
        return None;
      }
      var columns := Columns(data.value);
      var i := 0;
      while i < |RequiredFields|
        invariant 0 <= i <= |RequiredFields|
        invariant forall j :: 0 <= j < i ==> RequiredFields[j] in columns
      {
        if RequiredFields[i] !in columns {
          return None;
        }
        i := i + 1;
      }
      var rows := CleanData(data.value, co);
      if |rows| == 0 {
        return None;
      }
      var p := CsvPath(now);
      csvFiles := csvFiles[p := rows];
      existingPaths := existingPaths + {p};
      path := Some(p);
    }

    /** `should_retrain_models` on the contents of the CSV file. */
    method ShouldRetrainModels(csv: Option<Frame>, forceRetrain: bool, h: Hashing) returns (retrain: bool)
      ensures retrain == RetrainNeeded(forceRetrain, CalculateDataHash(csv, h), LoadModelRegistry(registryFile),
                                       CompaniesOf(csv))
    {
      if forceRetrain {
        return true;
      }
      var currentHash := CalculateDataHash(csv, h);
      if currentHash.None? || currentHash.value == "" {
        return true;
      }
      var registry := LoadModelRegistry(registryFile);
      if !Truthy(registry) {
        return true;
      }
      var companies := CompaniesOf(csv);
      if registry.value.models.None? {
        // `registry['models']` raises at the first company.
        return |companies| > 0;
      }
      var models := registry.value.models.value;
      retrain := false;
      var i := 0;
      while i < |companies|
        invariant 0 <= i <= |companies|
        invariant forall j :: 0 <= j < i ==> !Stale(models, companies[j], currentHash.value)
      {
        if Stale(models, companies[i], currentHash.value) {
          retrain := true;
          break;
        }
        i := i + 1;
      }
    }

    /** `update_model_registry`: the registry file holds the update, or is left as it was when the update raises. */
    method UpdateModelRegistry(company: string, modelPath: string, dataHash: string, trainedAt: string, updatedAt: string)
      modifies this
      ensures var r := Updated(LoadModelRegistry(old(registryFile)), company, modelPath, dataHash, trainedAt, updatedAt);
              registryFile == if r.Some? then Stored(r.value) else old(registryFile)
      ensures existingPaths == old(existingPaths) && csvFiles == old(csvFiles)
    {
      var loaded := LoadModelRegistry(registryFile);
      var registry := if Truthy(loaded) then loaded.value else DefaultRegistry;
      if registry.models.None? {
        return;
      }
      var models := registry.models.value[company := ModelEntry(trainedAt, dataHash, modelPath)];
      registry := registry.(models := Some(models), lastUpdated := Some(updatedAt));
      registryFile := Stored(registry);
    }

    /** `get_model_path`. */
    method GetModelPath(company: string) returns (path: Option<string>)
      ensures var reg := LoadModelRegistry(registryFile);
              (path.Some? <==> HasModelFile(reg, company, existingPaths))
              && (path.Some? ==> path.value == reg.value.models.value[company].modelPath)
    {
      var registry := LoadModelRegistry(registryFile);
      if Truthy(registry) {
        if registry.value.models.None? {
          // `registry["models"]` raises; the error is reported as no path.
          return None;
        }
        var models := registry.value.models.value;
        if company in models {
          var p := models[company].modelPath;
          if p in existingPaths {
            return Some(p);
          }
        }
      }
      return None;
    }
  }
}
