/** Where a run's results land: the relational store, the ClickHouse store and the object store,
    and the router (`ResultStoreHandles`) that picks one of them for the metrics and one for the
    inline samples, falling back to the relational store when a backend is not configured. */
module ResultStore {
  import opened Wrappers
  import opened Json
  import opened Eval
  import opened Effects
  import Metrics
  import SampleOutputs

  // ----- settings -----

  /** The `clickhouse` section of the settings. */
  datatype ClickhouseSettings = ClickhouseSettings(
    url: string,
    database: string,
    username: Option<string>,
    password: Option<string>,
    samplesTable: string,
    metricsTable: string)

  /** The `object_store` section of the settings. */
  datatype ObjectStoreSettings = ObjectStoreSettings(
    endpoint: string,
    region: Option<string>,
    bucket: string,
    accessKey: string,
    secretKey: string,
    usePathStyle: bool)

  /** The two optional sections of the settings that decide which backends exist. */
  datatype StoreSettings = StoreSettings(
    clickhouse: Option<ClickhouseSettings>,
    objectStore: Option<ObjectStoreSettings>)

  // ----- the ClickHouse adapter -----

  /** A row of the ClickHouse metrics table; `run_id` is the UUID's text. */
  datatype ChMetricRow = ChMetricRow(
    runId: string,
    dataset: string,
    subset: Option<string>,
    split: Option<string>,
    metricName: string,
    value: F64,
    nSamples: Option<i64>,
    ciLow: Option<F64>,
    ciHigh: Option<F64>,
    extraJson: Option<string>)

  /** A row of the ClickHouse samples table. */
  datatype ChSampleRow = ChSampleRow(
    runId: string,
    dataset: string,
    subset: Option<string>,
    split: Option<string>,
    sampleIndex: i64,
    input: string,
    reference: Option<string>,
    output: string,
    metricsJson: Option<string>,
    latencyMs: Option<i64>,
    tokenCountsJson: Option<string>,
    errorJson: Option<string>)

  /** The row written for a metric record. A JSON column whose value fails to encode holds the
      empty string (`unwrap_or_default`), not `{}` as in the relational store. */
  function ChMetricRowOf(c: Codec, r: MetricRecord): ChMetricRow {
    ChMetricRow(r.runId.text, r.dataset, r.subset, r.split, r.metricName, r.value, r.nSamples,
                r.ciLow, r.ciHigh, EncodeColumn(c, r.extra, ""))
  }

  function ChSampleRowOf(c: Codec, r: SampleRecord): ChSampleRow {
    ChSampleRow(r.runId.text, r.dataset, r.subset, r.split, r.sampleIndex, r.input, r.reference,
                r.output, EncodeColumn(c, r.metrics, ""), r.latencyMs,
                EncodeColumn(c, SampleOutputs.TokenCountsValue(r), ""),
                EncodeColumn(c, SampleOutputs.ErrorValue(r), ""))
  }

  function ChMetricRowsOf(c: Codec, records: seq<MetricRecord>): seq<ChMetricRow> {
    seq(|records|, i requires 0 <= i < |records| => ChMetricRowOf(c, records[i]))
  }

  function ChSampleRowsOf(c: Codec, records: seq<SampleRecord>): seq<ChSampleRow> {
    seq(|records|, i requires 0 <= i < |records| => ChSampleRowOf(c, records[i]))
  }

  /** One ClickHouse insert of `batch` into `table`: opening the insert is call 0, writing row k is
      call k + 1 and ending the insert is call |batch| + 1. The batch is committed by `end`, so a
      failure at any call leaves the table as it was. */
  function ChInsertSpec<R>(table: seq<R>, batch: seq<R>, fault: Option<Fault>): (seq<R>, Outcome<AnyError>) {
    if Fails(|batch| + 2, fault) then (table, Fail(Message(fault.value.message)))
    else (table + batch, Pass)
  }

  /** ClickHouse `save_samples_inline`: on success the location is the configured samples table. */
  function ChSaveSamplesSpec(rows: seq<ChSampleRow>, c: Codec, table: string, records: seq<SampleRecord>,
                             fault: Option<Fault>): (seq<ChSampleRow>, Result<SampleResultLocation, AnyError>)
  {
    var (after, o) := ChInsertSpec(rows, ChSampleRowsOf(c, records), fault);
    (after, if o.Fail? then Err(o.error) else Ok(ClickHouseLocation(table)))
  }

  /** A ClickHouse metrics insert either appends one row per record, in order, each filed under
      its record's run, or changes nothing and reports the failing call's error; an empty batch
      included. */
  lemma {:induction false} ChInsertAllOrNothing(rows: seq<ChMetricRow>, c: Codec, records: seq<MetricRecord>,
                                                fault: Option<Fault>)
    ensures var (after, o) := ChInsertSpec(rows, ChMetricRowsOf(c, records), fault);
      && (o.Fail? <==> Fails(|records| + 2, fault))
      && (o.Fail? ==> after == rows && o.error == Message(fault.value.message))
      && (o.Pass? ==> after == rows + ChMetricRowsOf(c, records)
                      && |after| == |rows| + |records|
                      && forall i :: 0 <= i < |records| ==>
                           after[|rows| + i].runId == records[i].runId.text
                           && after[|rows| + i].metricName == records[i].metricName
                           && after[|rows| + i].value == records[i].value)
  {
    var (after, o) := ChInsertSpec(rows, ChMetricRowsOf(c, records), fault);
    if o.Pass? {
      forall i | 0 <= i < |records|
        ensures after[|rows| + i] == ChMetricRowOf(c, records[i])
      {
        assert after[|rows| + i] == ChMetricRowsOf(c, records)[i];
      }
    }
  }

  /** The same for a ClickHouse samples insert: all rows, in order, each filed under its record's
      run with its sample index, or none and the failing call's error. */
  lemma {:induction false} ChSampleInsertAllOrNothing(rows: seq<ChSampleRow>, c: Codec,
                                                      records: seq<SampleRecord>, fault: Option<Fault>)
    ensures var (after, o) := ChInsertSpec(rows, ChSampleRowsOf(c, records), fault);
      && (o.Fail? <==> Fails(|records| + 2, fault))
      && (o.Fail? ==> after == rows && o.error == Message(fault.value.message))
      && (o.Pass? ==> after == rows + ChSampleRowsOf(c, records)
                      && |after| == |rows| + |records|
                      && forall i :: 0 <= i < |records| ==>
                           after[|rows| + i].runId == records[i].runId.text
                           && after[|rows| + i].sampleIndex == records[i].sampleIndex
                           && after[|rows| + i].output == records[i].output)
  {
    var (after, o) := ChInsertSpec(rows, ChSampleRowsOf(c, records), fault);
    if o.Pass? {
      forall i | 0 <= i < |records|
        ensures after[|rows| + i] == ChSampleRowOf(c, records[i])
      {
        assert after[|rows| + i] == ChSampleRowsOf(c, records)[i];
      }
    }
  }

  /** The JSON columns of a ClickHouse row read back as written when the value encodes; a value
      that does not encode is stored as the empty string, where the relational store writes
      `{}`. */
  lemma {:induction false} ChJsonColumns(c: Codec, r: MetricRecord)
    requires Faithful(c) && r.extra.Some?
    ensures c.encode(r.extra.value).Some? ==> DecodeColumn(c, ChMetricRowOf(c, r).extraJson) == r.extra
    ensures c.encode(r.extra.value).None? ==>
      && ChMetricRowOf(c, r).extraJson == Some("")
      && forall st :: Metrics.RowOf(c, r, st).extraJson == Some("{}")
  {
    ColumnRoundTrip(c, r.extra, "");
  }

  /** The ClickHouse store: a client with its credentials and the two tables it writes. */
  class ClickHouseResultStore {
    const settings: ClickhouseSettings
    const user: string
    const password: string
    var metricRows: seq<ChMetricRow>
    var sampleRows: seq<ChSampleRow>

    /** The client built from the section: user `default` and an empty password unless given. */
    constructor (cfg: ClickhouseSettings, metricRows: seq<ChMetricRow>, sampleRows: seq<ChSampleRow>)
      ensures settings == cfg
      ensures cfg.username.Some? ==> user == cfg.username.value
      ensures cfg.username.None? ==> user == "default"
      ensures cfg.password.Some? ==> password == cfg.password.value
      ensures cfg.password.None? ==> password == ""
      ensures this.metricRows == metricRows && this.sampleRows == sampleRows
    {
      settings := cfg;
      user := cfg.username.GetOr("default");
      password := cfg.password.GetOr("");
      this.metricRows := metricRows;
      this.sampleRows := sampleRows;
    }

    /** `save_metrics`: one insert into the metrics table, one write per record, then `end`. */
    method SaveMetrics(c: Codec, records: seq<MetricRecord>, fault: Option<Fault>)
      returns (r: Outcome<AnyError>)
      modifies this
      ensures (metricRows, r) == ChInsertSpec(old(metricRows), ChMetricRowsOf(c, records), fault)
      ensures sampleRows == old(sampleRows)
    {
      if Fails(1, fault) {
        return Fail(Message(fault.value.message));
      }
      var batch: seq<ChMetricRow> := [];
      for i := 0 to |records|
        invariant !Fails(i + 1, fault)
        invariant batch == ChMetricRowsOf(c, records[..i])
      {
        if fault.Some? && fault.value.step == i + 1 {
          return Fail(Message(fault.value.message));
        }
        batch := batch + [ChMetricRowOf(c, records[i])];
      }
      assert records[..|records|] == records;
      if fault.Some? && fault.value.step == |records| + 1 {
        return Fail(Message(fault.value.message));
      }
      metricRows := metricRows + batch;
      r := Pass;
    }

    /** `save_samples_inline`: one insert into the samples table, one write per record, then
        `end`; the location is the configured samples table. */
    method SaveSamplesInline(c: Codec, records: seq<SampleRecord>, fault: Option<Fault>)
      returns (r: Result<SampleResultLocation, AnyError>)
      modifies this
      ensures (sampleRows, r) == ChSaveSamplesSpec(old(sampleRows), c, settings.samplesTable, records, fault)
      ensures metricRows == old(metricRows)
    {
      if Fails(1, fault) {
        return Err(Message(fault.value.message));
      }
      var batch: seq<ChSampleRow> := [];
      for i := 0 to |records|
        invariant !Fails(i + 1, fault)
        invariant batch == ChSampleRowsOf(c, records[..i])
      {
        if fault.Some? && fault.value.step == i + 1 {
          return Err(Message(fault.value.message));
        }
        batch := batch + [ChSampleRowOf(c, records[i])];
      }
      assert records[..|records|] == records;
      if fault.Some? && fault.value.step == |records| + 1 {
        return Err(Message(fault.value.message));
      }
      sampleRows := sampleRows + batch;
      r := Ok(ClickHouseLocation(settings.samplesTable));
    }

    /** `save_samples_location`: records nothing. */
    method SaveSamplesLocation(runId: Uuid, location: SampleResultLocation) returns (r: Outcome<AnyError>)
      ensures r == Pass
    {
      r := Pass;
    }
  }

  // ----- the object-store adapter -----

  const MetricsUnsupported: string := "ObjectStoreResultStore does not support metrics"

  /** The object key of a run's samples. */
  function SamplesKey(runId: Uuid): string {
    "runs/" + runId.text + "/samples.jsonl"
  }

  /** The run a batch of samples is filed under: the first record's, or a fresh id when there is
      no record. */
  function BatchRunId(records: seq<SampleRecord>, freshId: Uuid): Uuid {
    if |records| > 0 then records[0].runId else freshId
  }

  /** One record's line: its serde JSON text, or `{}` when it does not encode. */
  function EncodedLine(c: Codec, r: SampleRecord): string {
    c.encode(SampleRecordJson(r)).GetOr("{}")
  }

  /** The JSONL body: every record's line followed by a line break, in input order. */
  function JsonlBody(c: Codec, records: seq<SampleRecord>): string {
    if records == [] then ""
    else EncodedLine(c, records[0]) + "\n" + JsonlBody(c, records[1..])
  }

  /** `put_object` of the body under the run's key, then the location `<bucket>/<key>`. */
  function PutSamplesSpec(objects: map<string, string>, c: Codec, bucket: string,
                          records: seq<SampleRecord>, freshId: Uuid, fault: Option<Fault>)
    : (map<string, string>, Result<SampleResultLocation, AnyError>)
  {
    var key := SamplesKey(BatchRunId(records, freshId));
    if Fails(1, fault) then (objects, Err(Message(fault.value.message)))
    else (objects[key := JsonlBody(c, records)], Ok(ObjectStoreLocation(bucket + "/" + key, "jsonl")))
  }

  /** Appending a record to the batch appends its line to the body. */
  lemma {:induction false} JsonlBodySnoc(c: Codec, records: seq<SampleRecord>, r: SampleRecord)
    ensures JsonlBody(c, records + [r]) == JsonlBody(c, records) + EncodedLine(c, r) + "\n"
  {
    if records == [] {
      assert [] + [r] == [r];
      assert [r][1..] == [];
    } else {
      assert (records + [r])[0] == records[0];
      assert (records + [r])[1..] == records[1..] + [r];
      JsonlBodySnoc(c, records[1..], r);
    }
  }

  /** Distinct runs get distinct keys. */
  lemma SamplesKeyInjective(a: Uuid, b: Uuid)
    requires SamplesKey(a) == SamplesKey(b)
    ensures a == b
  {
    var ka := SamplesKey(a);
    var kb := SamplesKey(b);
    assert |a.text| == |b.text|;
    assert a.text == ka[5..5 + |a.text|];
    assert b.text == kb[5..5 + |b.text|];
  }

  /** The index of the first line break of `s`. */
  function LineEnd(s: string): (i: nat)
    requires '\n' in s
    ensures i < |s| && s[i] == '\n' && '\n' !in s[..i]
  {
    if s[0] == '\n' then 0
    else
      assert s == [s[0]] + s[1..];
      var j := LineEnd(s[1..]);
      assert s[..1 + j] == [s[0]] + s[1..][..j];
      1 + j
  }

  /** Splitting text into lines at each line break; a last line without a break still counts. */
  function SplitLines(s: string): seq<string>
    decreases |s|
  {
    if s == [] then []
    else if '\n' !in s then [s]
    else
      var i := LineEnd(s);
      [s[..i]] + SplitLines(s[i + 1..])
  }

  lemma SplitFirstLine(line: string, rest: string)
    requires '\n' !in line
    ensures SplitLines(line + "\n" + rest) == [line] + SplitLines(rest)
  {
    var s := line + "\n" + rest;
    assert s[|line|] == '\n';
    var i := LineEnd(s);
    assert s[..i] == line;
    assert s[i + 1..] == rest;
  }

  /** No line of the body contains a break of its own when the codec's output has none. */
  lemma LineHasNoBreak(c: Codec, r: SampleRecord)
    requires NoNewlines(c)
    ensures '\n' !in EncodedLine(c, r)
  {
    if c.encode(SampleRecordJson(r)).None? {
      assert EncodedLine(c, r) == "{}";
    }
  }

  /** The body splits back into exactly one line per record, in input order. */
  lemma {:induction false} JsonlLines(c: Codec, records: seq<SampleRecord>)
    requires NoNewlines(c)
    ensures SplitLines(JsonlBody(c, records)) == seq(|records|, i requires 0 <= i < |records| => EncodedLine(c, records[i]))
  {
    if records != [] {
      LineHasNoBreak(c, records[0]);
      SplitFirstLine(EncodedLine(c, records[0]), JsonlBody(c, records[1..]));
      JsonlLines(c, records[1..]);
    }
  }

  /** Reading a JSONL body back: each line parsed and read as a sample record. */
  function ParseLines(c: Codec, lines: seq<string>): Option<seq<SampleRecord>> {
    if lines == [] then Some([])
    else
      var j :- c.decode(lines[0]);
      var r :- SampleRecordFromJson(j);
      var rest :- ParseLines(c, lines[1..]);
      Some([r] + rest)
  }

  function ReadJsonl(c: Codec, body: string): Option<seq<SampleRecord>> {
    ParseLines(c, SplitLines(body))
  }

  /** A record whose line reads back as itself: it encodes, and its `metrics` is not an explicit
      JSON null (which serde reads back as absent). */
  ghost predicate RoundTrips(c: Codec, r: SampleRecord) {
    c.encode(SampleRecordJson(r)).Some? && r.metrics != Some(JNull)
  }

  lemma {:induction false} ParseEncodedLines(c: Codec, records: seq<SampleRecord>)
    requires Faithful(c)
    requires forall i :: 0 <= i < |records| ==> RoundTrips(c, records[i])
    ensures ParseLines(c, seq(|records|, i requires 0 <= i < |records| => EncodedLine(c, records[i]))) == Some(records)
  {
    var lines := seq(|records|, i requires 0 <= i < |records| => EncodedLine(c, records[i]));
    if records != [] {
      assert RoundTrips(c, records[0]);
      SampleRecordJsonRoundTrip(records[0]);
      assert lines[1..] == seq(|records[1..]|, i requires 0 <= i < |records[1..]| => EncodedLine(c, records[1..][i]));
      ParseEncodedLines(c, records[1..]);
      assert [records[0]] + records[1..] == records;
    }
  }

  /** The object written holds the batch: with a faithful, single-line codec, reading the body
      back gives exactly the records, in order. */
  lemma JsonlRoundTrip(c: Codec, records: seq<SampleRecord>)
    requires Faithful(c) && NoNewlines(c)
    requires forall i :: 0 <= i < |records| ==> RoundTrips(c, records[i])
    ensures ReadJsonl(c, JsonlBody(c, records)) == Some(records)
  {
    JsonlLines(c, records);
    ParseEncodedLines(c, records);
  }

  /** The object store: the objects of the configured bucket, by key. */
  class ObjectStoreResultStore {
    const settings: ObjectStoreSettings
    var objects: map<string, string>

    constructor (cfg: ObjectStoreSettings, objects: map<string, string>)
      ensures settings == cfg && this.objects == objects
    {
      settings := cfg;
      this.objects := objects;
    }

    /** `save_metrics`: this store does not take metrics. */
    method SaveMetrics(records: seq<MetricRecord>) returns (r: Outcome<AnyError>)
      ensures r == Fail(Message(MetricsUnsupported))
    {
      r := Fail(Message(MetricsUnsupported));
    }

    /** `save_samples_inline`: builds the JSONL body line by line and puts it under the run's
        key. */
    method SaveSamplesInline(c: Codec, records: seq<SampleRecord>, freshId: Uuid, fault: Option<Fault>)
      returns (r: Result<SampleResultLocation, AnyError>)
      modifies this
      ensures (objects, r) == PutSamplesSpec(old(objects), c, settings.bucket, records, freshId, fault)
    {
      var runId := if |records| > 0 then records[0].runId else freshId;
      var key := "runs/" + runId.text + "/samples.jsonl";
      var body := "";
      for i := 0 to |records|
        invariant body == JsonlBody(c, records[..i])
        invariant objects == old(objects)
      {
        assert records[..i + 1] == records[..i] + [records[i]];
        JsonlBodySnoc(c, records[..i], records[i]);
        body := body + EncodedLine(c, records[i]) + "\n";
      }
      assert records[..|records|] == records;
      if Fails(1, fault) {
        return Err(Message(fault.value.message));
      }
      objects := objects[key := body];
      r := Ok(ObjectStoreLocation(settings.bucket + "/" + key, "jsonl"));
    }

    /** `save_samples_location`: records nothing. */
    method SaveSamplesLocation(runId: Uuid, location: SampleResultLocation) returns (r: Outcome<AnyError>)
      ensures r == Pass
    {
      r := Pass;
    }
  }

  /** On success the location names the object just written and that object is the batch's body;
      every other object is untouched. */
  lemma PutSamplesWritesItsLocation(objects: map<string, string>, c: Codec, bucket: string,
                                    records: seq<SampleRecord>, freshId: Uuid, fault: Option<Fault>)
    ensures var (after, r) := PutSamplesSpec(objects, c, bucket, records, freshId, fault);
      var key := SamplesKey(BatchRunId(records, freshId));
      && (r.Err? <==> Fails(1, fault))
      && (r.Err? ==> after == objects)
      && (r.Ok? ==> r.value == ObjectStoreLocation(bucket + "/" + key, "jsonl")
                    && key in after && after[key] == JsonlBody(c, records)
                    && forall k :: k in objects && k != key ==> k in after && after[k] == objects[k])
      && (|records| > 0 ==> key == "runs/" + records[0].runId.text + "/samples.jsonl")
  {
  }

  // ----- the relational adapter -----

  /** The relational store: the `metrics` and `sample_outputs` tables of the database. */
  class DbResultStore {
    const metrics: Metrics.MetricTable
    const samples: SampleOutputs.SampleOutputTable

    constructor (metrics: Metrics.MetricTable, samples: SampleOutputs.SampleOutputTable)
      ensures this.metrics == metrics && this.samples == samples
    {
      this.metrics := metrics;
      this.samples := samples;
    }

    /** `save_metrics`: `metrics::save_records`, its error passed up. */
    method SaveMetrics(c: Codec, records: seq<MetricRecord>, stamps: seq<Stamp>, fault: Option<Fault>)
      returns (r: Outcome<AnyError>)
      requires |stamps| == |records|
      modifies metrics
      ensures (metrics.rows, r) == DbSaveMetricsSpec(old(metrics.rows), c, records, stamps, fault)
    {
      var o := metrics.SaveRecords(c, records, stamps, fault);
      r := if o.Fail? then Fail(FromDomain(o.error)) else Pass;
    }

    /** `save_samples_inline`: `sample_outputs::save_inline`, its error passed up. */
    method SaveSamplesInline(c: Codec, records: seq<SampleRecord>, stamps: seq<Stamp>, fault: Option<Fault>)
      returns (r: Result<SampleResultLocation, AnyError>)
      requires |stamps| == |records|
      modifies samples
      ensures (samples.rows, r) == DbSaveSamplesSpec(old(samples.rows), c, records, stamps, fault)
    {
      var o := samples.SaveInline(c, records, stamps, fault);
      r := if o.Err? then Err(FromDomain(o.error)) else Ok(o.value);
    }

    /** `save_samples_location`: a location that is not inline is recorded nowhere. */
    method SaveSamplesLocation(runId: Uuid, location: SampleResultLocation) returns (r: Outcome<AnyError>)
      ensures r == Pass
    {
      r := Pass;
    }
  }

  function DbSaveMetricsSpec(rows: seq<Metrics.MetricRow>, c: Codec, records: seq<MetricRecord>,
                             stamps: seq<Stamp>, fault: Option<Fault>): (seq<Metrics.MetricRow>, Outcome<AnyError>)
    requires |stamps| == |records|
  {
    var (after, o) := Metrics.SaveRecordsSpec(rows, c, records, stamps, fault);
    (after, if o.Fail? then Fail(FromDomain(o.error)) else Pass)
  }

  function DbSaveSamplesSpec(rows: seq<SampleOutputs.SampleOutputRow>, c: Codec, records: seq<SampleRecord>,
                             stamps: seq<Stamp>, fault: Option<Fault>)
    : (seq<SampleOutputs.SampleOutputRow>, Result<SampleResultLocation, AnyError>)
    requires |stamps| == |records|
  {
    var (after, o) := SampleOutputs.SaveInlineSpec(rows, c, records, stamps, fault);
    (after, if o.Err? then Err(FromDomain(o.error)) else Ok(o.value))
  }

  // ----- routing -----

  /** The store a piece of the result is written to. */
  datatype Backend = ToDb | ToClickHouse | ToObjectStore

  /** The store an output mode asks for: the mode's own backend. */
  function PreferredBackend(output: OutputConfig): Backend {
    match output
    case DbOnly => ToDb
    case ObjectStore(_, _) => ToObjectStore
    case ClickHouse(_) => ToClickHouse
    case Hybrid(_, _) => ToClickHouse
  }

  /** Whether the store is there: the relational store always is, the others when their settings
      section is present. */
  predicate Configured(b: Backend, chOn: bool, objOn: bool) {
    match b
    case ToDb => true
    case ToClickHouse => chOn
    case ToObjectStore => objOn
  }

  /** `save_metrics`'s choice: ClickHouse for the ClickHouse mode when a ClickHouse store exists,
      the relational store otherwise (also for Hybrid). */
  function MetricsBackend(output: OutputConfig, chOn: bool): (b: Backend)
    ensures b == ToClickHouse <==> output.ClickHouse? && chOn
    ensures b != ToObjectStore
    ensures Configured(b, chOn, false)
  {
    match output
    case ClickHouse(_) => if chOn then ToClickHouse else ToDb
    case _ => ToDb
  }

  /** `save_samples`'s choice: a store only for inline samples; the mode's own store when it is
      configured, the relational store otherwise. */
  function SamplesBackend(output: OutputConfig, samples: SampleResultLocation, chOn: bool, objOn: bool)
    : (b: Option<Backend>)
    ensures b.Some? <==> samples.Inline?
    ensures b.Some? ==> Configured(b.value, chOn, objOn)
  {
    match samples
    case Inline(_) =>
      (match output
       case DbOnly => Some(ToDb)
       case ObjectStore(_, _) => if objOn then Some(ToObjectStore) else Some(ToDb)
       case ClickHouse(_) => if chOn then Some(ToClickHouse) else Some(ToDb)
       case Hybrid(_, _) => if chOn then Some(ToClickHouse) else Some(ToDb))
    case _ => None
  }

  /** Inline samples go to the mode's own store if it is configured and to the relational store
      if not; nothing else is ever chosen. */
  lemma SamplesFallBackToDb(output: OutputConfig, samples: SampleResultLocation, chOn: bool, objOn: bool)
    requires samples.Inline?
    ensures var p := PreferredBackend(output);
      SamplesBackend(output, samples, chOn, objOn) == Some(if Configured(p, chOn, objOn) then p else ToDb)
  {
  }

  /** Metrics follow the same rule except that only the ClickHouse mode leaves the relational
      store; the Hybrid mode's metrics stay in the relational store even with ClickHouse
      configured. */
  lemma MetricsRoutingDiffersForHybrid(table: string, uri: Option<string>, samples: seq<SampleRecord>)
    ensures MetricsBackend(Hybrid(table, uri), true) == ToDb
    ensures SamplesBackend(Hybrid(table, uri), Inline(samples), true, true) == Some(ToClickHouse)
  {
  }

  // ----- the router -----

  /** Everything the stores hold: the two relational tables, the two ClickHouse tables (empty
      when there is no ClickHouse store) and the bucket's objects (empty when there is no object
      store). */
  datatype StoresState = StoresState(
    dbMetrics: seq<Metrics.MetricRow>,
    dbSamples: seq<SampleOutputs.SampleOutputRow>,
    chMetrics: seq<ChMetricRow>,
    chSamples: seq<ChSampleRow>,
    objects: map<string, string>)

  /** What the environment supplies to one `persist_eval_result`: the fresh ids and clock
      readings of the relational inserts, the failure (if any) of each of the two saves, and the
      fresh id used when an empty batch goes to the object store. */
  datatype PersistEnv = PersistEnv(
    metricStamps: seq<Stamp>,
    sampleStamps: seq<Stamp>,
    metricsFault: Option<Fault>,
    samplesFault: Option<Fault>,
    freshRunId: Uuid)

  /** The environment has one stamp per record of the result. */
  predicate StampsFit(result: EvalResult, env: PersistEnv) {
    && |env.metricStamps| == |result.metrics|
    && (result.samples.Inline? ==> |env.sampleStamps| == |result.samples.samples|)
  }

  /** The router's `save_metrics`. */
  function SaveMetricsSpec(st: StoresState, c: Codec, s: StoreSettings, output: OutputConfig,
                           records: seq<MetricRecord>, stamps: seq<Stamp>, fault: Option<Fault>)
    : (StoresState, Outcome<AnyError>)
    requires |stamps| == |records|
  {
    if MetricsBackend(output, s.clickhouse.Some?) == ToClickHouse then
      var (rows, o) := ChInsertSpec(st.chMetrics, ChMetricRowsOf(c, records), fault);
      (st.(chMetrics := rows), o)
    else
      var (rows, o) := DbSaveMetricsSpec(st.dbMetrics, c, records, stamps, fault);
      (st.(dbMetrics := rows), o)
  }

  /** The router's `save_samples`: the location an adapter returns is dropped. */
  function SaveSamplesSpec(st: StoresState, c: Codec, s: StoreSettings, output: OutputConfig,
                           samples: SampleResultLocation, stamps: seq<Stamp>, fault: Option<Fault>,
                           freshId: Uuid)
    : (StoresState, Outcome<AnyError>)
    requires samples.Inline? ==> |stamps| == |samples.samples|
  {
    match SamplesBackend(output, samples, s.clickhouse.Some?, s.objectStore.Some?)
    case None => (st, Pass)
    case Some(ToDb) =>
      var (rows, r) := DbSaveSamplesSpec(st.dbSamples, c, samples.samples, stamps, fault);
      (st.(dbSamples := rows), if r.Err? then Fail(r.error) else Pass)
    case Some(ToClickHouse) =>
      var (rows, r) := ChSaveSamplesSpec(st.chSamples, c, s.clickhouse.value.samplesTable, samples.samples, fault);
      (st.(chSamples := rows), if r.Err? then Fail(r.error) else Pass)
    case Some(ToObjectStore) =>
      var (objs, r) := PutSamplesSpec(st.objects, c, s.objectStore.value.bucket, samples.samples, freshId, fault);
      (st.(objects := objs), if r.Err? then Fail(r.error) else Pass)
  }

  /** `persist_eval_result`: the metrics, then the samples; a failure stops it. */
  function PersistSpec(st: StoresState, c: Codec, s: StoreSettings, output: OutputConfig,
                       result: EvalResult, env: PersistEnv): (StoresState, Outcome<AnyError>)
    requires StampsFit(result, env)
  {
    var (st1, m) := SaveMetricsSpec(st, c, s, output, result.metrics, env.metricStamps, env.metricsFault);
    if m.Fail? then (st1, m)
    else SaveSamplesSpec(st1, c, s, output, result.samples, env.sampleStamps, env.samplesFault, env.freshRunId)
  }

  /** The parts of the state that hold samples. */
  predicate SampleStoresUnchanged(a: StoresState, b: StoresState) {
    a.dbSamples == b.dbSamples && a.chSamples == b.chSamples && a.objects == b.objects
  }

  /** Metrics are saved first: when that fails, its error is the result and no sample store is
      touched. */
  lemma PersistStopsAfterMetricsFailure(st: StoresState, c: Codec, s: StoreSettings, output: OutputConfig,
                                        result: EvalResult, env: PersistEnv)
    requires StampsFit(result, env)
    requires SaveMetricsSpec(st, c, s, output, result.metrics, env.metricStamps, env.metricsFault).1.Fail?
    ensures var (after, r) := PersistSpec(st, c, s, output, result, env);
      && r == SaveMetricsSpec(st, c, s, output, result.metrics, env.metricStamps, env.metricsFault).1
      && SampleStoresUnchanged(st, after)
  {
  }

  /** A result whose samples are not inline writes samples nowhere: only the metrics change. */
  lemma PersistNonInlineWritesNoSamples(st: StoresState, c: Codec, s: StoreSettings, output: OutputConfig,
                                        result: EvalResult, env: PersistEnv)
    requires StampsFit(result, env)
    requires !result.samples.Inline?
    ensures var (after, r) := PersistSpec(st, c, s, output, result, env);
      && SampleStoresUnchanged(st, after)
      && (after, r) == SaveMetricsSpec(st, c, s, output, result.metrics, env.metricStamps, env.metricsFault)
  {
  }

  /** Metrics land in exactly one store, the one `MetricsBackend` names; the object store never
      receives metrics. On success every record has its row there. */
  lemma PersistMetricsLandInOneStore(st: StoresState, c: Codec, s: StoreSettings, output: OutputConfig,
                                     result: EvalResult, env: PersistEnv)
    requires StampsFit(result, env)
    ensures var (after, r) := SaveMetricsSpec(st, c, s, output, result.metrics, env.metricStamps, env.metricsFault);
      var b := MetricsBackend(output, s.clickhouse.Some?);
      && after.objects == st.objects
      && SampleStoresUnchanged(st, after)
      && (b == ToDb ==> after.chMetrics == st.chMetrics)
      && (b == ToClickHouse ==> after.dbMetrics == st.dbMetrics)
      && (r.Pass? && b == ToDb ==>
            after.dbMetrics == st.dbMetrics + Metrics.RowsOf(c, result.metrics, env.metricStamps))
      && (r.Pass? && b == ToClickHouse ==> after.chMetrics == st.chMetrics + ChMetricRowsOf(c, result.metrics))
  {
    assert result.metrics[..|result.metrics|] == result.metrics;
    assert env.metricStamps[..|env.metricStamps|] == env.metricStamps;
  }

  /** A successful `persist_eval_result` keeps every metric it saved: the chosen store holds one
      row per record of the result after the old rows, and the samples step left it alone; the
      other metrics store is untouched. */
  lemma {:induction false} PersistKeepsEveryMetric(st: StoresState, c: Codec, s: StoreSettings,
                                                   output: OutputConfig, result: EvalResult, env: PersistEnv)
    requires StampsFit(result, env)
    ensures var (after, r) := PersistSpec(st, c, s, output, result, env);
      var b := MetricsBackend(output, s.clickhouse.Some?);
      && (b == ToDb ==> after.chMetrics == st.chMetrics)
      && (b == ToClickHouse ==> after.dbMetrics == st.dbMetrics)
      && (r.Pass? && b == ToDb ==>
            after.dbMetrics == st.dbMetrics + Metrics.RowsOf(c, result.metrics, env.metricStamps))
      && (r.Pass? && b == ToClickHouse ==>
            after.chMetrics == st.chMetrics + ChMetricRowsOf(c, result.metrics))
  {
    PersistMetricsLandInOneStore(st, c, s, output, result, env);
  }

  /** Inline samples land in exactly one store, the one `SamplesBackend` names, and the other two
      sample stores are untouched; on success nothing is dropped: the relational store has a row
      per record, ClickHouse the batch, the object store the body under the run's key. */
  lemma PersistSamplesLandInOneStore(st: StoresState, c: Codec, s: StoreSettings, output: OutputConfig,
                                     result: EvalResult, env: PersistEnv)
    requires StampsFit(result, env)
    requires result.samples.Inline?
    ensures var st1 := SaveMetricsSpec(st, c, s, output, result.metrics, env.metricStamps, env.metricsFault).0;
      var (after, r) := PersistSpec(st, c, s, output, result, env);
      var rs := result.samples.samples;
      var b := SamplesBackend(output, result.samples, s.clickhouse.Some?, s.objectStore.Some?).value;
      && (b != ToDb ==> after.dbSamples == st1.dbSamples)
      && (b != ToClickHouse ==> after.chSamples == st1.chSamples)
      && (b != ToObjectStore ==> after.objects == st1.objects)
      && (r.Pass? && b == ToDb ==>
            after.dbSamples == st1.dbSamples + SampleOutputs.RowsOf(c, rs, env.sampleStamps))
      && (r.Pass? && b == ToClickHouse ==> after.chSamples == st1.chSamples + ChSampleRowsOf(c, rs))
      && (r.Pass? && b == ToObjectStore ==>
            var key := SamplesKey(BatchRunId(rs, env.freshRunId));
            key in after.objects && after.objects[key] == JsonlBody(c, rs))
  {
    var (st1, m) := SaveMetricsSpec(st, c, s, output, result.metrics, env.metricStamps, env.metricsFault);
    var rs := result.samples.samples;
    var b := SamplesBackend(output, result.samples, s.clickhouse.Some?, s.objectStore.Some?).value;
    assert rs[..|rs|] == rs;
    assert env.sampleStamps[..|env.sampleStamps|] == env.sampleStamps;
  }

  /** The three backends: the relational store always, the others when their section is
      present. */
  class ResultStoreHandles {
    const db: DbResultStore
    const clickhouse: Option<ClickHouseResultStore>
    const objectStore: Option<ObjectStoreResultStore>

    /** `new`: a ClickHouse store exactly when the `clickhouse` section is present and an object
        store exactly when the `object_store` section is, each built from its section over the
        tables or bucket it names (given here by their current contents). */
    constructor (s: StoreSettings, metrics: Metrics.MetricTable, samples: SampleOutputs.SampleOutputTable,
                 chMetrics: seq<ChMetricRow>, chSamples: seq<ChSampleRow>, objects: map<string, string>)
      ensures db.metrics == metrics && db.samples == samples
      ensures Settings() == s
      ensures clickhouse.Some? ==> fresh(clickhouse.value)
      ensures objectStore.Some? ==> fresh(objectStore.value)
      ensures Snapshot() == StoresState(metrics.rows, samples.rows,
                                        if s.clickhouse.Some? then chMetrics else [],
                                        if s.clickhouse.Some? then chSamples else [],
                                        if s.objectStore.Some? then objects else map[])
    {
      db := new DbResultStore(metrics, samples);
      if s.clickhouse.Some? {
        var ch := new ClickHouseResultStore(s.clickhouse.value, chMetrics, chSamples);
        clickhouse := Some(ch);
      } else {
        clickhouse := None;
      }
      if s.objectStore.Some? {
        var obj := new ObjectStoreResultStore(s.objectStore.value, objects);
        objectStore := Some(obj);
      } else {
        objectStore := None;
      }
    }

    /** The settings sections the present backends were built from. */
    function Settings(): StoreSettings {
      StoreSettings(if clickhouse.Some? then Some(clickhouse.value.settings) else None,
                    if objectStore.Some? then Some(objectStore.value.settings) else None)
    }

    /** The objects whose state the router changes. */
    function Stores(): set<object> {
      {db.metrics, db.samples}
      + (if clickhouse.Some? then {clickhouse.value} else {})
      + (if objectStore.Some? then {objectStore.value} else {})
    }

    function Snapshot(): StoresState
      reads Stores()
    {
      StoresState(db.metrics.rows, db.samples.rows,
                  if clickhouse.Some? then clickhouse.value.metricRows else [],
                  if clickhouse.Some? then clickhouse.value.sampleRows else [],
                  if objectStore.Some? then objectStore.value.objects else map[])
    }

    /** `persist_eval_result`: saves the metrics, then the samples. */
    method PersistEvalResult(c: Codec, config: EvalConfig, result: EvalResult, env: PersistEnv)
      returns (r: Outcome<AnyError>)
      requires StampsFit(result, env)
      modifies Stores()
      ensures (Snapshot(), r) == PersistSpec(old(Snapshot()), c, Settings(), config.output, result, env)
    {
      r := SaveMetrics(c, config, result, env);
      if r.Fail? {
        return;
      }
      r := SaveSamples(c, config, result, env);
    }

    /** The router's `save_metrics`. */
    method SaveMetrics(c: Codec, config: EvalConfig, result: EvalResult, env: PersistEnv)
      returns (r: Outcome<AnyError>)
      requires StampsFit(result, env)
      modifies Stores()
      ensures (Snapshot(), r)
           == SaveMetricsSpec(old(Snapshot()), c, Settings(), config.output, result.metrics,
                              env.metricStamps, env.metricsFault)
    {
      if config.output.ClickHouse? && clickhouse.Some? {
        r := clickhouse.value.SaveMetrics(c, result.metrics, env.metricsFault);
      } else {
        r := db.SaveMetrics(c, result.metrics, env.metricStamps, env.metricsFault);
      }
    }

    /** The router's `save_samples`. */
    method SaveSamples(c: Codec, config: EvalConfig, result: EvalResult, env: PersistEnv)
      returns (r: Outcome<AnyError>)
      requires StampsFit(result, env)
      modifies Stores()
      ensures (Snapshot(), r)
           == SaveSamplesSpec(old(Snapshot()), c, Settings(), config.output, result.samples,
                              env.sampleStamps, env.samplesFault, env.freshRunId)
    {
      if !result.samples.Inline? {
        r := db.SaveSamplesLocation(result.runId, result.samples);
        return;
      }
      var samples := result.samples.samples;
      var loc: Result<SampleResultLocation, AnyError>;
      match config.output {
      case DbOnly =>
        loc := db.SaveSamplesInline(c, samples, env.sampleStamps, env.samplesFault);
      case ObjectStore(_, _) =>
        if objectStore.Some? {
          loc := objectStore.value.SaveSamplesInline(c, samples, env.freshRunId, env.samplesFault);
        } else {
          loc := db.SaveSamplesInline(c, samples, env.sampleStamps, env.samplesFault);
        }
      case ClickHouse(_) =>
        if clickhouse.Some? {
          loc := clickhouse.value.SaveSamplesInline(c, samples, env.samplesFault);
        } else {
          loc := db.SaveSamplesInline(c, samples, env.sampleStamps, env.samplesFault);
        }
      case Hybrid(_, _) =>
        if clickhouse.Some? {
          loc := clickhouse.value.SaveSamplesInline(c, samples, env.samplesFault);
        } else {
          loc := db.SaveSamplesInline(c, samples, env.sampleStamps, env.samplesFault);
        }
      }
      r := if loc.Err? then Fail(loc.error) else Pass;
    }
  }
}
