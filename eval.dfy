/** The shared evaluation types: run configuration, output modes, result payloads, records,
    error kinds and run statuses, with the serde JSON form of a sample record. */
module Eval {
  import opened Wrappers
  import opened Json

  /** A UUID, held as its canonical hyphenated text (what `to_string` yields). */
  datatype Uuid = Uuid(text: string)

  /** A clock reading; only its order matters. */
  type Timestamp = int

  newtype i64 = x: int | -0x8000_0000_0000_0000 <= x < 0x8000_0000_0000_0000
  newtype i32 = x: int | -0x8000_0000 <= x < 0x8000_0000

  predicate InI64(x: int) { -0x8000_0000_0000_0000 <= x < 0x8000_0000_0000_0000 }
  predicate InI32(x: int) { -0x8000_0000 <= x < 0x8000_0000 }

  datatype EvalEngine = LmEvalHarness | OpenCompass | Helm | DeepEval | OpenAiEvals

  /** The engine's `{:?}` (Debug) name. */
  function EngineDebugName(e: EvalEngine): string {
    match e
    case LmEvalHarness => "LmEvalHarness"
    case OpenCompass => "OpenCompass"
    case Helm => "Helm"
    case DeepEval => "DeepEval"
    case OpenAiEvals => "OpenAiEvals"
  }

  /** Where a run asks its results to go. `ObjectStore` must name a samples URI;
      `Hybrid` may. */
  datatype OutputConfig =
    | DbOnly
    | ObjectStore(samplesUri: string, format: string)
    | ClickHouse(table: string)
    | Hybrid(chTable: string, hybridSamplesUri: Option<string>)

  /** The value of the `mode` tag that discriminates an `OutputConfig` on the wire (snake_case). */
  function ModeTag(o: OutputConfig): string {
    match o
    case DbOnly => "db_only"
    case ObjectStore(_, _) => "object_store"
    case ClickHouse(_) => "click_house"
    case Hybrid(_, _) => "hybrid"
  }

  /** The `mode` tag alone tells the four output modes apart. */
  lemma ModeTagDiscriminates(a: OutputConfig, b: OutputConfig)
    ensures ModeTag(a) == ModeTag(b) <==>
      (a.DbOnly? && b.DbOnly?) || (a.ObjectStore? && b.ObjectStore?) ||
      (a.ClickHouse? && b.ClickHouse?) || (a.Hybrid? && b.Hybrid?)
  {
  }

  /** A run configuration as the worker reads it. `other` stands for the model, dataset, task,
      metric, sampling, resource and metadata sections, which the orchestration core passes on
      without looking at them. */
  datatype EvalConfig = EvalConfig(
    runId: Uuid,
    projectId: Uuid,
    engine: EvalEngine,
    engineVersion: Option<string>,
    output: OutputConfig,
    other: Json)

  datatype MetricRecord = MetricRecord(
    runId: Uuid,
    dataset: string,
    subset: Option<string>,
    split: Option<string>,
    metricName: string,
    value: F64,
    nSamples: Option<i64>,
    ciLow: Option<F64>,
    ciHigh: Option<F64>,
    extra: Option<Json>)

  datatype TokenCount = TokenCount(promptTokens: i32, completionTokens: i32, totalTokens: i32)

  datatype SampleError = SampleError(message: string, code: Option<string>)

  datatype SampleRecord = SampleRecord(
    runId: Uuid,
    dataset: string,
    subset: Option<string>,
    split: Option<string>,
    sampleIndex: i64,
    input: string,
    reference: Option<string>,
    output: string,
    metrics: Option<Json>,
    latencyMs: Option<i64>,
    tokenCounts: Option<TokenCount>,
    error: Option<SampleError>)

  /** Where a result's samples are: carried inline (the only variant holding records), already
      written to an object-store URI or a ClickHouse table, or absent. */
  datatype SampleResultLocation =
    | Inline(samples: seq<SampleRecord>)
    | ObjectStoreLocation(uri: string, format: string)
    | ClickHouseLocation(table: string)
    | NoSamples

  datatype EvalErrorKind = Config | Engine | Infra | Timeout | Cancelled | Unknown

  /** The serde (snake_case) name of an error kind. */
  function KindName(k: EvalErrorKind): string {
    match k
    case Config => "config"
    case Engine => "engine"
    case Infra => "infra"
    case Timeout => "timeout"
    case Cancelled => "cancelled"
    case Unknown => "unknown"
  }

  datatype EvalErrorPayload = EvalErrorPayload(
    kind: EvalErrorKind,
    message: string,
    code: Option<string>,
    engine: Option<string>,
    details: Option<Json>)

  datatype RunStatus =
    | Queued
    | Running
    | Completed
    | FailedConfig
    | FailedEngine
    | FailedInfra
    | TimedOut
    | Cancelled

  /** Every status except `Queued` and `Running` ends a run. */
  predicate IsTerminal(s: RunStatus) {
    !(s.Queued? || s.Running?)
  }

  /** The terminal statuses that report a failure. */
  predicate IsFailure(s: RunStatus) {
    IsTerminal(s) && !s.Completed?
  }

  /** The eight statuses, in declaration order. */
  const AllStatuses: seq<RunStatus> :=
    [Queued, Running, Completed, FailedConfig, FailedEngine, FailedInfra, TimedOut, RunStatus.Cancelled]

  /** The status set is closed: the eight values are distinct and every status is one of them. */
  lemma StatusesAreEight(s: RunStatus)
    ensures |AllStatuses| == 8 && s in AllStatuses
    ensures forall i, j :: 0 <= i < j < |AllStatuses| ==> AllStatuses[i] != AllStatuses[j]
  {
  }

  /** A result: the metric records and exactly one samples location. */
  datatype EvalResult = EvalResult(
    runId: Uuid,
    status: RunStatus,
    startedAt: Timestamp,
    completedAt: Timestamp,
    metrics: seq<MetricRecord>,
    samples: SampleResultLocation,
    error: Option<EvalErrorPayload>)

  // ----- serde's JSON form of a sample record (the derived Serialize/Deserialize) -----

  function StrJson(s: string): Json { JStr(s) }

  function OptStrJson(o: Option<string>): Json {
    match o
    case None => JNull
    case Some(s) => JStr(s)
  }

  function OptI64Json(o: Option<i64>): Json {
    match o
    case None => JNull
    case Some(x) => JInt(x as int)
  }

  function TokenCountJson(t: TokenCount): Json {
    JObj(map["prompt_tokens" := JInt(t.promptTokens as int),
             "completion_tokens" := JInt(t.completionTokens as int),
             "total_tokens" := JInt(t.totalTokens as int)])
  }

  function SampleErrorJson(e: SampleError): Json {
    JObj(map["message" := JStr(e.message), "code" := OptStrJson(e.code)])
  }

  function SampleRecordJson(r: SampleRecord): Json {
    JObj(map[
      "run_id" := JStr(r.runId.text),
      "dataset" := JStr(r.dataset),
      "subset" := OptStrJson(r.subset),
      "split" := OptStrJson(r.split),
      "sample_index" := JInt(r.sampleIndex as int),
      "input" := JStr(r.input),
      "reference" := OptStrJson(r.reference),
      "output" := JStr(r.output),
      "metrics" := r.metrics.GetOr(JNull),
      "latency_ms" := OptI64Json(r.latencyMs),
      "token_counts" := if r.tokenCounts.Some? then TokenCountJson(r.tokenCounts.value) else JNull,
      "error" := if r.error.Some? then SampleErrorJson(r.error.value) else JNull])
  }

  /** A required string field. */
  function StrField(m: map<string, Json>, k: string): Option<string> {
    if k in m && m[k].JStr? then Some(m[k].s) else None
  }

  /** A required integer field within i64 range. */
  function I64Field(m: map<string, Json>, k: string): Option<i64> {
    if k in m && m[k].JInt? && InI64(m[k].i) then Some(m[k].i as i64) else None
  }

  /** A required integer field within i32 range. */
  function I32Field(m: map<string, Json>, k: string): Option<i32> {
    if k in m && m[k].JInt? && InI32(m[k].i) then Some(m[k].i as i32) else None
  }

  /** An optional field: missing or null reads as `None`. */
  function OptField(m: map<string, Json>, k: string): Option<Json> {
    if k in m && m[k] != JNull then Some(m[k]) else None
  }

  function OptStrField(m: map<string, Json>, k: string): Option<Option<string>> {
    match OptField(m, k)
    case None => Some(None)
    case Some(v) => if v.JStr? then Some(Some(v.s)) else None
  }

  function OptI64Field(m: map<string, Json>, k: string): Option<Option<i64>> {
    match OptField(m, k)
    case None => Some(None)
    case Some(v) => if v.JInt? && InI64(v.i) then Some(Some(v.i as i64)) else None
  }

  function TokenCountFromJson(j: Json): Option<TokenCount> {
    if !j.JObj? then None
    else
      var p :- I32Field(j.fields, "prompt_tokens");
      var c :- I32Field(j.fields, "completion_tokens");
      var t :- I32Field(j.fields, "total_tokens");
      Some(TokenCount(p, c, t))
  }

  function SampleErrorFromJson(j: Json): Option<SampleError> {
    if !j.JObj? then None
    else
      var message :- StrField(j.fields, "message");
      var code :- OptStrField(j.fields, "code");
      Some(SampleError(message, code))
  }

  function SampleRecordFromJson(j: Json): Option<SampleRecord> {
    if !j.JObj? then None
    else
      var m := j.fields;
      var runId :- StrField(m, "run_id");
      var dataset :- StrField(m, "dataset");
      var subset :- OptStrField(m, "subset");
      var split :- OptStrField(m, "split");
      var sampleIndex :- I64Field(m, "sample_index");
      var input :- StrField(m, "input");
      var reference :- OptStrField(m, "reference");
      var output :- StrField(m, "output");
      var latencyMs :- OptI64Field(m, "latency_ms");
      var tokenCounts :- match OptField(m, "token_counts")
        case None => Some(None)
        case Some(v) => (var t :- TokenCountFromJson(v); Some(Some(t)));
      var error :- match OptField(m, "error")
        case None => Some(None)
        case Some(v) => (var e :- SampleErrorFromJson(v); Some(Some(e)));
      Some(SampleRecord(Uuid(runId), dataset, subset, split, sampleIndex, input, reference, output,
                        OptField(m, "metrics"), latencyMs, tokenCounts, error))
  }

  /** What a decoder needs to find in an object to rebuild `r`, in four groups of fields. */
  predicate HoldsSampleFields(m: map<string, Json>, r: SampleRecord) {
    HoldsKeyFields(m, r) && HoldsTextFields(m, r) && HoldsOptionalFields(m, r) && HoldsNestedFields(m, r)
  }

  predicate HoldsKeyFields(m: map<string, Json>, r: SampleRecord) {
    && StrField(m, "run_id") == Some(r.runId.text)
    && StrField(m, "dataset") == Some(r.dataset)
    && I64Field(m, "sample_index") == Some(r.sampleIndex)
  }

  predicate HoldsTextFields(m: map<string, Json>, r: SampleRecord) {
    && StrField(m, "input") == Some(r.input)
    && OptStrField(m, "reference") == Some(r.reference)
    && StrField(m, "output") == Some(r.output)
  }

  predicate HoldsOptionalFields(m: map<string, Json>, r: SampleRecord) {
    && OptStrField(m, "subset") == Some(r.subset)
    && OptStrField(m, "split") == Some(r.split)
    && OptI64Field(m, "latency_ms") == Some(r.latencyMs)
  }

  predicate HoldsNestedFields(m: map<string, Json>, r: SampleRecord) {
    && OptField(m, "metrics") == r.metrics
    && OptField(m, "token_counts") == (if r.tokenCounts.Some? then Some(TokenCountJson(r.tokenCounts.value)) else None)
    && OptField(m, "error") == (if r.error.Some? then Some(SampleErrorJson(r.error.value)) else None)
  }

  lemma KeyFieldsWritten(r: SampleRecord)
    ensures HoldsKeyFields(SampleRecordJson(r).fields, r)
  {
  }

  lemma TextFieldsWritten(r: SampleRecord)
    ensures HoldsTextFields(SampleRecordJson(r).fields, r)
  {
  }

  lemma OptionalFieldsWritten(r: SampleRecord)
    ensures HoldsOptionalFields(SampleRecordJson(r).fields, r)
  {
  }

  lemma NestedFieldsWritten(r: SampleRecord)
    requires r.metrics != Some(JNull)
    ensures HoldsNestedFields(SampleRecordJson(r).fields, r)
  {
  }

  /** Serialising a record writes every field the decoder looks for. */
  lemma SampleRecordJsonFields(r: SampleRecord)
    requires r.metrics != Some(JNull)
    ensures SampleRecordJson(r).JObj? && HoldsSampleFields(SampleRecordJson(r).fields, r)
  {
    KeyFieldsWritten(r);
    TextFieldsWritten(r);
    OptionalFieldsWritten(r);
    NestedFieldsWritten(r);
  }

  /** Decoding an object that holds `r`'s fields yields `r`. */
  lemma SampleRecordFromFields(m: map<string, Json>, r: SampleRecord)
    requires HoldsSampleFields(m, r)
    ensures SampleRecordFromJson(JObj(m)) == Some(r)
  {
    if r.tokenCounts.Some? {
      var t := r.tokenCounts.value;
      assert TokenCountFromJson(TokenCountJson(t)) == Some(t);
    }
    if r.error.Some? {
      var e := r.error.value;
      assert SampleErrorFromJson(SampleErrorJson(e)) == Some(e);
    }
  }

  /** A sample record survives serde's JSON form, unless its `metrics` is `Some(null)`:
      serde writes that as `null`, which reads back as `None`. */
  lemma SampleRecordJsonRoundTrip(r: SampleRecord)
    requires r.metrics != Some(JNull)
    ensures SampleRecordFromJson(SampleRecordJson(r)) == Some(r)
  {
    SampleRecordJsonFields(r);
    SampleRecordFromFields(SampleRecordJson(r).fields, r);
  }

  /** The exception to the round trip: `metrics: Some(null)` comes back as `None`. */
  lemma NullMetricsReadBackAsNone(r: SampleRecord)
    requires r.metrics == Some(JNull)
    ensures SampleRecordFromJson(SampleRecordJson(r)).Some?
    ensures SampleRecordFromJson(SampleRecordJson(r)).value == r.(metrics := None)
  {
    SampleRecordJsonRoundTrip(r.(metrics := None));
  }
}
