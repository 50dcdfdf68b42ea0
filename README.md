# ModelEvalHub run orchestration, modelled in Dafny

ModelEvalHub tracks evaluation runs. A run pairs a model checkpoint with a task and an evaluation
engine. The worker takes a run configuration off a queue and marks the run `Running`. It then runs
the engine and either persists the result or records a classified error with a terminal status.
This project models that core and proves properties of it.

- **Shared types** (`Eval`). These are the run status, the error kinds, the output modes, the
  sample locations, the metric and sample records, and serde's JSON form of a sample record.
- **Run table** (`Runs`). This covers the status and error-kind column codecs and reading a row
  back as a run. It also covers `create`, which stamps the configuration, and `update_status`,
  which overwrites a row.
- **Relational append-only tables** (`Metrics`, `SampleOutputs`). Each has an insert loop that
  adds one row per record and stops at the first failure. Each also has a per-run listing, which
  filters and orders the rows (`Ordering` models `WHERE … ORDER BY`).
- **Result stores and router** (`ResultStore`). There are three adapters:
  - the relational store;
  - ClickHouse, written as one batched insert per call;
  - the object store, which gets a JSONL body under `runs/<run_id>/samples.jsonl`.

  `ResultStoreHandles` builds these adapters from the settings. Its `persist_eval_result` sends
  the metrics to one store and the inline samples to one store, and falls back to the relational
  store when the preferred backend is not configured.
- **Worker** (`Worker`). This covers `process_job`, `map_error_to_status` and one step of the job
  loop.

The environment is passed in as parameters:
- Serde's text codec is an abstract `Codec`, which may fail to encode or parse.
  - `Faithful` says parsing inverts encoding.
  - `NoNewlines` says encoded text is compact (no line breaks).
- Each insert gets a fresh UUID and clock reading as a `Stamp`.
- A failing external call is a `Fault`: the call at a given step fails with a given message.

Every method that changes state is proved equal to a pure function of the old state, such as
`UpdateStatusSpec`, `SaveRecordsSpec`, `PersistSpec` and `JobSpec`. The lemmas state the
system's promises about those functions.

Four behaviours of the code are easy to misread; the model follows the code:
- A failure to persist a result leaves the run `Running` with no error. It is not recorded as
  an infrastructure failure.
- A samples location that is not inline is recorded nowhere, because `save_samples_location`
  does nothing.
- `update_status` never writes `started_at` or `finished_at`.
- The object-store round trip holds for every record except one whose `metrics` is an explicit
  JSON `null`. Serde writes that as `null` and reads it back as absent.

## Model

| member | source | states |
|---|---|---|
| Json.ColumnRoundTrip | backend/crates/domain/src/metrics.rs:74 | A nullable JSON column reads back as written. Null stays null, a value that encodes returns unchanged, and one that does not encode reads as whatever its fallback text parses to. |
| Json.FallbackReadsAsEmptyObject | backend/crates/domain/src/sample_outputs.rs:91-94 | With the relational `{}` fallback, a value that fails to encode reads back as the empty object. |
| Json.UnparsableReadsAsNull | backend/crates/domain/src/metrics.rs:35-39 | Stored JSON text that does not parse reads back as `Null`, never as an error. |
| Eval.ModeTagDiscriminates | backend/crates/shared/src/eval.rs:102-109 | The snake_case `mode` tag tells the four output modes apart, in both directions. |
| Eval.StatusesAreEight | backend/crates/shared/src/eval.rs:194-204 | The run status is a closed set of exactly eight distinct values. |
| Eval.SampleRecordJson | backend/crates/shared/src/eval.rs:136-157 | Serde's JSON object for a sample record; `SampleRecordJsonRoundTrip` states it. |
| Eval.SampleRecordFromJson | backend/crates/shared/src/eval.rs:136-157 | Serde's reading of that object back into a record; the two lemmas below state it. |
| Eval.SampleRecordJsonRoundTrip | backend/crates/shared/src/eval.rs:136-157 | Serde's JSON object for a sample record reads back as the same record, nested token counts and error included, when `metrics` is not an explicit null. |
| Eval.NullMetricsReadBackAsNone | backend/crates/shared/src/eval.rs:146 | The exception to that round trip: `metrics: Some(null)` reads back as `None`, and every other field is kept. |
| Ordering.SortBy | backend/crates/domain/src/metrics.rs:27 | `ORDER BY key ASC`: the result is sorted by the key and is a permutation of the input. |
| Ordering.Where | backend/crates/domain/src/metrics.rs:27 | `WHERE`: every row kept satisfies the condition, and each satisfying row keeps its multiplicity. |
| Ordering.SelectSorted | backend/crates/domain/src/sample_outputs.rs:29 | A filtered, ordered query returns exactly the matching rows, sorted by the key. |
| Runs.StatusToStr | backend/crates/domain/src/runs.rs:40-51 | The text of each status in the `status` column; `StatusRoundTrip` and `StatusStringsDistinct` state its properties. |
| Runs.StatusFromStr | backend/crates/domain/src/runs.rs:53-65 | Reading the status column gives the status whose text it is; any unrecognised text gives `Queued`. |
| Runs.StatusRoundTrip | backend/crates/domain/src/runs.rs:40-65 | Writing and then reading the status column returns the same status, for all eight statuses. |
| Runs.StatusStringsDistinct | backend/crates/domain/src/runs.rs:40-51 | The eight status texts are pairwise distinct. |
| Runs.LowerAscii | backend/crates/domain/src/runs.rs:185 | `to_lowercase` on ASCII: the same length, each capital replaced by its small letter, everything else kept, and no capital left. |
| Runs.ErrorKindColumn | backend/crates/domain/src/runs.rs:185 | The text written to `error_kind`; `ErrorKindColumnIsSerdeName` states what it is. |
| Runs.ErrorKindFromColumn | backend/crates/domain/src/runs.rs:74-82 | A recognised kind is read from its serde name; any other text reads as `Unknown`. |
| Runs.ErrorKindColumnIsSerdeName | backend/crates/domain/src/runs.rs:185 | The lowercased Debug name written for a kind is exactly its snake_case serde name. |
| Runs.ErrorKindRoundTrip | backend/crates/domain/src/runs.rs:75-82 | Writing and then reading `error_kind` returns the same kind, for all six kinds. |
| Runs.RowToRun | backend/crates/domain/src/runs.rs:67-107 | `row_to_run`: fails only when the stored configuration does not parse; `RowErrorPresence` and the read-back lemmas state the rest. |
| Runs.RowErrorPresence | backend/crates/domain/src/runs.rs:72-91 | A read run has an error payload exactly when `error_kind` is set; a missing message reads as the empty string. |
| Runs.UpdateStatusSpec | backend/crates/domain/src/runs.rs:175-201 | The table and outcome of `update_status`: a failing statement changes nothing and a missing id is updated silently. The lemmas below state its properties. |
| Runs.OverwriteKeepsOtherColumns | backend/crates/domain/src/runs.rs:181-195 | `update_status` changes only the status, the five error columns and `updated_at`; start and finish times and the configuration are untouched. |
| Runs.NoErrorClearsErrorColumns | backend/crates/domain/src/runs.rs:184-194 | With no error, all five error columns become null. |
| Runs.LastWriterWins | backend/crates/domain/src/runs.rs:181-183 | A second `update_status` erases the first: the earlier status and error leave no trace. |
| Runs.UpdateStatusIdempotent | backend/crates/domain/src/runs.rs:175-201 | Repeating the same `update_status` leaves the same table and the same outcome. |
| Runs.OverwriteReadBack | backend/crates/domain/src/runs.rs:181-198 | A row overwritten by `update_status` is read back by `row_to_run` with the written status and error payload, and everything else as before. |
| Runs.UpdateStatusReadBack | backend/crates/domain/src/runs.rs:175-201 | After a successful `update_status`, `get` of the id returns the run as before with the written status and error; `get` of every other id is unchanged. |
| Runs.StampConfig | backend/crates/domain/src/runs.rs:134-141 | A JSON-object configuration gets `run_id` and `project_id` and keeps every other key; any other value is left as is. |
| Runs.CreateSpec | backend/crates/domain/src/runs.rs:132-173 | The table and result of `create`. An unencodable configuration, a failing insert or a taken id returns an error and changes nothing; `CreateThenRead` states success. |
| Runs.CreateThenRead | backend/crates/domain/src/runs.rs:132-172 | A created run has the requested status, no error and no start or finish time; `get` of its id returns exactly the run `create` returned, and every other id reads as before. |
| Runs.GetSpec | backend/crates/domain/src/runs.rs:119-130 | A failing query returns `Internal` with the driver's error. Otherwise the result is `NotFound` exactly when there is no row, and a run exactly when the row exists and its configuration parses. |
| Runs.RunTable.Get | backend/crates/domain/src/runs.rs:119-130 | The query and `row_to_run` return what `GetSpec` says, which the read-back lemmas use. |
| Runs.RunTable.UpdateStatus | backend/crates/domain/src/runs.rs:175-201 | The table after the update, and the outcome, are those of `UpdateStatusSpec`. A failing statement changes nothing; a missing id is updated silently. |
| Runs.RunTable.Create | backend/crates/domain/src/runs.rs:132-173 | The table and the result are those of `CreateSpec`: the configuration is stamped in place and encoded, then the row is inserted. |
| Metrics.ReadMetric | backend/crates/domain/src/metrics.rs:34-53 | A `metrics` row read back as a metric; `extra_json` that does not parse reads as null (`Json.UnparsableReadsAsNull`). |
| Metrics.SaveRecordsSpec | backend/crates/domain/src/metrics.rs:61-80 | The table and outcome of `save_records`; the three lemmas below state its properties. |
| Metrics.SaveRecordsOnePerRecord | backend/crates/domain/src/metrics.rs:62-79 | On success there is one new row per record, in order, after the old rows. Each row has its own fresh id and every field of its record, and `extra` reads back as written. |
| Metrics.SaveRecordsStopsAtFault | backend/crates/domain/src/metrics.rs:76-78 | The first failing insert ends the loop with its error, and exactly the rows before it stay. |
| Metrics.SaveNoRecords | backend/crates/domain/src/metrics.rs:61-80 | An empty batch inserts nothing and succeeds. |
| Metrics.SaveRecordsKeepsIdsUnique | backend/crates/domain/src/metrics.rs:64 | With fresh UUIDs, the table's row ids stay pairwise distinct. |
| Metrics.ListingOfRun | backend/crates/domain/src/metrics.rs:27-58 | `list_by_run` returns every metric of the run, as often as its row occurs, no metric of another run, oldest first. |
| Metrics.MetricTable.SaveRecords | backend/crates/domain/src/metrics.rs:61-80 | The insert loop leaves the table and outcome of `SaveRecordsSpec`. |
| Metrics.MetricTable.ListByRun | backend/crates/domain/src/metrics.rs:26-59 | The read loop returns the query's rows read as metrics, or the query's error. |
| SampleOutputs.ReadSample | backend/crates/domain/src/sample_outputs.rs:36-70 | A `sample_outputs` row read back; its three JSON columns read as null when they do not parse. |
| SampleOutputs.SaveInlineSpec | backend/crates/domain/src/sample_outputs.rs:76-104 | The table and result of `save_inline`; the lemmas below state its properties. |
| SampleOutputs.RowReadsBackAsRecord | backend/crates/domain/src/sample_outputs.rs:81-94 | A stored sample reads back with every field of its record; the token counts and the error come back as their JSON objects. |
| SampleOutputs.SaveInlineOnePerRecord | backend/crates/domain/src/sample_outputs.rs:80-103 | On success the location is `Inline` of the input, and there is one new row per record, in order. Row i reads back as the whole sample output: stamp i's id and time and every field of record i. |
| SampleOutputs.SaveInlineStopsAtFault | backend/crates/domain/src/sample_outputs.rs:96-98 | The first failing insert is the error returned, and exactly the rows before it stay. |
| SampleOutputs.SaveInlineKeepsIdsUnique | backend/crates/domain/src/sample_outputs.rs:82 | With fresh UUIDs, the table's row ids stay pairwise distinct. |
| SampleOutputs.ListingOfRun | backend/crates/domain/src/sample_outputs.rs:28-74 | `list_by_run` returns every sample of the run and no other, in ascending sample index. |
| SampleOutputs.SampleOutputTable.SaveInline | backend/crates/domain/src/sample_outputs.rs:76-104 | The insert loop leaves the table and result of `SaveInlineSpec`. |
| SampleOutputs.SampleOutputTable.ListByRun | backend/crates/domain/src/sample_outputs.rs:28-74 | The read loop returns the query's rows read as sample outputs, or the query's error. |
| ResultStore.ChInsertSpec | backend/crates/domain/src/result_store.rs:78-100 | One ClickHouse insert committed at `end`; the two all-or-nothing lemmas state its properties. |
| ResultStore.ChInsertAllOrNothing | backend/crates/domain/src/result_store.rs:78-100 | A metrics insert, an empty batch included, either appends exactly the batch's rows after the old ones, each under its record's run, or changes nothing and returns the failing call's error. |
| ResultStore.ChSampleInsertAllOrNothing | backend/crates/domain/src/result_store.rs:134-156 | The same for a samples insert: the whole batch, each row under its record's run and sample index, or nothing. |
| ResultStore.ChJsonColumns | backend/crates/domain/src/result_store.rs:91-95 | A ClickHouse JSON column reads back as written. A value that does not encode is stored as the empty string, where the relational store writes `{}`. |
| ResultStore.ClickHouseResultStore.constructor | backend/crates/domain/src/result_store.rs:235-245 | The client uses the section's user, or `default`, and the section's password, or the empty string, over the tables as they are. |
| ResultStore.ClickHouseResultStore.SaveMetrics | backend/crates/domain/src/result_store.rs:63-101 | The write loop and `end` leave the metrics table as `ChInsertSpec` says; the samples table is untouched. |
| ResultStore.ClickHouseResultStore.SaveSamplesInline | backend/crates/domain/src/result_store.rs:103-159 | The same batched insert into the samples table; on success the location is the configured samples table. |
| ResultStore.ClickHouseResultStore.SaveSamplesLocation | backend/crates/domain/src/result_store.rs:161-167 | Records nothing and succeeds. |
| ResultStore.SamplesKey | backend/crates/domain/src/result_store.rs:190 | `runs/<run_id>/samples.jsonl`; `SamplesKeyInjective` states it. |
| ResultStore.JsonlBody | backend/crates/domain/src/result_store.rs:191-198 | The JSONL body: each record's line followed by a line break; the three lemmas below state its properties. |
| ResultStore.PutSamplesSpec | backend/crates/domain/src/result_store.rs:182-212 | The objects and result of the object store's `save_samples_inline`; `PutSamplesWritesItsLocation` states them. |
| ResultStore.JsonlBodySnoc | backend/crates/domain/src/result_store.rs:192-198 | Appending a record to the batch appends its line and a line break to the body. |
| ResultStore.JsonlLines | backend/crates/domain/src/result_store.rs:191-198 | With a single-line codec, the body splits into exactly one line per record, in input order; a record that does not encode is the line `{}`. |
| ResultStore.JsonlRoundTrip | backend/crates/domain/src/result_store.rs:191-198 | With a faithful, single-line codec, reading the body back gives exactly the records, in order. |
| ResultStore.SamplesKeyInjective | backend/crates/domain/src/result_store.rs:190 | Distinct runs get distinct object keys. |
| ResultStore.PutSamplesWritesItsLocation | backend/crates/domain/src/result_store.rs:186-211 | The key is `runs/<first record's run id>/samples.jsonl`. On success the body is stored under it, the location is `<bucket>/<key>` in `jsonl` format, and other objects are untouched; on failure nothing changes. |
| ResultStore.ObjectStoreResultStore.SaveMetrics | backend/crates/domain/src/result_store.rs:177-180 | Always fails with "ObjectStoreResultStore does not support metrics". |
| ResultStore.ObjectStoreResultStore.SaveSamplesInline | backend/crates/domain/src/result_store.rs:182-212 | The body is built line by line and put under the run's key, as `PutSamplesSpec` says. |
| ResultStore.ObjectStoreResultStore.SaveSamplesLocation | backend/crates/domain/src/result_store.rs:214-220 | Records nothing and succeeds. |
| ResultStore.DbResultStore.SaveMetrics | backend/crates/domain/src/result_store.rs:35-38 | Delegates to the `metrics` table's insert loop and passes its error up. |
| ResultStore.DbResultStore.SaveSamplesInline | backend/crates/domain/src/result_store.rs:40-45 | Delegates to the `sample_outputs` insert loop and returns its location or error. |
| ResultStore.DbResultStore.SaveSamplesLocation | backend/crates/domain/src/result_store.rs:47-53 | A location that is not inline is recorded nowhere; the call succeeds. |
| ResultStore.MetricsBackend | backend/crates/domain/src/result_store.rs:289-300 | Metrics go to ClickHouse exactly when the mode is ClickHouse and ClickHouse is configured; otherwise, Hybrid included, they go to the relational store. Never to the object store. |
| ResultStore.SamplesBackend | backend/crates/domain/src/result_store.rs:302-335 | A store is chosen exactly when the samples are inline, and the chosen store is always configured. |
| ResultStore.SamplesFallBackToDb | backend/crates/domain/src/result_store.rs:304-329 | Inline samples go to the mode's own store when it is configured, and to the relational store when it is not. |
| ResultStore.MetricsRoutingDiffersForHybrid | backend/crates/domain/src/result_store.rs:289-329 | In the Hybrid mode with ClickHouse configured, the metrics go to the relational store and the samples to ClickHouse. |
| ResultStore.SaveMetricsSpec | backend/crates/domain/src/result_store.rs:289-300 | The router's metrics step on the stores' contents; `PersistMetricsLandInOneStore` states it. |
| ResultStore.SaveSamplesSpec | backend/crates/domain/src/result_store.rs:302-338 | The router's samples step, dropping the adapter's location; `PersistSamplesLandInOneStore` states it. |
| ResultStore.PersistSpec | backend/crates/domain/src/result_store.rs:279-287 | Metrics, then samples, stopping at a metrics failure; the persist lemmas state its properties. |
| ResultStore.PersistStopsAfterMetricsFailure | backend/crates/domain/src/result_store.rs:279-287 | Metrics are saved first. If that fails, its error is the result and no sample store is touched. |
| ResultStore.PersistNonInlineWritesNoSamples | backend/crates/domain/src/result_store.rs:330-334 | With samples that are not inline, no sample store changes and the outcome is the metrics save's. |
| ResultStore.PersistMetricsLandInOneStore | backend/crates/domain/src/result_store.rs:289-299 | Metrics change only the chosen store. On success that store holds exactly the old rows followed by one row per record. |
| ResultStore.PersistKeepsEveryMetric | backend/crates/domain/src/result_store.rs:279-300 | After a successful persist, the chosen metrics store holds the old rows followed by one row per record, so the count persisted equals the count returned. The other metrics store is untouched. |
| ResultStore.PersistSamplesLandInOneStore | backend/crates/domain/src/result_store.rs:302-338 | Inline samples change only the chosen store. On success nothing is dropped: the relational rows of every record, the ClickHouse batch, or the body under the run's key. |
| ResultStore.ResultStoreHandles.constructor | backend/crates/domain/src/result_store.rs:230-277 | A ClickHouse store exists exactly when the `clickhouse` section is present, and an object store exactly when `object_store` is. Each is built from its section over the tables or bucket as they are. |
| ResultStore.ResultStoreHandles.PersistEvalResult | backend/crates/domain/src/result_store.rs:279-287 | The stores and the outcome are those of `PersistSpec`: metrics, then samples. |
| ResultStore.ResultStoreHandles.SaveMetrics | backend/crates/domain/src/result_store.rs:289-300 | The router's metrics dispatch, as `SaveMetricsSpec` says. |
| ResultStore.ResultStoreHandles.SaveSamples | backend/crates/domain/src/result_store.rs:302-338 | The router's samples dispatch, as `SaveSamplesSpec` says; the adapter's returned location is dropped. |
| Worker.MapErrorToStatus | backend/crates/worker/src/main.rs:115-124 | Every kind maps to a terminal failure status: Config to `FailedConfig`, Engine to `FailedEngine`, Infra and Unknown to `FailedInfra`, Timeout to `TimedOut`, Cancelled to `Cancelled`. |
| Worker.MapErrorToStatusOnlyMergesUnknown | backend/crates/worker/src/main.rs:115-124 | The only two kinds that share a status are `Infra` and `Unknown`. |
| Worker.Dispatch | backend/crates/worker/src/main.rs:74-80 | Only lm-eval-harness reaches the runner; every other engine is `NotSupported`. |
| Worker.ErrorPayloadFor | backend/crates/worker/src/main.rs:89-107 | The error payload recorded for a runner error; `ClassifyRunnerError` states it. |
| Worker.ClassifyRunnerError | backend/crates/worker/src/main.rs:89-107 | A runner's payload is kept verbatim. An I/O error becomes kind Infra with the error's text and engine `lm_eval_harness`, status `FailedInfra`. `NotSupported` becomes kind Engine, "Engine not supported", naming the configured engine, status `FailedEngine`. |
| Worker.JobSpec | backend/crates/worker/src/main.rs:70-113 | `process_job` on the run table and the stores; the job lemmas below state its properties. |
| Worker.RunningWrittenFirst | backend/crates/worker/src/main.rs:71 | If writing `Running` fails, the job ends with that error and nothing else changes. |
| Worker.OnlyLmEvalReachesRunner | backend/crates/worker/src/main.rs:74-80 | For any engine but lm-eval-harness, the job's effect does not depend on what the runner would return. |
| Worker.JobOutcomeReadBack | backend/crates/worker/src/main.rs:70-113 | What `get` returns for the run after the job: `Completed` with no error after a successful persist, `Running` with no error and the persist error returned when persisting fails, and otherwise the classified error and its status with the stores untouched. |
| Worker.PersistFailureLeavesRunning | backend/crates/worker/src/main.rs:82-88 | When persisting fails, the job fails and the run stays `Running`, with no error kind and not `Completed`. |
| Worker.CompletedOnlyAfterPersist | backend/crates/worker/src/main.rs:82-88 | A job that leaves the run `Completed` had a result from the runner and persisted it successfully. |
| Worker.StepSpec | backend/crates/worker/src/main.rs:35-47 | One step of the job loop; `StepTouchesOnlyJobs` states it. |
| Worker.StepTouchesOnlyJobs | backend/crates/worker/src/main.rs:35-47 | An empty poll sleeps and a payload that does not parse is dropped, both changing nothing. A parsed payload is processed as a job, and the step ends normally even when the job failed. |
| Worker.WorkerContext.ProcessJob | backend/crates/worker/src/main.rs:70-113 | The run table, the stores and the outcome are those of `JobSpec`. |
| Worker.WorkerContext.HandlePoll | backend/crates/worker/src/main.rs:35-47 | One step of the job loop leaves the state and outcome of `StepSpec`. |

## Left out

- The blocking queue loop itself is not modelled, because it is I/O and never ends. This covers the Redis pool, `blpop` with its timeout, and the one-second sleep. `HandlePoll` models one iteration, with the poll's result as a parameter.
- The lm-eval-harness runner is not modelled, because it spawns an external process. It is the abstract `RunnerOutcome`.
- Log lines (`tracing`) are not modelled, because they have no effect on state.
- The HTTP API, enqueueing, and the mapping of domain errors to HTTP statuses are not modelled; they are outside the orchestration core.
- The CRUD modules (models, experiments, tasks, datasets, projects) and `runs::list` are not modelled; they are thin query wrappers.
- Settings loading, pool setup and the UUID-parsing helper are not modelled; they are infrastructure.
- SQL, the ClickHouse client and the S3 client are not modelled. Tables are sequences or maps of rows, and the object store is a map from key to body for the configured bucket. Endpoint, region, credentials and path style are kept as settings but have no effect.
- Each external failure is one `Fault`: the call at a given step fails, carrying the driver's error text as an opaque message.
- Reading rows back assumes well-formed columns: a stored UUID that does not parse, or a failing `try_get`, is not modelled. This model writes every UUID as its canonical text.
- A ClickHouse insert is assumed to commit at `end`, so a failing write leaves the table as it was. The client library's partial sends are not modelled.
- The order of rows with equal keys under `ORDER BY` is not modelled, because SQL does not promise it.
- Serde's JSON text is the abstract `Codec`. Its error messages are not modelled.
- The parsing of a queue payload into a run configuration is the parameter `parse` of `HandlePoll`.
- The configuration sections that the core passes through without reading are not modelled; they are `EvalConfig.other`.
- Floating-point values are opaque bit patterns, because nothing in the core computes with them.
- Clock readings (`Utc::now()`, `NOW()`) and fresh UUIDs are parameters.
- Writing a line to the in-memory JSONL buffer cannot fail, so the `?` on it has no error path here.
- Concurrency between several workers is not modelled.
- Worker.JobOutcomeReadBack: it is stated for a job whose two status writes succeed and whose run exists. The failing cases are covered by `RunningWrittenFirst` and by `UpdateStatusSpec`, under which a failed write changes nothing.
- ResultStore.DbResultStore.SaveSamplesInline: the relational adapter returns the domain error without the conversion the surrounding signature needs. The model passes the error up wrapped as `FromDomain`.
