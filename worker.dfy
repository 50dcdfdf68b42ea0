/** The worker: processing one evaluation job against the run table and the result stores, and
    one step of the job loop. */
module Worker {
  import opened Wrappers
  import opened Json
  import opened Eval
  import opened Effects
  import opened Runs
  import opened ResultStore

  /** What running an evaluation yields, as the worker consumes it: a result, or one of the
      runner's three errors (an error payload of its own, an I/O error's text, or "not
      supported"). */
  datatype RunnerOutcome =
    | RunOk(result: EvalResult)
    | RunEval(payload: EvalErrorPayload)
    | RunIo(message: string)
    | RunNotSupported

  /** `map_error_to_status`: the terminal status recorded for an error kind. */
  function MapErrorToStatus(kind: EvalErrorKind): (s: RunStatus)
    ensures IsFailure(s)
    ensures kind == Config ==> s == FailedConfig
    ensures kind == Engine ==> s == FailedEngine
    ensures kind == Infra ==> s == FailedInfra
    ensures kind == Timeout ==> s == TimedOut
    ensures kind == EvalErrorKind.Cancelled ==> s == RunStatus.Cancelled
    ensures kind == Unknown ==> s == FailedInfra
  {
    match kind
    case Config => FailedConfig
    case Engine => FailedEngine
    case Infra => FailedInfra
    case Timeout => TimedOut
    case Cancelled => RunStatus.Cancelled
    case Unknown => FailedInfra
  }

  /** Distinct kinds get distinct statuses, except that `Unknown` shares `FailedInfra` with
      `Infra`; so the status tells the kind apart for every other kind. */
  lemma MapErrorToStatusOnlyMergesUnknown(a: EvalErrorKind, b: EvalErrorKind)
    requires a != b && MapErrorToStatus(a) == MapErrorToStatus(b)
    ensures (a == Infra && b == Unknown) || (a == Unknown && b == Infra)
  {
  }

  /** Only the lm-eval-harness engine reaches the runner; any other engine is not supported. */
  function Dispatch(engine: EvalEngine, runner: RunnerOutcome): (o: RunnerOutcome)
    ensures engine != LmEvalHarness ==> o == RunNotSupported
    ensures engine == LmEvalHarness ==> o == runner
  {
    if engine.LmEvalHarness? then runner else RunNotSupported
  }

  /** The error payload recorded for a runner error. */
  function ErrorPayloadFor(engine: EvalEngine, outcome: RunnerOutcome): EvalErrorPayload
    requires !outcome.RunOk?
  {
    match outcome
    case RunEval(payload) => payload
    case RunIo(message) => EvalErrorPayload(Infra, message, None, Some("lm_eval_harness"), None)
    case RunNotSupported => EvalErrorPayload(Engine, "Engine not supported", None, Some(EngineDebugName(engine)), None)
  }

  /** How each runner error is classified: the runner's own payload is kept with the status its
      kind maps to; an I/O error is an infrastructure failure of lm-eval-harness; an unsupported
      engine is an engine failure naming the configured engine. Every one ends the run in a
      failure status. */
  lemma ClassifyRunnerError(engine: EvalEngine, outcome: RunnerOutcome)
    requires !outcome.RunOk?
    ensures var p := ErrorPayloadFor(engine, outcome);
      && IsFailure(MapErrorToStatus(p.kind))
      && (outcome.RunEval? ==> p == outcome.payload)
      && (outcome.RunIo? ==> MapErrorToStatus(p.kind) == FailedInfra && p.message == outcome.message
                             && p.engine == Some("lm_eval_harness") && p.code.None? && p.details.None?)
      && (outcome.RunNotSupported? ==> MapErrorToStatus(p.kind) == FailedEngine
                                       && p.message == "Engine not supported"
                                       && p.engine == Some(EngineDebugName(engine))
                                       && p.code.None? && p.details.None?)
  {
  }

  /** The run table and the result stores together. */
  datatype WorkerState = WorkerState(runs: map<Uuid, RunRow>, stores: StoresState)

  /** What the environment supplies to one job: the clock readings and failures of the two
      status writes, and what the result stores need. */
  datatype JobEnv = JobEnv(
    startedAt: Timestamp,
    runningFault: Option<Fault>,
    persist: PersistEnv,
    finishedAt: Timestamp,
    finalFault: Option<Fault>)

  /** The environment has a stamp for every record a result to be persisted holds. */
  predicate JobStampsFit(config: EvalConfig, runner: RunnerOutcome, env: JobEnv) {
    Dispatch(config.engine, runner).RunOk? ==> StampsFit(runner.result, env.persist)
  }

  function FromDb(o: Outcome<DomainError>): Outcome<AnyError> {
    if o.Fail? then Fail(FromDomain(o.error)) else Pass
  }

  /** `process_job`: mark the run `Running`; dispatch; then either persist the result and mark
      the run `Completed`, or record the classified error with its status. Any failing step ends
      the job with that step's error. */
  function JobSpec(w: WorkerState, c: Codec, s: StoreSettings, config: EvalConfig, runner: RunnerOutcome,
                   env: JobEnv): (WorkerState, Outcome<AnyError>)
    requires JobStampsFit(config, runner, env)
  {
    var id := config.runId;
    var (rows1, o1) := UpdateStatusSpec(w.runs, c, id, Running, None, env.startedAt, env.runningFault);
    if o1.Fail? then (w.(runs := rows1), FromDb(o1))
    else
      var outcome := Dispatch(config.engine, runner);
      if outcome.RunOk? then
        var (st, p) := PersistSpec(w.stores, c, s, config.output, outcome.result, env.persist);
        if p.Fail? then (WorkerState(rows1, st), p)
        else
          var (rows2, o2) := UpdateStatusSpec(rows1, c, id, Completed, None, env.finishedAt, env.finalFault);
          (WorkerState(rows2, st), FromDb(o2))
      else
        var payload := ErrorPayloadFor(config.engine, outcome);
        var (rows2, o2) := UpdateStatusSpec(rows1, c, id, MapErrorToStatus(payload.kind), Some(payload),
                                            env.finishedAt, env.finalFault);
        (WorkerState(rows2, w.stores), FromDb(o2))
  }

  /** `Running` is written before anything else: when that write fails, the job ends with its
      error and neither the run table nor any store changes. */
  lemma RunningWrittenFirst(w: WorkerState, c: Codec, s: StoreSettings, config: EvalConfig,
                            runner: RunnerOutcome, env: JobEnv, msg: string)
    requires JobStampsFit(config, runner, env)
    requires env.runningFault == Some(Fault(0, msg))
    ensures JobSpec(w, c, s, config, runner, env) == (w, Fail(FromDomain(Internal(msg))))
  {
  }

  /** Which engine the configuration names decides whether the runner matters: for every engine
      but lm-eval-harness the job is the same whatever the runner would have returned. */
  lemma OnlyLmEvalReachesRunner(w: WorkerState, c: Codec, s: StoreSettings, config: EvalConfig,
                                r1: RunnerOutcome, r2: RunnerOutcome, env: JobEnv)
    requires config.engine != LmEvalHarness
    ensures JobStampsFit(config, r1, env) && JobStampsFit(config, r2, env)
    ensures JobSpec(w, c, s, config, r1, env) == JobSpec(w, c, s, config, r2, env)
  {
  }

  /** What `get` returns for the run after the job, when the run exists and both status writes
      succeed: `Completed` with no error after a successful persist; `Running` with no error,
      the persist error returned and no second write when the persist fails; otherwise the
      classified error with its status, and the stores untouched. */
  lemma {:induction false} JobOutcomeReadBack(w: WorkerState, c: Codec, s: StoreSettings, config: EvalConfig,
                                              runner: RunnerOutcome, env: JobEnv)
    requires JobStampsFit(config, runner, env)
    requires Faithful(c)
    requires env.runningFault.None? && env.finalFault.None?
    requires GetSpec(w.runs, c, config.runId, None).Ok?
    requires runner.RunEval? && runner.payload.details.Some? ==> c.encode(runner.payload.details.value).Some?
    ensures var (after, r) := JobSpec(w, c, s, config, runner, env);
      var before := GetSpec(w.runs, c, config.runId, None).value;
      var outcome := Dispatch(config.engine, runner);
      && (outcome.RunOk? ==>
            var (st, p) := PersistSpec(w.stores, c, s, config.output, outcome.result, env.persist);
            && after.stores == st
            && (p.Pass? ==> r == Pass && GetSpec(after.runs, c, config.runId, None)
                                        == Ok(before.(status := Completed, error := None)))
            && (p.Fail? ==> r == p && GetSpec(after.runs, c, config.runId, None)
                                      == Ok(before.(status := Running, error := None))))
      && (!outcome.RunOk? ==>
            var payload := ErrorPayloadFor(config.engine, outcome);
            && r == Pass
            && after.stores == w.stores
            && GetSpec(after.runs, c, config.runId, None)
               == Ok(before.(status := MapErrorToStatus(payload.kind), error := Some(payload))))
  {
    var id := config.runId;
    var row := w.runs[id];
    var running := Overwritten(c, row, Running, None, env.startedAt);
    OverwriteReadBack(c, row, Running, None, env.startedAt);
    var outcome := Dispatch(config.engine, runner);
    if outcome.RunOk? {
      OverwriteReadBack(c, running, Completed, None, env.finishedAt);
    } else {
      var payload := ErrorPayloadFor(config.engine, outcome);
      OverwriteReadBack(c, running, MapErrorToStatus(payload.kind), Some(payload), env.finishedAt);
    }
  }

  /** A persist failure is not recorded as a failure: the run stays `Running`, with no error
      payload, and is never marked `Completed`. */
  lemma PersistFailureLeavesRunning(w: WorkerState, c: Codec, s: StoreSettings, config: EvalConfig,
                                    runner: RunnerOutcome, env: JobEnv)
    requires JobStampsFit(config, runner, env)
    requires env.runningFault.None?
    requires config.runId in w.runs
    requires Dispatch(config.engine, runner).RunOk?
    requires PersistSpec(w.stores, c, s, config.output, runner.result, env.persist).1.Fail?
    ensures var (after, r) := JobSpec(w, c, s, config, runner, env);
      && r.Fail?
      && config.runId in after.runs
      && after.runs[config.runId].status == StatusToStr(Running)
      && after.runs[config.runId].errorKind.None?
      && after.runs[config.runId].status != StatusToStr(Completed)
  {
  }

  /** `Completed` is written only after the result was persisted: a job that leaves the run
      `Completed`, having found it in another status, got a result from the runner and persisted
      it. */
  lemma CompletedOnlyAfterPersist(w: WorkerState, c: Codec, s: StoreSettings, config: EvalConfig,
                                  runner: RunnerOutcome, env: JobEnv)
    requires JobStampsFit(config, runner, env)
    requires config.runId in w.runs
    requires w.runs[config.runId].status != StatusToStr(Completed)
    requires var after := JobSpec(w, c, s, config, runner, env).0;
      config.runId in after.runs && after.runs[config.runId].status == StatusToStr(Completed)
    ensures Dispatch(config.engine, runner).RunOk?
    ensures PersistSpec(w.stores, c, s, config.output, runner.result, env.persist).1.Pass?
  {
    var outcome := Dispatch(config.engine, runner);
    if !outcome.RunOk? {
      var payload := ErrorPayloadFor(config.engine, outcome);
      StatusStringsDistinct(MapErrorToStatus(payload.kind), Completed);
    }
    if outcome.RunOk? && PersistSpec(w.stores, c, s, config.output, runner.result, env.persist).1.Fail? {
      StatusStringsDistinct(Running, Completed);
    }
  }

  /** What one poll of the job queue returned. */
  datatype Poll = NoJob | Job(payload: string)

  /** What one step of the job loop did: slept, dropped an unparsable payload, or processed a job
      (with its outcome, which is only logged). */
  datatype StepOutcome = Slept | Dropped | Processed(result: Outcome<AnyError>)

  /** The payload's job configuration, when it parses, needs a stamp per record of the result. */
  predicate StepStampsFit(parse: string -> Option<EvalConfig>, poll: Poll, runner: RunnerOutcome, env: JobEnv) {
    poll.Job? && parse(poll.payload).Some? ==> JobStampsFit(parse(poll.payload).value, runner, env)
  }

  /** One step of the job loop: `parse` is the payload's JSON decoding into a configuration. */
  function StepSpec(w: WorkerState, c: Codec, s: StoreSettings, parse: string -> Option<EvalConfig>,
                    poll: Poll, runner: RunnerOutcome, env: JobEnv): (WorkerState, StepOutcome)
    requires StepStampsFit(parse, poll, runner, env)
  {
    match poll
    case NoJob => (w, Slept)
    case Job(payload) =>
      match parse(payload)
      case None => (w, Dropped)
      case Some(config) =>
        var (after, r) := JobSpec(w, c, s, config, runner, env);
        (after, Processed(r))
  }

  /** An empty poll and an unparsable payload change nothing; a parsed payload is processed as a
      job, and the step ends normally whether or not the job failed. */
  lemma StepTouchesOnlyJobs(w: WorkerState, c: Codec, s: StoreSettings, parse: string -> Option<EvalConfig>,
                            poll: Poll, runner: RunnerOutcome, env: JobEnv)
    requires StepStampsFit(parse, poll, runner, env)
    ensures var (after, o) := StepSpec(w, c, s, parse, poll, runner, env);
      && (poll.NoJob? ==> after == w && o == Slept)
      && (poll.Job? && parse(poll.payload).None? ==> after == w && o == Dropped)
      && (poll.Job? && parse(poll.payload).Some? ==>
            (after, o.result) == JobSpec(w, c, s, parse(poll.payload).value, runner, env) && o.Processed?)
  {
  }

  /** The worker's context: the run table and the result stores. */
  class WorkerContext {
    const runs: RunTable
    const stores: ResultStoreHandles

    constructor (runs: RunTable, stores: ResultStoreHandles)
      ensures this.runs == runs && this.stores == stores
    {
      this.runs := runs;
      this.stores := stores;
    }

    function Frame(): set<object> {
      {runs} + stores.Stores()
    }

    function State(): WorkerState
      reads Frame()
    {
      WorkerState(runs.rows, stores.Snapshot())
    }

    /** `process_job`. */
    method ProcessJob(c: Codec, config: EvalConfig, runner: RunnerOutcome, env: JobEnv)
      returns (r: Outcome<AnyError>)
      requires JobStampsFit(config, runner, env)
      modifies Frame()
      ensures (State(), r) == JobSpec(old(State()), c, stores.Settings(), config, runner, env)
    {
      var o := runs.UpdateStatus(c, config.runId, Running, None, env.startedAt, env.runningFault);
      if o.Fail? {
        return Fail(FromDomain(o.error));
      }
      var outcome := if config.engine.LmEvalHarness? then runner else RunNotSupported;
      if outcome.RunOk? {
        var p := stores.PersistEvalResult(c, config, outcome.result, env.persist);
        if p.Fail? {
          return p;
        }
        o := runs.UpdateStatus(c, config.runId, Completed, None, env.finishedAt, env.finalFault);
      } else {
        var payload := ErrorPayloadFor(config.engine, outcome);
        var status := MapErrorToStatus(payload.kind);
        o := runs.UpdateStatus(c, config.runId, status, Some(payload), env.finishedAt, env.finalFault);
      }
      r := if o.Fail? then Fail(FromDomain(o.error)) else Pass;
    }

    /** One step of the job loop: sleep on an empty poll, log and drop a payload that does not
        parse, otherwise process the job and log its failure. */
    method HandlePoll(c: Codec, parse: string -> Option<EvalConfig>, poll: Poll, runner: RunnerOutcome,
                      env: JobEnv) returns (o: StepOutcome)
      requires StepStampsFit(parse, poll, runner, env)
      modifies Frame()
      ensures (State(), o) == StepSpec(old(State()), c, stores.Settings(), parse, poll, runner, env)
    {
      if poll.NoJob? {
        return Slept;
      }
      var config := parse(poll.payload);
      if config.None? {
        return Dropped;
      }
      var r := ProcessJob(c, config.value, runner, env);
      o := Processed(r);
    }
  }
}
