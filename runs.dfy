/** The `runs` table: the status and error codecs, reading a row back as a run, creating a run
    and overwriting its status. */
module Runs {
  import opened Wrappers
  import opened Json
  import opened Eval
  import opened Effects

  // ----- status <-> column text -----

  /** The text stored in the `status` column. */
  function StatusToStr(s: RunStatus): string {
    match s
    case Queued => "queued"
    case Running => "running"
    case Completed => "completed"
    case FailedConfig => "failed_config"
    case FailedEngine => "failed_engine"
    case FailedInfra => "failed_infra"
    case TimedOut => "timed_out"
    case Cancelled => "cancelled"
  }

  /** Reads the `status` column: each status's own text gives that status, and any other text
      gives `Queued`. */
  function StatusFromStr(v: string): (s: RunStatus)
    ensures StatusToStr(s) == v || (s == Queued && forall t :: StatusToStr(t) != v)
  {
    match v
    case "queued" => Queued
    case "running" => Running
    case "completed" => Completed
    case "failed_config" => FailedConfig
    case "failed_engine" => FailedEngine
    case "failed_infra" => FailedInfra
    case "timed_out" => TimedOut
    case "cancelled" => RunStatus.Cancelled
    case _ => Queued
  }

  /** Every status survives being written to and read from the `status` column. */
  lemma StatusRoundTrip(s: RunStatus)
    ensures StatusFromStr(StatusToStr(s)) == s
  {
  }

  /** The eight column texts are pairwise distinct. */
  lemma StatusStringsDistinct(a: RunStatus, b: RunStatus)
    requires a != b
    ensures StatusToStr(a) != StatusToStr(b)
  {
    StatusRoundTrip(a);
    StatusRoundTrip(b);
  }

  // ----- error kind <-> column text -----

  /** The kind's `{:?}` (Debug) name. */
  function KindDebugName(k: EvalErrorKind): string {
    match k
    case Config => "Config"
    case Engine => "Engine"
    case Infra => "Infra"
    case Timeout => "Timeout"
    case Cancelled => "Cancelled"
    case Unknown => "Unknown"
  }

  function LowerAsciiChar(ch: char): char {
    if 'A' <= ch <= 'Z' then (ch as int + 32) as char else ch
  }

  /** `str::to_lowercase` on ASCII text. */
  function LowerAscii(s: string): (r: string)
    ensures |r| == |s|
    ensures forall i :: 0 <= i < |s| && 'A' <= s[i] <= 'Z' ==> r[i] as int == s[i] as int + 32
    ensures forall i :: 0 <= i < |s| && !('A' <= s[i] <= 'Z') ==> r[i] == s[i]
    ensures forall i :: 0 <= i < |r| ==> !('A' <= r[i] <= 'Z')
  {
    seq(|s|, i requires 0 <= i < |s| => LowerAsciiChar(s[i]))
  }

  /** The text written to `error_kind`: `format!("{:?}", kind).to_lowercase()`. */
  function ErrorKindColumn(k: EvalErrorKind): string {
    LowerAscii(KindDebugName(k))
  }

  /** Reads `error_kind`: the five named kinds by their serde name, anything else as `Unknown`. */
  function ErrorKindFromColumn(v: string): (k: EvalErrorKind)
    ensures k != Unknown ==> KindName(k) == v
    ensures (forall j :: j != Unknown ==> KindName(j) != v) ==> k == Unknown
  {
    match v
    case "config" => Config
    case "engine" => Engine
    case "infra" => Infra
    case "timeout" => Timeout
    case "cancelled" => EvalErrorKind.Cancelled
    case _ => Unknown
  }

  /** The lowercased Debug name written to the column is exactly the kind's serde name. */
  lemma {:induction false} ErrorKindColumnIsSerdeName(k: EvalErrorKind)
    ensures ErrorKindColumn(k) == KindName(k)
  {
    match k
    case Config => assert LowerAscii("Config") == "config";
    case Engine => assert LowerAscii("Engine") == "engine";
    case Infra => assert LowerAscii("Infra") == "infra";
    case Timeout => assert LowerAscii("Timeout") == "timeout";
    case Cancelled => assert LowerAscii("Cancelled") == "cancelled";
    case Unknown => assert LowerAscii("Unknown") == "unknown";
  }

  /** Every kind, `Unknown` included, survives being written to and read from `error_kind`. */
  lemma {:induction false} ErrorKindRoundTrip(k: EvalErrorKind)
    ensures ErrorKindFromColumn(ErrorKindColumn(k)) == k
  {
    ErrorKindColumnIsSerdeName(k);
  }

  // ----- rows and runs -----

  /** A row of the `runs` table, column by column. */
  datatype RunRow = RunRow(
    id: Uuid,
    experimentId: Uuid,
    projectId: Uuid,
    modelImplId: Uuid,
    checkpointId: Uuid,
    taskId: Uuid,
    runType: string,
    status: string,
    errorKind: Option<string>,
    errorCode: Option<string>,
    errorMessage: Option<string>,
    errorEngine: Option<string>,
    errorDetailsJson: Option<string>,
    startedAt: Option<Timestamp>,
    finishedAt: Option<Timestamp>,
    evalConfigJson: string,
    createdAt: Timestamp,
    updatedAt: Option<Timestamp>)

  /** A run as the domain layer returns it. */
  datatype Run = Run(
    id: Uuid,
    experimentId: Uuid,
    projectId: Uuid,
    modelImplId: Uuid,
    checkpointId: Uuid,
    taskId: Uuid,
    runType: string,
    status: RunStatus,
    error: Option<EvalErrorPayload>,
    startedAt: Option<Timestamp>,
    finishedAt: Option<Timestamp>,
    evalConfig: Json)

  /** What the API hands to `create`. */
  datatype NewRun = NewRun(
    experimentId: Uuid,
    projectId: Uuid,
    modelImplId: Uuid,
    checkpointId: Uuid,
    taskId: Uuid,
    runType: string,
    status: RunStatus,
    evalConfig: Json)

  /** Stands for serde_json's parse-error text, which the model does not reproduce. */
  const ConfigParseError := "eval_config_json does not parse"

  /** Stands for serde_json's serialisation-error text, which the model does not reproduce. */
  const ConfigEncodeError := "eval_config does not serialise"

  /** Stands for the driver's duplicate-key error text. */
  const DuplicateIdError := "duplicate run id"

  /** The error payload stored in a row's five error columns: present iff `error_kind` is set,
      with a missing message read as the empty string. */
  function RowError(c: Codec, row: RunRow): Option<EvalErrorPayload> {
    match row.errorKind
    case None => None
    case Some(kind) =>
      Some(EvalErrorPayload(
        ErrorKindFromColumn(kind),
        row.errorMessage.GetOr(""),
        row.errorCode,
        row.errorEngine,
        DecodeColumn(c, row.errorDetailsJson)))
  }

  /** `row_to_run`: fails only when the stored configuration does not parse. */
  function RowToRun(c: Codec, row: RunRow): Result<Run, DomainError> {
    match c.decode(row.evalConfigJson)
    case None => Err(Internal(ConfigParseError))
    case Some(config) =>
      Ok(Run(row.id, row.experimentId, row.projectId, row.modelImplId, row.checkpointId, row.taskId,
             row.runType, StatusFromStr(row.status), RowError(c, row), row.startedAt, row.finishedAt,
             config))
  }

  /** A read run has an error payload exactly when its row's `error_kind` is set. */
  lemma RowErrorPresence(c: Codec, row: RunRow)
    requires RowToRun(c, row).Ok?
    ensures RowToRun(c, row).value.error.Some? <==> row.errorKind.Some?
    ensures row.errorKind.Some? && row.errorMessage.None? ==> RowToRun(c, row).value.error.value.message == ""
  {
  }

  /** `get`: the query fails with the driver's error, an id with no row is `NotFound`, and a
      present row is read back by `row_to_run`. The run is found exactly when the query succeeds,
      the row exists and its configuration parses. */
  function GetSpec(rows: map<Uuid, RunRow>, c: Codec, id: Uuid, fault: Option<Fault>)
    : (r: Result<Run, DomainError>)
    ensures Fails(1, fault) ==> r == Err(Internal(fault.value.message))
    ensures !Fails(1, fault) ==> (r == Err(NotFound("run not found")) <==> id !in rows)
    ensures r.Ok? <==> !Fails(1, fault) && id in rows && c.decode(rows[id].evalConfigJson).Some?
  {
    if Fails(1, fault) then Err(Internal(fault.value.message))
    else if id in rows then RowToRun(c, rows[id])
    else Err(NotFound("run not found"))
  }

  // ----- update_status -----

  /** The row after `UPDATE runs SET status, error_kind, error_code, error_message, error_engine,
      error_details_json, updated_at`. */
  function Overwritten(c: Codec, row: RunRow, status: RunStatus, error: Option<EvalErrorPayload>,
                       now: Timestamp): RunRow
  {
    row.(
      status := StatusToStr(status),
      errorKind := if error.Some? then Some(ErrorKindColumn(error.value.kind)) else None,
      errorCode := if error.Some? then error.value.code else None,
      errorMessage := if error.Some? then Some(error.value.message) else None,
      errorEngine := if error.Some? then error.value.engine else None,
      errorDetailsJson := EncodeColumn(c, if error.Some? then error.value.details else None, "{}"),
      updatedAt := Some(now))
  }

  /** The effect of `update_status`: one statement, which either fails and changes nothing or
      overwrites the row with that id; an id with no row is updated silently (zero rows). */
  function UpdateStatusSpec(rows: map<Uuid, RunRow>, c: Codec, id: Uuid, status: RunStatus,
                            error: Option<EvalErrorPayload>, now: Timestamp, fault: Option<Fault>)
    : (map<Uuid, RunRow>, Outcome<DomainError>)
  {
    if Fails(1, fault) then (rows, Fail(Internal(fault.value.message)))
    else if id in rows then (rows[id := Overwritten(c, rows[id], status, error, now)], Pass)
    else (rows, Pass)
  }

  /** `update_status` writes only `status`, the five error columns and `updated_at`; in
      particular `started_at`, `finished_at` and the stored configuration are never touched. */
  lemma OverwriteKeepsOtherColumns(c: Codec, row: RunRow, status: RunStatus,
                                   error: Option<EvalErrorPayload>, now: Timestamp)
    ensures var r := Overwritten(c, row, status, error, now);
      r.(status := row.status, errorKind := row.errorKind, errorCode := row.errorCode,
         errorMessage := row.errorMessage, errorEngine := row.errorEngine,
         errorDetailsJson := row.errorDetailsJson, updatedAt := row.updatedAt) == row
  {
  }

  /** Without an error, all five error columns become null. */
  lemma NoErrorClearsErrorColumns(c: Codec, row: RunRow, status: RunStatus, now: Timestamp)
    ensures var r := Overwritten(c, row, status, None, now);
      r.errorKind == None && r.errorCode == None && r.errorMessage == None &&
      r.errorEngine == None && r.errorDetailsJson == None
  {
  }

  /** Last writer wins: a second overwrite erases every trace of the first, whatever status or
      error the first wrote. */
  lemma {:induction false} LastWriterWins(c: Codec, row: RunRow, s1: RunStatus, e1: Option<EvalErrorPayload>,
                        t1: Timestamp, s2: RunStatus, e2: Option<EvalErrorPayload>, t2: Timestamp)
    ensures Overwritten(c, Overwritten(c, row, s1, e1, t1), s2, e2, t2) == Overwritten(c, row, s2, e2, t2)
  {
  }

  /** Repeating the same `update_status` leaves the same final table and the same outcome. */
  lemma {:induction false} UpdateStatusIdempotent(rows: map<Uuid, RunRow>, c: Codec, id: Uuid,
                                 status: RunStatus, error: Option<EvalErrorPayload>, now: Timestamp)
    ensures var once := UpdateStatusSpec(rows, c, id, status, error, now, None);
      UpdateStatusSpec(once.0, c, id, status, error, now, None) == once
  {
    if id in rows {
      var row := Overwritten(c, rows[id], status, error, now);
      LastWriterWins(c, rows[id], status, error, now, status, error, now);
      assert rows[id := row][id := Overwritten(c, row, status, error, now)] == rows[id := row];
    }
  }

  /** Reading a row back after it is overwritten gives the status and the error payload that
      were written, and everything else as it was read before (for an error whose details
      encode; see Json.ColumnRoundTrip for the `{}` fallback). */
  lemma {:induction false} OverwriteReadBack(c: Codec, row: RunRow, status: RunStatus,
                                             error: Option<EvalErrorPayload>, now: Timestamp)
    requires Faithful(c)
    requires RowToRun(c, row).Ok?
    requires error.Some? && error.value.details.Some? ==> c.encode(error.value.details.value).Some?
    ensures RowToRun(c, Overwritten(c, row, status, error, now))
         == Ok(RowToRun(c, row).value.(status := status, error := error))
  {
    StatusRoundTrip(status);
    if error.Some? {
      ErrorKindRoundTrip(error.value.kind);
      ColumnRoundTrip(c, error.value.details, "{}");
    }
  }

  /** `get` after a successful `update_status` returns the run as `get` returned it before, with
      the written status and error payload; every other run reads as before. */
  lemma {:induction false} UpdateStatusReadBack(rows: map<Uuid, RunRow>, c: Codec, id: Uuid, status: RunStatus,
                                                error: Option<EvalErrorPayload>, now: Timestamp)
    requires Faithful(c)
    requires GetSpec(rows, c, id, None).Ok?
    requires error.Some? && error.value.details.Some? ==> c.encode(error.value.details.value).Some?
    ensures var (after, o) := UpdateStatusSpec(rows, c, id, status, error, now, None);
      && o == Pass
      && GetSpec(after, c, id, None) == Ok(GetSpec(rows, c, id, None).value.(status := status, error := error))
      && forall k :: k != id ==> GetSpec(after, c, k, None) == GetSpec(rows, c, k, None)
  {
    OverwriteReadBack(c, rows[id], status, error, now);
  }

  // ----- create -----

  /** `create`'s stamping of the configuration: a JSON object gets `run_id` and `project_id`
      set (replacing earlier values) and keeps every other key; any other value is left as is. */
  function StampConfig(config: Json, id: Uuid, projectId: Uuid): (r: Json)
    ensures r.JObj? <==> config.JObj?
    ensures !config.JObj? ==> r == config
    ensures config.JObj? ==>
      && r.fields.Keys == config.fields.Keys + {"run_id", "project_id"}
      && r.fields["run_id"] == JStr(id.text)
      && r.fields["project_id"] == JStr(projectId.text)
      && forall k :: k in config.fields && k != "run_id" && k != "project_id" ==> r.fields[k] == config.fields[k]
  {
    match config
    case JObj(m) => JObj(m["run_id" := JStr(id.text)]["project_id" := JStr(projectId.text)])
    case _ => config
  }

  /** The row `create` inserts. */
  function NewRow(p: NewRun, id: Uuid, configText: string, now: Timestamp): RunRow {
    RunRow(id, p.experimentId, p.projectId, p.modelImplId, p.checkpointId, p.taskId, p.runType,
           StatusToStr(p.status), None, None, None, None, None, None, None, configText, now, None)
  }

  /** The run `create` returns. */
  function CreatedRun(p: NewRun, id: Uuid): Run {
    Run(id, p.experimentId, p.projectId, p.modelImplId, p.checkpointId, p.taskId, p.runType,
        p.status, None, None, None, StampConfig(p.evalConfig, id, p.projectId))
  }

  /** The effect of `create` with the fresh id `id`: encoding the stamped configuration can fail,
      and so can the insert (which also refuses an id already present). */
  function CreateSpec(rows: map<Uuid, RunRow>, c: Codec, p: NewRun, id: Uuid, now: Timestamp,
                      fault: Option<Fault>): (map<Uuid, RunRow>, Result<Run, DomainError>)
  {
    var config := StampConfig(p.evalConfig, id, p.projectId);
    match c.encode(config)
    case None => (rows, Err(Internal(ConfigEncodeError)))
    case Some(text) =>
      if Fails(1, fault) then (rows, Err(Internal(fault.value.message)))
      else if id in rows then (rows, Err(Internal(DuplicateIdError)))
      else (rows[id := NewRow(p, id, text, now)], Ok(CreatedRun(p, id)))
  }

  /** A created run has the requested status, no error and no start or finish time; `get` of
      its id then returns exactly the run `create` returned, and every other run reads as
      before. */
  lemma {:induction false} CreateThenRead(rows: map<Uuid, RunRow>, c: Codec, p: NewRun, id: Uuid,
                                          now: Timestamp, fault: Option<Fault>)
    requires Faithful(c)
    requires CreateSpec(rows, c, p, id, now, fault).1.Ok?
    ensures var (after, r) := CreateSpec(rows, c, p, id, now, fault);
      && r.value.status == p.status && r.value.error.None?
      && r.value.startedAt.None? && r.value.finishedAt.None?
      && GetSpec(after, c, id, None) == Ok(r.value)
      && forall k :: k != id ==> GetSpec(after, c, k, None) == GetSpec(rows, c, k, None)
  {
    StatusRoundTrip(p.status);
  }

  /** The `runs` table. */
  class RunTable {
    var rows: map<Uuid, RunRow>

    constructor (rows: map<Uuid, RunRow>)
      ensures this.rows == rows
    {
      this.rows := rows;
    }

    /** `get`: one query by id, then `row_to_run` on the row found. */
    method Get(c: Codec, id: Uuid, fault: Option<Fault>) returns (r: Result<Run, DomainError>)
      ensures r == GetSpec(rows, c, id, fault)
    {
      if Fails(1, fault) {
        return Err(Internal(fault.value.message));
      }
      if id in rows {
        r := RowToRun(c, rows[id]);
      } else {
        r := Err(NotFound("run not found"));
      }
    }

    /** `update_status`: an unconditional overwrite of the row's status and error columns. */
    method UpdateStatus(c: Codec, id: Uuid, status: RunStatus, error: Option<EvalErrorPayload>,
                        now: Timestamp, fault: Option<Fault>) returns (r: Outcome<DomainError>)
      modifies this
      ensures (rows, r) == UpdateStatusSpec(old(rows), c, id, status, error, now, fault)
    {
      if Fails(1, fault) {
        return Fail(Internal(fault.value.message));
      }
      if id in rows {
        var row := rows[id];
        row := row.(status := StatusToStr(status));
        if error.Some? {
          var e := error.value;
          row := row.(errorKind := Some(ErrorKindColumn(e.kind)), errorCode := e.code,
                      errorMessage := Some(e.message), errorEngine := e.engine,
                      errorDetailsJson := EncodeColumn(c, e.details, "{}"));
        } else {
          row := row.(errorKind := None, errorCode := None, errorMessage := None,
                      errorEngine := None, errorDetailsJson := None);
        }
        row := row.(updatedAt := Some(now));
        rows := rows[id := row];
      }
      r := Pass;
    }

    /** `create`: stamps the configuration in place, encodes it and inserts the new row. */
    method Create(c: Codec, p: NewRun, id: Uuid, now: Timestamp, fault: Option<Fault>)
      returns (r: Result<Run, DomainError>)
      modifies this
      ensures (rows, r) == CreateSpec(old(rows), c, p, id, now, fault)
    {
      var config := p.evalConfig;
      if config.JObj? {
        var m := config.fields;
        m := m["run_id" := JStr(id.text)];
        m := m["project_id" := JStr(p.projectId.text)];
        config := JObj(m);
      }
      var text := c.encode(config);
      if text.None? {
        return Err(Internal(ConfigEncodeError));
      }
      if Fails(1, fault) {
        return Err(Internal(fault.value.message));
      }
      if id in rows {
        return Err(Internal(DuplicateIdError));
      }
      rows := rows[id := NewRow(p, id, text.value, now)];
      r := Ok(Run(id, p.experimentId, p.projectId, p.modelImplId, p.checkpointId, p.taskId,
                  p.runType, p.status, None, None, None, config));
    }
  }
}
