/** The run lifecycle service: pipeline_runs rows moved by compare-and-set. */
module Runs {
  import opened Common

  datatype RunStatus = PENDING | RUNNING | SUCCESS | FAILED | CANCELLED

  predicate Terminal(s: RunStatus) { s in {SUCCESS, FAILED, CANCELLED} }

  /** The published transition table; PENDING cannot go straight to SUCCESS. */
  predicate AllowedTransition(from: RunStatus, to: RunStatus) {
    match from
    case PENDING => to in {RUNNING, FAILED, CANCELLED}
    case RUNNING => to in {SUCCESS, FAILED, CANCELLED}
    case _ => false
  }

  datatype RunRecord = RunRecord(
    runId: nat,
    pipelineName: string,
    status: RunStatus,
    triggerSource: Option<string>,
    datasetVersion: Option<string>,
    modelVersion: Option<string>,
    recordsProcessed: int,
    recordsRejected: int,
    artifacts: string,
    errorType: Option<string>,
    errorMessage: Option<string>,
    startedAt: int,
    heartbeatAt: Option<int>,
    completedAt: Option<int>)

  /** The columns of one UPDATE; None leaves the column alone. */
  datatype Updates = Updates(
    status: RunStatus,
    heartbeatAt: Option<int>,
    completedAt: Option<int>,
    recordsProcessed: Option<int>,
    recordsRejected: Option<int>,
    datasetVersion: Option<string>,
    modelVersion: Option<string>,
    artifacts: Option<string>,
    errorType: Option<Option<string>>,
    errorMessage: Option<Option<string>>)

  function Or<T>(update: Option<T>, current: T): T { if update.Some? then update.value else current }

  function ApplyUpdates(r: RunRecord, u: Updates): RunRecord {
    r.(status := u.status,
       heartbeatAt := if u.heartbeatAt.Some? then u.heartbeatAt else r.heartbeatAt,
       completedAt := if u.completedAt.Some? then u.completedAt else r.completedAt,
       recordsProcessed := Or(u.recordsProcessed, r.recordsProcessed),
       recordsRejected := Or(u.recordsRejected, r.recordsRejected),
       datasetVersion := if u.datasetVersion.Some? then u.datasetVersion else r.datasetVersion,
       modelVersion := if u.modelVersion.Some? then u.modelVersion else r.modelVersion,
       artifacts := Or(u.artifacts, r.artifacts),
       errorType := Or(u.errorType, r.errorType),
       errorMessage := Or(u.errorMessage, r.errorMessage))
  }

  /** The optional columns a finaliser may also write. */
  datatype Details = Details(
    recordsProcessed: Option<int>,
    recordsRejected: Option<int>,
    datasetVersion: Option<string>,
    modelVersion: Option<string>,
    artifacts: Option<string>)

  const NO_DETAILS := Details(None, None, None, None, None)

  /** One call of a lifecycle method; `cancel` carries no record counts. */
  datatype Call =
    | Heartbeat(now: int)
    | Succeed(now: int, details: Details)
    | Fail(now: int, errorType: Option<string>, errorMessage: Option<string>, details: Details)
    | Cancel(
        now: int, reason: Option<string>,
        datasetVersion: Option<string>, modelVersion: Option<string>, artifacts: Option<string>)
  {
    function Target(): RunStatus {
      match this
      case Heartbeat(_) => RUNNING
      case Succeed(_, _) => SUCCESS
      case Fail(_, _, _, _) => FAILED
      case Cancel(_, _, _, _, _) => CANCELLED
    }

    function AllowedFrom(): set<RunStatus> {
      if Heartbeat? || Succeed? then {RUNNING} else {PENDING, RUNNING}
    }

    function ToUpdates(): Updates {
      match this
      case Heartbeat(now) => Updates(RUNNING, Some(now), None, None, None, None, None, None, None, None)
      case Succeed(now, d) =>
        Updates(SUCCESS, None, Some(now), d.recordsProcessed, d.recordsRejected,
                d.datasetVersion, d.modelVersion, d.artifacts, None, None)
      case Fail(now, type_, message, d) =>
        Updates(FAILED, None, Some(now), d.recordsProcessed, d.recordsRejected,
                d.datasetVersion, d.modelVersion, d.artifacts, Some(type_), Some(message))
      case Cancel(now, reason, dataset, model, artifacts) =>
        Updates(CANCELLED, None, Some(now), None, None, dataset, model, artifacts, None, Some(reason))
    }
  }

  datatype RunError =
    | RunNotFound(runId: nat)
    | InvalidTransition(runId: nat, from: RunStatus, to: RunStatus)
    | BadArgument

  type Rows = map<nat, RunRecord>

  /** Would the UPDATE's WHERE clause match? */
  predicate CasMatches(rows: Rows, runId: nat, allowedFrom: set<RunStatus>) {
    runId in rows && rows[runId].status in allowedFrom
  }

  function CasRows(rows: Rows, runId: nat, allowedFrom: set<RunStatus>, u: Updates): Rows {
    if CasMatches(rows, runId, allowedFrom) then rows[runId := ApplyUpdates(rows[runId], u)] else rows
  }

  /** What the separate read after a missed update tells the caller. */
  function ReadOutcome(rows: Rows, runId: nat, target: RunStatus): Result<RunRecord, RunError> {
    if runId !in rows then Failure(RunNotFound(runId))
    else if rows[runId].status == target then Success(rows[runId])
    else Failure(InvalidTransition(runId, rows[runId].status, target))
  }

  /** The result of a call that nothing interrupts. */
  function CallOutcome(rows: Rows, runId: nat, call: Call): Result<RunRecord, RunError> {
    if CasMatches(rows, runId, call.AllowedFrom()) then Success(ApplyUpdates(rows[runId], call.ToUpdates()))
    else ReadOutcome(rows, runId, call.Target())
  }

  function CallRows(rows: Rows, runId: nat, call: Call): Rows {
    CasRows(rows, runId, call.AllowedFrom(), call.ToUpdates())
  }

  const PIPELINE_NAMES :=
    {"batch", "train", "stream", "fraud_score", "label_eligibility", "model_promotion", "fraud_evaluation"}
  const TRIGGER_SOURCES := {"cli", "legacy", "github_actions", "api", "test"}

  function NewRun(
    runId: nat, pipelineName: string, status: RunStatus, trigger: Option<string>, dataset: Option<string>, now: int)
    : RunRecord
  {
    RunRecord(runId, pipelineName, status, trigger, dataset, None, 0, 0, "{}", None, None, now, None, None)
  }

  class RunStore {
    var rows: Rows
    var nextId: nat

    ghost predicate Valid() reads this {
      forall id :: id in rows ==> id < nextId && rows[id].runId == id
    }

    constructor ()
      ensures Valid() && rows == map[]
    {
      rows, nextId := map[], 1;
    }

    method Insert(pipelineName: string, status: RunStatus, trigger: Option<string>, dataset: Option<string>, now: int)
      returns (r: RunRecord)
      requires Valid()
      modifies this
      ensures Valid()
      ensures r == NewRun(old(nextId), pipelineName, status, trigger, dataset, now)
      ensures r.runId !in old(rows) && rows == old(rows)[r.runId := r] && nextId == old(nextId) + 1
    {
      r := NewRun(nextId, pipelineName, status, trigger, dataset, now);
      rows, nextId := rows[nextId := r], nextId + 1;
    }

    method CompareAndSet(runId: nat, allowedFrom: set<RunStatus>, u: Updates) returns (r: Option<RunRecord>)
      requires Valid()
      modifies this`rows
      ensures Valid()
      ensures rows == CasRows(old(rows), runId, allowedFrom, u)
      ensures r == if CasMatches(old(rows), runId, allowedFrom) then Some(rows[runId]) else None
    {
      if runId in rows && rows[runId].status in allowedFrom {
        rows := rows[runId := ApplyUpdates(rows[runId], u)];
        r := Some(rows[runId]);
      } else {
        r := None;
      }
    }

    method Get(runId: nat) returns (r: Option<RunRecord>)
      ensures r == if runId in rows then Some(rows[runId]) else None
    {
      r := if runId in rows then Some(rows[runId]) else None;
    }
  }

  class RunLifecycle {
    const store: RunStore

    constructor (store: RunStore)
      ensures this.store == store
    {
      this.store := store;
    }

    method Begin(pipelineName: string, status: RunStatus, trigger: Option<string>, dataset: Option<string>, now: int)
      returns (r: Result<RunRecord, RunError>)
      requires store.Valid()
      modifies store
      ensures store.Valid()
      ensures r.Success? <==>
        pipelineName in PIPELINE_NAMES && status in {PENDING, RUNNING}
          && (trigger.None? || trigger.value in TRIGGER_SOURCES)
      ensures r.Failure? ==> store.rows == old(store.rows)
      ensures r.Success? ==>
        r.value.runId !in old(store.rows) && store.rows == old(store.rows)[r.value.runId := r.value]
      ensures r.Success? ==> r.value == NewRun(r.value.runId, pipelineName, status, trigger, dataset, now)
      ensures r.Success? ==> r.value == RunRecord(
        r.value.runId, pipelineName, status, trigger, dataset, None, 0, 0, "{}", None, None, now, None, None)
    {
      if pipelineName !in PIPELINE_NAMES {
        return Failure(BadArgument);
      }
      if status !in {PENDING, RUNNING} {
        return Failure(BadArgument);
      }
      if trigger.Some? && trigger.value !in TRIGGER_SOURCES {
        return Failure(BadArgument);
      }
      var row := store.Insert(pipelineName, status, trigger, dataset, now);
      r := Success(row);
    }

    /** Compare-and-set, then a separate read when it missed. */
    method Transition(runId: nat, call: Call) returns (r: Result<RunRecord, RunError>)
      requires store.Valid()
      modifies store`rows
      ensures store.Valid()
      ensures store.rows == CallRows(old(store.rows), runId, call)
      ensures r == CallOutcome(old(store.rows), runId, call)
    {
      var updated := store.CompareAndSet(runId, call.AllowedFrom(), call.ToUpdates());
      if updated.Some? {
        return Success(updated.value);
      }
      var current := store.Get(runId);
      if current.None? {
        return Failure(RunNotFound(runId));
      }
      if current.value.status == call.Target() {
        return Success(current.value);
      }
      r := Failure(InvalidTransition(runId, current.value.status, call.Target()));
    }
  }

  /** What each of the four calls writes into a row it finds in a status it may leave. */
  predicate Writes(call: Call, row: RunRecord, row': RunRecord) {
    match call
    case Heartbeat(now) => row' == row.(status := RUNNING, heartbeatAt := Some(now))
    case Succeed(now, d) =>
      row' == WithDetails(row, d).(status := SUCCESS, completedAt := Some(now))
    case Fail(now, type_, message, d) =>
      row' == WithDetails(row, d).(
        status := FAILED, completedAt := Some(now), errorType := type_, errorMessage := message)
    case Cancel(now, reason, dataset, model, artifacts) =>
      row' == WithDetails(row, Details(None, None, dataset, model, artifacts)).(
        status := CANCELLED, completedAt := Some(now), errorMessage := reason)
  }

  /** The optional columns that were given replace the row's, the others stay. */
  function WithDetails(row: RunRecord, d: Details): RunRecord {
    row.(recordsProcessed := if d.recordsProcessed.Some? then d.recordsProcessed.value else row.recordsProcessed,
         recordsRejected := if d.recordsRejected.Some? then d.recordsRejected.value else row.recordsRejected,
         datasetVersion := if d.datasetVersion.Some? then d.datasetVersion else row.datasetVersion,
         modelVersion := if d.modelVersion.Some? then d.modelVersion else row.modelVersion,
         artifacts := if d.artifacts.Some? then d.artifacts.value else row.artifacts)
  }

  /** The statuses each call may leave: a heartbeat and a success only RUNNING, a failure and a cancellation also
      PENDING. */
  predicate MayLeave(call: Call, s: RunStatus) {
    s == RUNNING || (s == PENDING && (call.Fail? || call.Cancel?))
  }

  /** An uninterrupted call writes exactly when the run is there in a status it may leave; otherwise it changes
      nothing, and answers with the row when that has the target status already. */
  lemma {:induction false} CallMeans(rows: Rows, runId: nat, call: Call)
    ensures runId !in rows ==> CallOutcome(rows, runId, call) == Failure(RunNotFound(runId))
    ensures runId !in rows || !MayLeave(call, rows[runId].status) ==> CallRows(rows, runId, call) == rows
    ensures runId in rows && MayLeave(call, rows[runId].status) ==>
      var rows' := CallRows(rows, runId, call);
      && rows'.Keys == rows.Keys && (forall id :: id in rows && id != runId ==> rows'[id] == rows[id])
      && Writes(call, rows[runId], rows'[runId]) && CallOutcome(rows, runId, call) == Success(rows'[runId])
    ensures runId in rows && !MayLeave(call, rows[runId].status) ==>
      var s, target := rows[runId].status, match call
        case Heartbeat(_) => RUNNING case Succeed(_, _) => SUCCESS case Fail(_, _, _, _) => FAILED
        case Cancel(_, _, _, _, _) => CANCELLED;
      CallOutcome(rows, runId, call)
      == if s == target then Success(rows[runId]) else Failure(InvalidTransition(runId, s, target))
  {
  }

  /** The published table, pair by pair, and what a call does to it. */
  lemma {:induction false} TableMeans(s: RunStatus, t: RunStatus, call: Call)
    ensures Terminal(s) <==> s != PENDING && s != RUNNING
    ensures AllowedTransition(s, t) <==>
      || (s == PENDING && (t == RUNNING || t == FAILED || t == CANCELLED))
      || (s == RUNNING && (t == SUCCESS || t == FAILED || t == CANCELLED))
    ensures MayLeave(call, s) && !call.Heartbeat? <==> call.Target() != RUNNING && AllowedTransition(s, call.Target())
  {
  }

  /** Repeating a finaliser, with any arguments, returns the first record and writes nothing. */
  lemma {:induction false} FinaliseIsIdempotent(rows: Rows, runId: nat, call: Call, again: Call)
    requires !call.Heartbeat? && call.Target() == again.Target()
    requires CallOutcome(rows, runId, call).Success?
    ensures var rows' := CallRows(rows, runId, call);
      && CallRows(rows', runId, again) == rows'
      && CallOutcome(rows', runId, again) == CallOutcome(rows, runId, call)
  {
  }

  /** A finaliser that lost to a different one is refused and changes nothing. */
  lemma {:induction false} LoserIsRefused(rows: Rows, runId: nat, winner: Call, loser: Call)
    requires !winner.Heartbeat? && winner.Target() != loser.Target()
    requires CallOutcome(rows, runId, winner).Success?
    ensures var rows' := CallRows(rows, runId, winner);
      && CallRows(rows', runId, loser) == rows'
      && CallOutcome(rows', runId, loser) == Failure(InvalidTransition(runId, winner.Target(), loser.Target()))
  {
  }
}
