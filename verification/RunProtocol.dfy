/** Every interleaving of lifecycle callers. A call is two separate steps on the store:
    the compare-and-set, and - only when that missed - a read. */
module RunProtocol {
  import opened Common
  import opened Runs

  datatype Caller =
    | Waiting(runId: nat, call: Call)
    /** The update missed; `existed` says whether the row existed at that moment. */
    | Missed(runId: nat, call: Call, existed: bool)
    | Done(runId: nat, call: Call, outcome: Result<RunRecord, RunError>)

  /** One committed status write. */
  datatype Write = Write(runId: nat, caller: nat, from: RunStatus, to: RunStatus)

  datatype World = World(rows: Rows, nextId: nat, callers: map<nat, Caller>, writes: seq<Write>)

  datatype Action =
    | BeginRun(pipelineName: string, pending: bool, trigger: Option<string>, dataset: Option<string>, now: int)
    | Invoke(caller: nat, runId: nat, call: Call)
    | CompareAndSet(caller: nat)
    | Reread(caller: nat)

  const EMPTY := World(map[], 1, map[], [])

  function Cas(w: World, c: nat): World
    requires c in w.callers && w.callers[c].Waiting?
  {
    var Waiting(id, call) := w.callers[c];
    if CasMatches(w.rows, id, call.AllowedFrom()) then
      w.(rows := CallRows(w.rows, id, call),
         callers := w.callers[c := Done(id, call, Success(ApplyUpdates(w.rows[id], call.ToUpdates())))],
         writes := w.writes + [Write(id, c, w.rows[id].status, call.Target())])
    else w.(callers := w.callers[c := Missed(id, call, id in w.rows)])
  }

  function Apply(w: World, a: Action): World {
    match a
    case BeginRun(name, pending, trigger, dataset, now) =>
      var run := NewRun(w.nextId, name, if pending then PENDING else RUNNING, trigger, dataset, now);
      w.(rows := w.rows[w.nextId := run], nextId := w.nextId + 1)
    case Invoke(c, id, call) =>
      if c in w.callers then w else w.(callers := w.callers[c := Waiting(id, call)])
    case CompareAndSet(c) =>
      if c in w.callers && w.callers[c].Waiting? then Cas(w, c) else w
    case Reread(c) =>
      if c in w.callers && w.callers[c].Missed? then
        var Missed(id, call, _) := w.callers[c];
        w.(callers := w.callers[c := Done(id, call, ReadOutcome(w.rows, id, call.Target()))])
      else w
  }

  function Run(w: World, actions: seq<Action>): World {
    if actions == [] then w else Apply(Run(w, actions[..|actions| - 1]), actions[|actions| - 1])
  }

  function TerminalWrites(writes: seq<Write>, runId: nat): nat {
    if writes == [] then 0
    else
      var last := writes[|writes| - 1];
      TerminalWrites(writes[..|writes| - 1], runId) + if last.runId == runId && Terminal(last.to) then 1 else 0
  }

  ghost predicate RowsFresh(w: World) { forall id :: id in w.rows ==> id < w.nextId }

  ghost predicate CallerInv(w: World, k: Caller) {
    match k
    case Waiting(_, _) => true
    case Missed(id, call, existed) => existed ==> id in w.rows && w.rows[id].status !in call.AllowedFrom()
    case Done(id, call, Success(rec)) =>
      id in w.rows && rec.status == call.Target() && (Terminal(rec.status) ==> w.rows[id] == rec)
    case Done(_, _, Failure(_)) => true
  }

  ghost predicate WritesInv(w: World) {
    && (forall x :: x in w.writes ==>
        x.runId in w.rows && (AllowedTransition(x.from, x.to) || x.from == x.to == RUNNING))
    && (forall id :: TerminalWrites(w.writes, id) == if id in w.rows && Terminal(w.rows[id].status) then 1 else 0)
  }

  ghost predicate Inv(w: World) {
    && RowsFresh(w) && WritesInv(w)
    && forall c :: c in w.callers ==> CallerInv(w, w.callers[c])
  }

  /** A row only ever moves forward: terminal rows are frozen, and nothing returns to PENDING
      or reaches RUNNING from anywhere but RUNNING. */
  ghost predicate RowAdvances(r: RunRecord, r': RunRecord) {
    && r'.runId == r.runId && r'.pipelineName == r.pipelineName && r'.startedAt == r.startedAt
    && (Terminal(r.status) ==> r' == r)
    && (r'.status != r.status ==> AllowedTransition(r.status, r'.status) && Terminal(r'.status))
  }

  lemma {:induction false} StepAdvances(w: World, a: Action, id: nat)
    requires RowsFresh(w) && id in w.rows
    ensures RowsFresh(Apply(w, a))
    ensures id in Apply(w, a).rows && RowAdvances(w.rows[id], Apply(w, a).rows[id])
  {
  }

  /** A begun run is one fresh row: PENDING or RUNNING as asked, with its arguments and nothing else. */
  lemma {:induction false} BeginMeans(
    w: World, name: string, pending: bool, trigger: Option<string>, dataset: Option<string>, now: int)
    ensures var w' := Apply(w, BeginRun(name, pending, trigger, dataset, now));
      && w'.nextId == w.nextId + 1 && w'.callers == w.callers && w'.writes == w.writes
      && w'.rows == w.rows[w.nextId := RunRecord(
           w.nextId, name, if pending then PENDING else RUNNING, trigger, dataset, None, 0, 0, "{}", None, None, now,
           None, None)]
  {
  }

  lemma {:induction false} StepRowsFresh(w: World, a: Action)
    requires RowsFresh(w)
    ensures RowsFresh(Apply(w, a))
  {
  }

  lemma {:induction false} StepWrites(w: World, a: Action)
    requires Inv(w)
    ensures WritesInv(Apply(w, a))
  {
    var w' := Apply(w, a);
    forall id ensures TerminalWrites(w'.writes, id) == if id in w'.rows && Terminal(w'.rows[id].status) then 1 else 0 {
      if w'.writes != w.writes {
        assert w'.writes[..|w'.writes| - 1] == w.writes;
      }
    }
  }

  lemma {:induction false} StepCaller(w: World, a: Action, c: nat)
    requires Inv(w) && c in Apply(w, a).callers
    ensures CallerInv(Apply(w, a), Apply(w, a).callers[c])
  {
    if c in w.callers && Apply(w, a).callers[c] == w.callers[c] {
      var k := w.callers[c];
      if k.runId in w.rows { StepAdvances(w, a, k.runId); }
    }
  }

  lemma {:induction false} StepInv(w: World, a: Action)
    requires Inv(w)
    ensures Inv(Apply(w, a))
  {
    StepRowsFresh(w, a);
    StepWrites(w, a);
    forall c | c in Apply(w, a).callers ensures CallerInv(Apply(w, a), Apply(w, a).callers[c]) {
      StepCaller(w, a, c);
    }
  }

  lemma {:induction false} RunInv(w: World, actions: seq<Action>)
    requires Inv(w)
    ensures Inv(Run(w, actions))
  {
    if actions != [] {
      RunInv(w, actions[..|actions| - 1]);
      StepInv(Run(w, actions[..|actions| - 1]), actions[|actions| - 1]);
    }
  }

  /** Once terminal, no field of the row ever changes, whatever callers do. */
  lemma {:induction false} TerminalRowsFrozen(w: World, actions: seq<Action>, id: nat)
    requires RowsFresh(w) && id in w.rows && Terminal(w.rows[id].status)
    ensures id in Run(w, actions).rows && Run(w, actions).rows[id] == w.rows[id]
    ensures RowsFresh(Run(w, actions))
  {
    if actions != [] {
      TerminalRowsFrozen(w, actions[..|actions| - 1], id);
      StepAdvances(Run(w, actions[..|actions| - 1]), actions[|actions| - 1], id);
    }
  }

  /** All callers that got a terminal record of one run got the very same record. */
  lemma {:induction false} TerminalCallersAgree(actions: seq<Action>, c: nat, d: nat)
    requires c in Run(EMPTY, actions).callers && d in Run(EMPTY, actions).callers
    requires var k, l := Run(EMPTY, actions).callers[c], Run(EMPTY, actions).callers[d];
      && k.Done? && l.Done? && k.outcome.Success? && l.outcome.Success? && k.runId == l.runId
      && Terminal(k.outcome.value.status) && Terminal(l.outcome.value.status)
    ensures var w := Run(EMPTY, actions);
      && w.callers[c].outcome == w.callers[d].outcome
      && w.callers[c].call.Target() == w.callers[d].call.Target()
      && w.callers[c].runId in w.rows && w.rows[w.callers[c].runId] == w.callers[c].outcome.value
  {
    RunInv(EMPTY, actions);
    assert CallerInv(Run(EMPTY, actions), Run(EMPTY, actions).callers[c]);
    assert CallerInv(Run(EMPTY, actions), Run(EMPTY, actions).callers[d]);
  }

  /** Each run receives at most one terminal update, exactly one once its row is terminal,
      and every status write is in the table or is the RUNNING-to-RUNNING heartbeat. */
  lemma {:induction false} OneTerminalWrite(actions: seq<Action>, id: nat)
    ensures var w := Run(EMPTY, actions);
      && TerminalWrites(w.writes, id) == (if id in w.rows && Terminal(w.rows[id].status) then 1 else 0)
      && forall x :: x in w.writes ==> AllowedTransition(x.from, x.to) || x.from == x.to == RUNNING
  {
    RunInv(EMPTY, actions);
  }

  /** A run has a completion time exactly when its row is terminal. */
  lemma {:induction false} CompletedIffTerminal(actions: seq<Action>, id: nat)
    requires id in Run(EMPTY, actions).rows
    ensures Run(EMPTY, actions).rows[id].completedAt.Some? <==> Terminal(Run(EMPTY, actions).rows[id].status)
  {
    if actions != [] {
      var before := Run(EMPTY, actions[..|actions| - 1]);
      if id in before.rows { CompletedIffTerminal(actions[..|actions| - 1], id); }
    }
  }

  // ---- does the late read give the answer of an uninterrupted call? ----

  /** When the run existed at the missed update, the read answers exactly as the whole call,
      run at the moment of the read, would have. */
  lemma {:induction false} ReadActsAtomically(actions: seq<Action>, c: nat)
    requires var w := Run(EMPTY, actions); c in w.callers && w.callers[c].Missed? && w.callers[c].existed
    ensures var w := Run(EMPTY, actions);
      var k := w.callers[c];
      && Apply(w, Reread(c)).callers[c] == Done(k.runId, k.call, CallOutcome(w.rows, k.runId, k.call))
      && CallRows(w.rows, k.runId, k.call) == w.rows
  {
    RunInv(EMPTY, actions);
    assert CallerInv(Run(EMPTY, actions), Run(EMPTY, actions).callers[c]);
  }

  /** The row already carries this very heartbeat, so writing it would change nothing. */
  predicate AlreadyBeaten(rows: Rows, id: nat, call: Call) {
    call.Heartbeat? && id in rows && rows[id].heartbeatAt == Some(call.now)
  }

  /** In every interleaving, a missed call's later read gives the answer of the uninterrupted call exactly when
      the run existed at the miss, or the update would still miss, or it would rewrite the same heartbeat. */
  lemma {:induction false} ReadAgreesIff(actions: seq<Action>, c: nat)
    requires c in Run(EMPTY, actions).callers && Run(EMPTY, actions).callers[c].Missed?
    ensures var w := Run(EMPTY, actions);
      var k := w.callers[c];
      Apply(w, Reread(c)).callers[c] == Done(k.runId, k.call, CallOutcome(w.rows, k.runId, k.call))
      <==> k.existed || !CasMatches(w.rows, k.runId, k.call.AllowedFrom()) || AlreadyBeaten(w.rows, k.runId, k.call)
  {
    RunInv(EMPTY, actions);
    assert CallerInv(Run(EMPTY, actions), Run(EMPTY, actions).callers[c]);
  }

  lemma {:induction false} RunFour(a: Action, b: Action, c: Action, d: Action)
    ensures Run(EMPTY, [a, b, c, d]) == Apply(Apply(Apply(Apply(EMPTY, a), b), c), d)
  {
    var s := [a, b, c, d];
    assert s[..3] == [a, b, c] && s[..3][..2] == [a, b] && s[..3][..2][..1] == [a];
    assert Run(EMPTY, [a]) == Apply(EMPTY, a);
    assert Run(EMPTY, [a, b]) == Apply(Apply(EMPTY, a), b);
    assert Run(EMPTY, [a, b, c]) == Apply(Apply(Apply(EMPTY, a), b), c);
  }

  /** A heartbeat for a run that is created RUNNING between the two steps is reported as done; nothing was written. */
  lemma {:induction false} UnwrittenHeartbeat(now: int)
    ensures var begin := BeginRun("stream", false, None, None, 3);
      var w := Run(EMPTY, [Invoke(7, 1, Heartbeat(now)), CompareAndSet(7), begin, Reread(7)]);
      && 1 in w.rows && w.rows[1].status == RUNNING && w.rows[1].heartbeatAt == None && w.writes == []
      && 7 in w.callers && w.callers[7] == Done(1, Heartbeat(now), Success(w.rows[1]))
  {
    RunFour(Invoke(7, 1, Heartbeat(now)), CompareAndSet(7), BeginRun("stream", false, None, None, 3), Reread(7));
    var w2 := Apply(Apply(EMPTY, Invoke(7, 1, Heartbeat(now))), CompareAndSet(7));
    assert w2.callers[7] == Missed(1, Heartbeat(now), false);
  }

  /** A call on an id that is created between the two steps is refused a move the table allows. */
  lemma {:induction false} RefusedLegalMove(details: Details)
    ensures var begin := BeginRun("stream", false, None, None, 3);
      var w := Run(EMPTY, [Invoke(7, 1, Succeed(5, details)), CompareAndSet(7), begin, Reread(7)]);
      && 7 in w.callers && w.callers[7] == Done(1, Succeed(5, details), Failure(InvalidTransition(1, RUNNING, SUCCESS)))
      && AllowedTransition(RUNNING, SUCCESS)
  {
    RunFour(Invoke(7, 1, Succeed(5, details)), CompareAndSet(7), BeginRun("stream", false, None, None, 3), Reread(7));
    var w2 := Apply(Apply(EMPTY, Invoke(7, 1, Succeed(5, details))), CompareAndSet(7));
    assert w2.callers[7] == Missed(1, Succeed(5, details), false);
  }
}
