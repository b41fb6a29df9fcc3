/** What holds of the alert queue over whole runs of scoring attempts and dispositions. */
module AlertRuns {
  import opened Common
  import opened Events
  import opened AlertQueue

  datatype Action =
    | Attempted(attempt: Attempt, scoring: Scoring, now: int)
    | Disposed(alertId: nat, analystId: string, disposition: Disposition, notes: Option<string>, now: int)

  function Apply(q: Queue, a: Action): Queue {
    match a
    case Attempted(attempt, scoring, now) => ScoreAndRecord(q, attempt, scoring, now)
    case Disposed(id, analyst, d, notes, now) => Dispose(q, id, analyst, d, notes, StatusByDisposition(d), now)
  }

  function Run(q: Queue, actions: seq<Action>): Queue {
    if actions == [] then q else Apply(Run(q, actions[..|actions| - 1]), actions[|actions| - 1])
  }

  lemma {:induction false} AttemptKeepsInv(q: Queue, a: Attempt, s: Scoring, now: int)
    requires Inv(q)
    ensures Inv(ScoreAndRecord(q, a, s, now))
  {
    CreateKeepsInv(q, a.event, a.source, InitialOf(a, s), now);
    RecordKeepsInv(CreateAlert(q, a.event, a.source, InitialOf(a, s), now),
                   AlertFor(q, a.event, a.source, InitialOf(a, s), now).alertId,
                   a.executionId, a.evidenceId, FieldsOf(a, s, now));
  }

  lemma {:induction false} RunKeepsInv(q: Queue, actions: seq<Action>)
    requires Inv(q)
    ensures Inv(Run(q, actions))
  {
    if actions != [] {
      RunKeepsInv(q, actions[..|actions| - 1]);
      var before, last := Run(q, actions[..|actions| - 1]), actions[|actions| - 1];
      match last
      case Attempted(attempt, scoring, now) => AttemptKeepsInv(before, attempt, scoring, now);
      case Disposed(id, analyst, d, notes, now) => DisposeKeepsInv(before, id, analyst, d, notes, now);
    }
  }

  /** After an attempt, however it ended, its source has exactly one alert, and that alert exactly
      one evidence row for the attempt's execution. */
  lemma {:induction false} OneAlertOneEvidence(q: Queue, a: Attempt, s: Scoring, now: int)
    requires Inv(q)
    ensures var q' := ScoreAndRecord(q, a, s, now);
      && KeyOf(a.source) in q'.alertsByKey
      && (forall id :: id in q'.alertsById && KeyOf(q'.alertsById[id].source) == KeyOf(a.source) ==>
            id == q'.alertsByKey[KeyOf(a.source)].alertId)
      && var rows := ListOf(q'.evidenceByAlert, q'.alertsByKey[KeyOf(a.source)].alertId);
         exists i :: 0 <= i < |rows| && rows[i].executionId == a.executionId
           && forall j :: 0 <= j < |rows| && rows[j].executionId == a.executionId ==> j == i
  {
    var q' := ScoreAndRecord(q, a, s, now);
    AttemptKeepsInv(q, a, s, now);
    var alert := q'.alertsByKey[KeyOf(a.source)];
    forall id | id in q'.alertsById && KeyOf(q'.alertsById[id].source) == KeyOf(a.source) ensures id == alert.alertId {
      assert IdEntryOk(q'.alertsByKey, q'.alertsById, id);
    }
    ExecutionListedOnce(q', alert.alertId, a.executionId);
  }

  lemma {:induction false} ExecutionListedOnce(q: Queue, alertId: nat, executionId: nat)
    requires Inv(q) && (alertId, executionId) in q.evidenceByKey
    ensures var rows := ListOf(q.evidenceByAlert, alertId);
      exists i :: 0 <= i < |rows| && rows[i].executionId == executionId
        && forall j :: 0 <= j < |rows| && rows[j].executionId == executionId ==> j == i
  {
    var rows := ListOf(q.evidenceByAlert, alertId);
    assert EvidenceEntryOk(q.evidenceByKey, q.evidenceByAlert, (alertId, executionId));
    var i :| 0 <= i < |rows| && rows[i] == q.evidenceByKey[(alertId, executionId)];
    assert ExecutionsDistinct(rows);
  }

  /** The evidence row of an attempt, field by field: what scoring returned, or - when it raised - degraded, without
      band or score, and stamped now. */
  predicate RecordsOutcome(e: Evidence, alertId: nat, a: Attempt, s: Scoring, now: int) {
    && e.evidenceId == a.evidenceId && e.alertId == alertId && e.executionId == a.executionId
    && e.fields.bundleId == a.bundleId && e.fields.eventTime == a.event.timestamp
    && match s
       case Scored(score, band, degraded, scoredAt) =>
         e.fields.score == Some(score) && e.fields.band == Some(band)
         && e.fields.degraded == degraded && e.fields.scoredAt == scoredAt
       case Raised =>
         e.fields.score == None && e.fields.band == None && e.fields.degraded && e.fields.scoredAt == now
  }

  /** The alert an attempt opens: OPEN, with what scoring returned, or the highest score and band when it raised. */
  predicate OpensWith(alert: FraudAlert, a: Attempt, s: Scoring, now: int) {
    && alert.event == a.event && alert.source == a.source && alert.status == OPEN && alert.createdAt == now
    && alert.initial.policyVersion == a.policyVersion
    && alert.initial.score == (if s.Scored? then s.score else 1.0)
    && alert.initial.band == (if s.Scored? then s.band else HIGH)
  }

  /** A source's first attempt opens its alert with what scoring found, and records it as evidence. */
  lemma {:induction false} FirstAttemptRecordsOutcome(q: Queue, a: Attempt, s: Scoring, now: int)
    requires Inv(q) && KeyOf(a.source) !in q.alertsByKey
    requires forall k :: k in q.evidenceByKey ==> k.1 != a.executionId
    ensures var q' := ScoreAndRecord(q, a, s, now);
      && KeyOf(a.source) in q'.alertsByKey
      && var alert := q'.alertsByKey[KeyOf(a.source)];
      && alert.alertId !in q.alertsById && OpensWith(alert, a, s, now)
      && (alert.alertId, a.executionId) in q'.evidenceByKey
      && RecordsOutcome(q'.evidenceByKey[(alert.alertId, a.executionId)], alert.alertId, a, s, now)
  {
    assert q.nextAlertId !in q.alertsById;
  }

  /** A later attempt, with an execution of its own, leaves every alert as it was and only adds its evidence. */
  lemma {:induction false} LaterAttemptAddsEvidence(q: Queue, a: Attempt, s: Scoring, now: int)
    requires Inv(q) && KeyOf(a.source) in q.alertsByKey
    requires (q.alertsByKey[KeyOf(a.source)].alertId, a.executionId) !in q.evidenceByKey
    ensures var q', id := ScoreAndRecord(q, a, s, now), q.alertsByKey[KeyOf(a.source)].alertId;
      && q'.alertsByKey == q.alertsByKey && q'.alertsById == q.alertsById
      && q'.evidenceByKey.Keys == q.evidenceByKey.Keys + {(id, a.executionId)}
      && RecordsOutcome(q'.evidenceByKey[(id, a.executionId)], id, a, s, now)
      && forall k :: k in q.evidenceByKey ==> q'.evidenceByKey[k] == q.evidenceByKey[k]
  {
  }

  /** In every reachable queue, alerts of one source system and source alert id are one alert. */
  lemma {:induction false} OneAlertPerSource(actions: seq<Action>, i: nat, j: nat)
    requires var alerts := Run(EMPTY, actions).alertsById;
      && i in alerts && j in alerts && alerts[i].source.sourceSystem == alerts[j].source.sourceSystem
      && alerts[i].source.sourceAlertId == alerts[j].source.sourceAlertId
    ensures i == j
  {
    RunKeepsInv(EMPTY, actions);
    var q := Run(EMPTY, actions);
    assert IdEntryOk(q.alertsByKey, q.alertsById, i) && IdEntryOk(q.alertsByKey, q.alertsById, j);
  }

  /** An attempt persists nothing exactly when it is a retry: its source already has an alert, and that alert
      already has this execution's evidence. Whether its arguments were well formed does not enter. */
  lemma {:induction false} PersistsNothingIff(q: Queue, a: Attempt, s: Scoring, now: int)
    ensures ScoreAndRecord(q, a, s, now) == q <==>
      KeyOf(a.source) in q.alertsByKey && (q.alertsByKey[KeyOf(a.source)].alertId, a.executionId) in q.evidenceByKey
  {
    var q' := ScoreAndRecord(q, a, s, now);
    if KeyOf(a.source) !in q.alertsByKey {
      assert KeyOf(a.source) in q'.alertsByKey;
    } else if (q.alertsByKey[KeyOf(a.source)].alertId, a.executionId) !in q.evidenceByKey {
      assert (q.alertsByKey[KeyOf(a.source)].alertId, a.executionId) in q'.evidenceByKey;
    }
  }

  /** Into an empty queue, a call that raises - a malformed one among them - persists an alert and an evidence row. */
  lemma {:induction false} RaisingCallPersists(a: Attempt, now: int)
    ensures var q := ScoreAndRecord(EMPTY, a, Raised, now);
      && q != EMPTY
      && q.alertsById.Keys == {1} && KeyOf(a.source) in q.alertsByKey
      && q.evidenceByKey.Keys == {(1, a.executionId)}
  {
    PersistsNothingIff(EMPTY, a, Raised, now);
  }

  /** Retrying an execution - whatever the second scoring says, whenever it runs - writes nothing. */
  lemma {:induction false} RetryChangesNothing(
    q: Queue, a: Attempt, s: Scoring, now: int, again: Attempt, s': Scoring, later: int)
    requires again.source.sourceSystem == a.source.sourceSystem
    requires again.source.sourceAlertId == a.source.sourceAlertId && again.executionId == a.executionId
    ensures ScoreAndRecord(ScoreAndRecord(q, a, s, now), again, s', later) == ScoreAndRecord(q, a, s, now)
  {
  }

  /** An alert's first-scoring facts never change, and CLOSED is never left. */
  ghost predicate AlertPersists(before: FraudAlert, after: FraudAlert) {
    && after == before.(status := after.status)
    && (before.status == CLOSED ==> after.status == CLOSED)
    && (after.status == OPEN ==> before.status == OPEN)
  }

  lemma {:induction false} AttemptKeepsAlerts(q: Queue, a: Attempt, s: Scoring, now: int, id: nat)
    requires Inv(q) && id in q.alertsById
    ensures id in ScoreAndRecord(q, a, s, now).alertsById
    ensures ScoreAndRecord(q, a, s, now).alertsById[id] == q.alertsById[id]
  {
    assert id < q.nextAlertId;
  }

  lemma {:induction false} StepPersists(q: Queue, a: Action, id: nat)
    requires Inv(q) && id in q.alertsById
    ensures id in Apply(q, a).alertsById && AlertPersists(q.alertsById[id], Apply(q, a).alertsById[id])
  {
    if a.Attempted? {
      AttemptKeepsAlerts(q, a.attempt, a.scoring, a.now, id);
    }
  }

  lemma {:induction false} AlertsPersist(q: Queue, actions: seq<Action>, id: nat)
    requires Inv(q) && id in q.alertsById
    ensures id in Run(q, actions).alertsById && AlertPersists(q.alertsById[id], Run(q, actions).alertsById[id])
  {
    if actions != [] {
      AlertsPersist(q, actions[..|actions| - 1], id);
      RunKeepsInv(q, actions[..|actions| - 1]);
      StepPersists(Run(q, actions[..|actions| - 1]), actions[|actions| - 1], id);
    }
  }

  /** Evidence rows are written once: no later action changes or removes one. */
  lemma {:induction false} EvidencePersists(q: Queue, actions: seq<Action>, k: (nat, nat))
    requires k in q.evidenceByKey
    ensures k in Run(q, actions).evidenceByKey && Run(q, actions).evidenceByKey[k] == q.evidenceByKey[k]
  {
    if actions != [] { EvidencePersists(q, actions[..|actions| - 1], k); }
  }

  /** In every reachable queue an alert is OPEN before its first disposition and otherwise the image
      of its last one; it is CLOSED exactly when that one resolves its label. */
  lemma {:induction false} StatusIsLastDisposition(actions: seq<Action>, id: nat)
    requires id in Run(EMPTY, actions).alertsById
    ensures var q := Run(EMPTY, actions);
      var last := LastDisposition(q.dispositions, id);
      && q.alertsById[id].status == (if last.None? then OPEN else StatusByDisposition(last.value))
      && (q.alertsById[id].status == CLOSED <==> last.Some? && LabelFromDisposition(last.value) != UNRESOLVED)
  {
    RunKeepsInv(EMPTY, actions);
  }

  /** Written out: with no disposition yet the alert is OPEN; otherwise its last one, at position i, decides. */
  lemma {:induction false} StatusMeans(actions: seq<Action>, id: nat, i: nat)
    requires id in Run(EMPTY, actions).alertsById
    ensures var q := Run(EMPTY, actions);
      var ds, status := q.dispositions, q.alertsById[id].status;
      && ((forall k :: 0 <= k < |ds| ==> ds[k].alertId != id) ==> status == OPEN)
      && (i < |ds| && ds[i].alertId == id && (forall k :: i < k < |ds| ==> ds[k].alertId != id) ==>
          && (status == CLOSED <==> ds[i].disposition == CONFIRMED_FRAUD || ds[i].disposition == CONFIRMED_LEGITIMATE)
          && (status == IN_REVIEW <==> ds[i].disposition == NEEDS_MORE_INFO || ds[i].disposition == ESCALATED))
  {
    StatusIsLastDisposition(actions, id);
    LastDispositionIs(Run(EMPTY, actions).dispositions, id, i);
  }

  lemma {:induction false} LastDispositionIs(ds: seq<DispositionRecord>, id: nat, i: nat)
    ensures (forall k :: 0 <= k < |ds| ==> ds[k].alertId != id) ==> LastDisposition(ds, id) == None
    ensures i < |ds| && ds[i].alertId == id && (forall k :: i < k < |ds| ==> ds[k].alertId != id) ==>
      LastDisposition(ds, id) == Some(ds[i].disposition)
  {
    if ds != [] { LastDispositionIs(ds[..|ds| - 1], id, i); }
  }

  /** No disposition ever follows a confirmed one. */
  lemma {:induction false} NothingAfterConfirmed(actions: seq<Action>, i: nat, j: nat)
    requires var ds := Run(EMPTY, actions).dispositions;
      i < j < |ds| && ds[i].alertId == ds[j].alertId
    ensures var d := Run(EMPTY, actions).dispositions[i].disposition; d == NEEDS_MORE_INFO || d == ESCALATED
  {
    RunKeepsInv(EMPTY, actions);
  }

  /** In every reachable queue both indexes of both tables hold the same rows. */
  lemma {:induction false} IndexesAgree(actions: seq<Action>)
    ensures var q := Run(EMPTY, actions);
      && q.alertsByKey.Values == q.alertsById.Values
      && |q.alertsByKey| == |q.alertsById|
      && (forall k :: k in q.evidenceByKey ==> q.evidenceByKey[k] in ListOf(q.evidenceByAlert, k.0))
      && (forall a, e :: a in q.evidenceByAlert && e in q.evidenceByAlert[a] ==> e in q.evidenceByKey.Values)
  {
    RunKeepsInv(EMPTY, actions);
    var q := Run(EMPTY, actions);
    forall v ensures v in q.alertsByKey.Values <==> v in q.alertsById.Values {
      if v in q.alertsByKey.Values {
        var k :| k in q.alertsByKey && q.alertsByKey[k] == v;
        assert KeyEntryOk(q.alertsByKey, q.alertsById, k);
      }
      if v in q.alertsById.Values {
        var id :| id in q.alertsById && q.alertsById[id] == v;
        assert IdEntryOk(q.alertsByKey, q.alertsById, id);
      }
    }
    KeyedSize(q.alertsByKey, (v: FraudAlert) => KeyOf(v.source));
    KeyedSize(q.alertsById, (v: FraudAlert) => v.alertId);
    forall k | k in q.evidenceByKey ensures q.evidenceByKey[k] in ListOf(q.evidenceByAlert, k.0) {
      assert EvidenceEntryOk(q.evidenceByKey, q.evidenceByAlert, k);
    }
    forall a, e | a in q.evidenceByAlert && e in q.evidenceByAlert[a] ensures e in q.evidenceByKey.Values {
      assert ListedOk(q.evidenceByKey, a, e);
    }
  }

  /** A map whose values name their keys has as many keys as values. */
  lemma {:induction false} KeyedSize<K(!new), V(!new)>(m: map<K, V>, keyOf: V -> K)
    requires forall k :: k in m ==> keyOf(m[k]) == k
    ensures |m| == |m.Values|
    decreases |m|
  {
    if m != map[] {
      var k :| k in m;
      var rest := m - {k};
      KeyedSize(rest, keyOf);
      forall v | v in m.Values ensures v in rest.Values + {m[k]} {
        var j :| j in m && m[j] == v;
        assert j != k ==> j in rest && rest[j] == v;
      }
      assert m.Values == rest.Values + {m[k]};
      assert m[k] !in rest.Values;
    }
  }
}
