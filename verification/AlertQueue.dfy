/** The alert queue: idempotent alerts and evidence, and dispositions with terminal CLOSED. */
module AlertQueue {
  import opened Common
  import opened Sorting
  import opened Events

  datatype AlertStatus = OPEN | IN_REVIEW | CLOSED

  datatype Disposition = CONFIRMED_FRAUD | CONFIRMED_LEGITIMATE | NEEDS_MORE_INFO | ESCALATED

  datatype ResolvedLabel = RESOLVED_FRAUD | RESOLVED_LEGITIMATE | UNRESOLVED

  function StatusByDisposition(d: Disposition): AlertStatus {
    if d.CONFIRMED_FRAUD? || d.CONFIRMED_LEGITIMATE? then CLOSED else IN_REVIEW
  }

  function LabelFromDisposition(d: Disposition): ResolvedLabel {
    match d
    case CONFIRMED_FRAUD => RESOLVED_FRAUD
    case CONFIRMED_LEGITIMATE => RESOLVED_LEGITIMATE
    case _ => UNRESOLVED
  }

  /** What first scoring fixes for good. */
  datatype Initial = Initial(score: real, band: Band, policyVersion: string)

  datatype FraudAlert = FraudAlert(
    alertId: nat, event: FraudEvent, source: SourceAlert, initial: Initial, status: AlertStatus, createdAt: int)

  /** What one scoring attempt found; a catastrophic attempt has no band and no score. */
  datatype EvidenceFields = EvidenceFields(
    bundleId: nat, band: Option<Band>, score: Option<real>, degraded: bool, eventTime: int, scoredAt: int)

  datatype Evidence = Evidence(evidenceId: nat, alertId: nat, executionId: nat, fields: EvidenceFields)

  datatype DispositionRecord = DispositionRecord(
    dispositionId: nat, alertId: nat, analystId: string, disposition: Disposition,
    notes: Option<string>, disposedAt: int)

  type SourceKey = (string, nat)

  function KeyOf(s: SourceAlert): SourceKey { (s.sourceSystem, s.sourceAlertId) }

  /** The queue's whole contents: two alert indexes, two evidence indexes, the disposition list, two counters. */
  datatype Queue = Queue(
    alertsByKey: map<SourceKey, FraudAlert>,
    alertsById: map<nat, FraudAlert>,
    evidenceByKey: map<(nat, nat), Evidence>,
    evidenceByAlert: map<nat, seq<Evidence>>,
    dispositions: seq<DispositionRecord>,
    nextAlertId: nat,
    nextDispositionId: nat)

  const EMPTY := Queue(map[], map[], map[], map[], [], 1, 1)

  datatype QueueError = NoSuchAlert | AlertClosed

  // ---- the operations ----

  function AlertFor(q: Queue, event: FraudEvent, source: SourceAlert, initial: Initial, now: int): FraudAlert {
    if KeyOf(source) in q.alertsByKey then q.alertsByKey[KeyOf(source)]
    else FraudAlert(q.nextAlertId, event, source, initial, OPEN, now)
  }

  function CreateAlert(q: Queue, event: FraudEvent, source: SourceAlert, initial: Initial, now: int): Queue {
    if KeyOf(source) in q.alertsByKey then q
    else
      var alert := AlertFor(q, event, source, initial, now);
      q.(alertsByKey := q.alertsByKey[KeyOf(source) := alert],
         alertsById := q.alertsById[alert.alertId := alert],
         nextAlertId := q.nextAlertId + 1)
  }

  function EvidenceFor(q: Queue, alertId: nat, executionId: nat, evidenceId: nat, fields: EvidenceFields): Evidence {
    if (alertId, executionId) in q.evidenceByKey then q.evidenceByKey[(alertId, executionId)]
    else Evidence(evidenceId, alertId, executionId, fields)
  }

  type EvidenceLists = map<nat, seq<Evidence>>

  function ListOf(lists: EvidenceLists, alertId: nat): seq<Evidence> { if alertId in lists then lists[alertId] else [] }

  function RecordEvidence(q: Queue, alertId: nat, executionId: nat, evidenceId: nat, fields: EvidenceFields): Queue {
    if (alertId, executionId) in q.evidenceByKey then q
    else
      var evidence := Evidence(evidenceId, alertId, executionId, fields);
      q.(evidenceByKey := q.evidenceByKey[(alertId, executionId) := evidence],
         evidenceByAlert := q.evidenceByAlert[alertId := ListOf(q.evidenceByAlert, alertId) + [evidence]])
  }

  function DisposeError(q: Queue, alertId: nat): Option<QueueError> {
    if alertId !in q.alertsById then Some(NoSuchAlert)
    else if q.alertsById[alertId].status == CLOSED then Some(AlertClosed)
    else None
  }

  /** One transaction: validate, append the disposition, move the status in both indexes. */
  function Dispose(
    q: Queue, alertId: nat, analystId: string, d: Disposition, notes: Option<string>, newStatus: AlertStatus,
    now: int): Queue {
    if DisposeError(q, alertId).Some? then q
    else
      var alert := q.alertsById[alertId].(status := newStatus);
      q.(dispositions := q.dispositions + [DispositionRecord(q.nextDispositionId, alertId, analystId, d, notes, now)],
         nextDispositionId := q.nextDispositionId + 1,
         alertsById := q.alertsById[alertId := alert],
         alertsByKey := q.alertsByKey[KeyOf(alert.source) := alert])
  }

  // ---- what holds of every reachable queue ----

  function LastDisposition(ds: seq<DispositionRecord>, alertId: nat): Option<Disposition> {
    if ds == [] then None
    else if ds[|ds| - 1].alertId == alertId then Some(ds[|ds| - 1].disposition)
    else LastDisposition(ds[..|ds| - 1], alertId)
  }

  function StatusFromHistory(ds: seq<DispositionRecord>, alertId: nat): AlertStatus {
    var last := LastDisposition(ds, alertId);
    if last.None? then OPEN else StatusByDisposition(last.value)
  }

  ghost predicate KeyEntryOk(byKey: map<SourceKey, FraudAlert>, byId: map<nat, FraudAlert>, k: SourceKey)
    requires k in byKey
  {
    KeyOf(byKey[k].source) == k && byKey[k].alertId in byId && byId[byKey[k].alertId] == byKey[k]
  }

  ghost predicate IdEntryOk(byKey: map<SourceKey, FraudAlert>, byId: map<nat, FraudAlert>, id: nat)
    requires id in byId
  {
    byId[id].alertId == id && KeyOf(byId[id].source) in byKey && byKey[KeyOf(byId[id].source)] == byId[id]
  }

  /** The two alert indexes hold the same alerts, each under its own key and its own id. */
  ghost predicate AlertIndexesAgree(byKey: map<SourceKey, FraudAlert>, byId: map<nat, FraudAlert>, next: nat) {
    && (forall k :: k in byKey ==> KeyEntryOk(byKey, byId, k))
    && (forall id :: id in byId ==> id < next && IdEntryOk(byKey, byId, id))
  }

  ghost predicate EvidenceEntryOk(byKey: map<(nat, nat), Evidence>, lists: EvidenceLists, k: (nat, nat))
    requires k in byKey
  {
    byKey[k].alertId == k.0 && byKey[k].executionId == k.1 && byKey[k] in ListOf(lists, k.0)
  }

  ghost predicate ListedOk(byKey: map<(nat, nat), Evidence>, a: nat, e: Evidence) {
    e.alertId == a && (a, e.executionId) in byKey && byKey[(a, e.executionId)] == e
  }

  /** No execution is listed twice. */
  ghost predicate ExecutionsDistinct(list: seq<Evidence>) {
    forall i, j :: 0 <= i < j < |list| ==> list[i].executionId != list[j].executionId
  }

  /** The two evidence indexes hold the same rows. */
  ghost predicate EvidenceIndexesAgree(byKey: map<(nat, nat), Evidence>, lists: EvidenceLists) {
    && (forall k :: k in byKey ==> EvidenceEntryOk(byKey, lists, k))
    && (forall a :: a in lists ==> ExecutionsDistinct(lists[a]) && forall e :: e in lists[a] ==> ListedOk(byKey, a, e))
  }

  /** Disposition ids count up, and a confirmed disposition is the last one its alert ever gets. */
  ghost predicate DispositionsOk(ds: seq<DispositionRecord>, ids: set<nat>) {
    && (forall i :: 0 <= i < |ds| ==> ds[i].dispositionId == i + 1 && ds[i].alertId in ids)
    && ConfirmedIsLast(ds)
  }

  ghost predicate ConfirmedIsLast(ds: seq<DispositionRecord>) {
    forall i, j :: 0 <= i < j < |ds| && ds[i].alertId == ds[j].alertId ==>
      LabelFromDisposition(ds[i].disposition) == UNRESOLVED
  }

  ghost predicate StatusesMatchHistory(byId: map<nat, FraudAlert>, ds: seq<DispositionRecord>) {
    forall id :: id in byId ==> byId[id].status == StatusFromHistory(ds, id)
  }

  ghost predicate Inv(q: Queue) {
    && AlertIndexesAgree(q.alertsByKey, q.alertsById, q.nextAlertId)
    && EvidenceIndexesAgree(q.evidenceByKey, q.evidenceByAlert)
    && DispositionsOk(q.dispositions, q.alertsById.Keys)
    && q.nextDispositionId == |q.dispositions| + 1
    && StatusesMatchHistory(q.alertsById, q.dispositions)
  }

  lemma {:induction false} NewAlertKeepsIndexes(
    byKey: map<SourceKey, FraudAlert>, byId: map<nat, FraudAlert>, next: nat, alert: FraudAlert)
    requires AlertIndexesAgree(byKey, byId, next) && alert.alertId == next && KeyOf(alert.source) !in byKey
    ensures AlertIndexesAgree(byKey[KeyOf(alert.source) := alert], byId[next := alert], next + 1)
  {
    var byKey', byId' := byKey[KeyOf(alert.source) := alert], byId[next := alert];
    forall k | k in byKey' ensures KeyEntryOk(byKey', byId', k) {
      if k in byKey { assert KeyEntryOk(byKey, byId, k); }
    }
    forall id | id in byId' ensures id < next + 1 && IdEntryOk(byKey', byId', id) {
      if id in byId { assert IdEntryOk(byKey, byId, id); }
    }
  }

  lemma {:induction false} StatusMoveKeepsIndexes(
    byKey: map<SourceKey, FraudAlert>, byId: map<nat, FraudAlert>, next: nat, alert: FraudAlert, status: AlertStatus)
    requires AlertIndexesAgree(byKey, byId, next) && alert.alertId in byId && byId[alert.alertId] == alert
    ensures var moved := alert.(status := status);
      AlertIndexesAgree(byKey[KeyOf(alert.source) := moved], byId[alert.alertId := moved], next)
  {
    var moved := alert.(status := status);
    var byKey', byId' := byKey[KeyOf(alert.source) := moved], byId[alert.alertId := moved];
    assert IdEntryOk(byKey, byId, alert.alertId);
    forall k | k in byKey' ensures KeyEntryOk(byKey', byId', k) {
      assert KeyEntryOk(byKey, byId, k);
    }
    forall id | id in byId' ensures id < next && IdEntryOk(byKey', byId', id) {
      assert IdEntryOk(byKey, byId, id);
    }
  }

  lemma {:induction false} NewEvidenceKeepsIndexes(byKey: map<(nat, nat), Evidence>, lists: EvidenceLists, e: Evidence)
    requires EvidenceIndexesAgree(byKey, lists) && (e.alertId, e.executionId) !in byKey
    ensures EvidenceIndexesAgree(byKey[(e.alertId, e.executionId) := e],
      lists[e.alertId := ListOf(lists, e.alertId) + [e]])
  {
    var byKey', list := byKey[(e.alertId, e.executionId) := e], ListOf(lists, e.alertId) + [e];
    var lists' := lists[e.alertId := list];
    forall x | x in ListOf(lists, e.alertId) ensures ListedOk(byKey, e.alertId, x) && x.executionId != e.executionId {
      assert ListedOk(byKey, e.alertId, x);
    }
    forall k | k in byKey' ensures EvidenceEntryOk(byKey', lists', k) {
      if k in byKey { assert EvidenceEntryOk(byKey, lists, k); }
    }
    forall a, x | a in lists' && x in lists'[a] ensures ListedOk(byKey', a, x) {
      if x != e { assert ListedOk(byKey, a, x); }
    }
    assert ExecutionsDistinct(list);
  }

  lemma {:induction false} CreateKeepsInv(q: Queue, event: FraudEvent, source: SourceAlert, initial: Initial, now: int)
    requires Inv(q)
    ensures Inv(CreateAlert(q, event, source, initial, now))
  {
    if KeyOf(source) !in q.alertsByKey {
      NewAlertKeepsIndexes(q.alertsByKey, q.alertsById, q.nextAlertId, AlertFor(q, event, source, initial, now));
      NoDispositionBefore(q.dispositions, q.nextAlertId);
    }
  }

  lemma {:induction false} NoDispositionBefore(ds: seq<DispositionRecord>, id: nat)
    ensures (forall i :: 0 <= i < |ds| ==> ds[i].alertId != id) ==> LastDisposition(ds, id) == None
  {
    if ds != [] { NoDispositionBefore(ds[..|ds| - 1], id); }
  }

  lemma {:induction false} RecordKeepsInv(
    q: Queue, alertId: nat, executionId: nat, evidenceId: nat, fields: EvidenceFields)
    requires Inv(q)
    ensures Inv(RecordEvidence(q, alertId, executionId, evidenceId, fields))
  {
    if (alertId, executionId) !in q.evidenceByKey {
      NewEvidenceKeepsIndexes(q.evidenceByKey, q.evidenceByAlert, Evidence(evidenceId, alertId, executionId, fields));
    }
  }

  lemma {:induction false} UnresolvedUntilClosed(ds: seq<DispositionRecord>, id: nat, i: nat)
    requires i < |ds| && ds[i].alertId == id && ConfirmedIsLast(ds)
    requires StatusFromHistory(ds, id) != CLOSED
    ensures LabelFromDisposition(ds[i].disposition) == UNRESOLVED
  {
    if ds[|ds| - 1].alertId != id {
      UnresolvedUntilClosed(ds[..|ds| - 1], id, i);
    }
  }

  lemma {:induction false} NewDispositionKeepsOrder(ds: seq<DispositionRecord>, ids: set<nat>, r: DispositionRecord)
    requires DispositionsOk(ds, ids) && r.alertId in ids && r.dispositionId == |ds| + 1
    requires StatusFromHistory(ds, r.alertId) != CLOSED
    ensures DispositionsOk(ds + [r], ids)
  {
    forall i | 0 <= i < |ds| && ds[i].alertId == r.alertId
      ensures LabelFromDisposition(ds[i].disposition) == UNRESOLVED
    {
      UnresolvedUntilClosed(ds, r.alertId, i);
    }
  }

  lemma {:induction false} LastAfterAppend(ds: seq<DispositionRecord>, r: DispositionRecord, id: nat)
    ensures LastDisposition(ds + [r], id) == if r.alertId == id then Some(r.disposition) else LastDisposition(ds, id)
  {
    assert (ds + [r])[..|ds|] == ds;
  }

  lemma {:induction false} DisposeKeepsInv(
    q: Queue, alertId: nat, analystId: string, d: Disposition, notes: Option<string>, now: int)
    requires Inv(q)
    ensures Inv(Dispose(q, alertId, analystId, d, notes, StatusByDisposition(d), now))
  {
    if DisposeError(q, alertId).None? {
      var r := DispositionRecord(q.nextDispositionId, alertId, analystId, d, notes, now);
      var alert := q.alertsById[alertId];
      assert IdEntryOk(q.alertsByKey, q.alertsById, alertId);
      StatusMoveKeepsIndexes(q.alertsByKey, q.alertsById, q.nextAlertId, alert, StatusByDisposition(d));
      NewDispositionKeepsOrder(q.dispositions, q.alertsById.Keys, r);
      var byId' := q.alertsById[alertId := alert.(status := StatusByDisposition(d))];
      assert byId'.Keys == q.alertsById.Keys;
      forall id | id in byId' ensures byId'[id].status == StatusFromHistory(q.dispositions + [r], id) {
        LastAfterAppend(q.dispositions, r, id);
      }
    }
  }

  // ---- the store ----

  class AlertQueueStore {
    var alertsByKey: map<SourceKey, FraudAlert>
    var alertsById: map<nat, FraudAlert>
    var evidenceByKey: map<(nat, nat), Evidence>
    var evidenceByAlert: map<nat, seq<Evidence>>
    var dispositions: seq<DispositionRecord>
    var nextAlertId: nat
    var nextDispositionId: nat

    ghost function State(): Queue reads this {
      Queue(alertsByKey, alertsById, evidenceByKey, evidenceByAlert, dispositions, nextAlertId, nextDispositionId)
    }

    ghost predicate Valid() reads this { Inv(State()) }

    constructor ()
      ensures Valid() && State() == EMPTY
    {
      alertsByKey, alertsById, evidenceByKey, evidenceByAlert := map[], map[], map[], map[];
      dispositions, nextAlertId, nextDispositionId := [], 1, 1;
    }

    method CreateAlertIfNew(
      event: FraudEvent, source: SourceAlert, initial: Initial, now: int) returns (alert: FraudAlert)
      requires Valid()
      modifies this
      ensures Valid() && State() == CreateAlert(old(State()), event, source, initial, now)
      ensures alert == AlertFor(old(State()), event, source, initial, now)
    {
      CreateKeepsInv(State(), event, source, initial, now);
      if KeyOf(source) in alertsByKey {
        return alertsByKey[KeyOf(source)];
      }
      alert := FraudAlert(nextAlertId, event, source, initial, OPEN, now);
      nextAlertId := nextAlertId + 1;
      alertsByKey := alertsByKey[KeyOf(source) := alert];
      alertsById := alertsById[alert.alertId := alert];
    }

    method RecordEvidenceRow(
      alertId: nat, executionId: nat, evidenceId: nat, fields: EvidenceFields) returns (evidence: Evidence)
      requires Valid()
      modifies this
      ensures Valid() && State() == RecordEvidence(old(State()), alertId, executionId, evidenceId, fields)
      ensures evidence == EvidenceFor(old(State()), alertId, executionId, evidenceId, fields)
    {
      RecordKeepsInv(State(), alertId, executionId, evidenceId, fields);
      if (alertId, executionId) in evidenceByKey {
        return evidenceByKey[(alertId, executionId)];
      }
      evidence := Evidence(evidenceId, alertId, executionId, fields);
      evidenceByKey := evidenceByKey[(alertId, executionId) := evidence];
      var rows := if alertId in evidenceByAlert then evidenceByAlert[alertId] else [];
      evidenceByAlert := evidenceByAlert[alertId := rows + [evidence]];
    }

    /** `record_disposition`: the status is the disposition's image. */
    method RecordDisposition(alertId: nat, analystId: string, d: Disposition, notes: Option<string>, now: int)
      returns (r: Result<DispositionRecord, QueueError>)
      requires Valid()
      modifies this
      ensures Valid() && State() == Dispose(old(State()), alertId, analystId, d, notes, StatusByDisposition(d), now)
      ensures r.Failure? <==> DisposeError(old(State()), alertId).Some?
      ensures r.Failure? ==> DisposeError(old(State()), alertId) == Some(r.error)
      ensures r == Failure(NoSuchAlert) <==> alertId !in old(alertsById)
      ensures r == Failure(AlertClosed) <==> alertId in old(alertsById) && old(alertsById)[alertId].status == CLOSED
      ensures r.Success? ==> dispositions == old(dispositions) + [r.value]
      ensures r.Success? ==>
        r.value == DispositionRecord(old(nextDispositionId), alertId, analystId, d, notes, now)
      ensures r.Success? ==> alertsById == old(alertsById)[
        alertId := old(alertsById)[alertId].(
          status := if d == CONFIRMED_FRAUD || d == CONFIRMED_LEGITIMATE then CLOSED else IN_REVIEW)]
    {
      DisposeKeepsInv(State(), alertId, analystId, d, notes, now);
      if alertId !in alertsById {
        return Failure(NoSuchAlert);
      }
      var alert := alertsById[alertId];
      if alert.status == CLOSED {
        return Failure(AlertClosed);
      }
      var record := DispositionRecord(nextDispositionId, alertId, analystId, d, notes, now);
      nextDispositionId := nextDispositionId + 1;
      dispositions := dispositions + [record];
      var updated := alert.(status := StatusByDisposition(d));
      alertsById := alertsById[alertId := updated];
      alertsByKey := alertsByKey[KeyOf(alert.source) := updated];
      r := Success(record);
    }

    /** The newest evidence by (scored_at, evidence_id). */
    method GetLatestEvidence(alertId: nat) returns (r: Option<Evidence>)
      ensures r.None? <==> ListOf(evidenceByAlert, alertId) == []
      ensures r.Some? ==> r.value in ListOf(evidenceByAlert, alertId)
      ensures r.Some? ==> forall e :: e in ListOf(evidenceByAlert, alertId) ==>
        !KeyLess(EvidenceKey(r.value), EvidenceKey(e))
      ensures r.Some? ==> forall e :: e in ListOf(evidenceByAlert, alertId) ==>
        e.fields.scoredAt < r.value.fields.scoredAt
        || (e.fields.scoredAt == r.value.fields.scoredAt && e.evidenceId <= r.value.evidenceId)
    {
      var rows := if alertId in evidenceByAlert then evidenceByAlert[alertId] else [];
      if rows == [] {
        return None;
      }
      var ordered := Reverse(Sort(rows, EvidenceKey));
      SortOrdered(rows, EvidenceKey);
      SortMembers(rows, EvidenceKey);
      ReverseMembers(Sort(rows, EvidenceKey));
      assert ordered[0] in ordered;
      forall e | e in rows ensures !KeyLess(EvidenceKey(ordered[0]), EvidenceKey(e)) {
        var i :| 0 <= i < |ordered| && ordered[i] == e;
      }
      r := Some(ordered[0]);
    }
  }

  function EvidenceKey(e: Evidence): Key { Key(0.0, e.fields.scoredAt, e.evidenceId) }

  // ---- score_and_record_alert ----

  /** How the scoring call itself ends: a score, or an exception. */
  datatype Scoring = Scored(score: real, band: Band, degraded: bool, scoredAt: int) | Raised

  /** The identity of one attempt. */
  datatype Attempt = Attempt(
    event: FraudEvent, source: SourceAlert, bundleId: nat, policyVersion: string, executionId: nat, evidenceId: nat)

  function InitialOf(a: Attempt, s: Scoring): Initial {
    if s.Scored? then Initial(s.score, s.band, a.policyVersion) else Initial(1.0, HIGH, a.policyVersion)
  }

  function FieldsOf(a: Attempt, s: Scoring, now: int): EvidenceFields {
    if s.Scored? then EvidenceFields(a.bundleId, Some(s.band), Some(s.score), s.degraded, a.event.timestamp, s.scoredAt)
    else EvidenceFields(a.bundleId, None, None, true, a.event.timestamp, now)
  }

  function ScoreAndRecord(q: Queue, a: Attempt, s: Scoring, now: int): Queue {
    var alert := AlertFor(q, a.event, a.source, InitialOf(a, s), now);
    RecordEvidence(
      CreateAlert(q, a.event, a.source, InitialOf(a, s), now),
      alert.alertId, a.executionId, a.evidenceId, FieldsOf(a, s, now))
  }

  /** Creates the alert and the evidence row on both paths; the raising path re-raises afterwards. */
  method ScoreAndRecordAlert(store: AlertQueueStore, a: Attempt, s: Scoring, now: int)
    returns (r: Result<(FraudAlert, Evidence), string>)
    requires store.Valid()
    modifies store
    ensures store.Valid() && store.State() == ScoreAndRecord(old(store.State()), a, s, now)
    ensures r.Success? <==> s.Scored?
    ensures r.Success? ==> KeyOf(a.source) in store.alertsByKey && r.value.0 == store.alertsByKey[KeyOf(a.source)]
    ensures r.Success? ==> (r.value.0.alertId, a.executionId) in store.evidenceByKey
    ensures r.Success? ==> r.value.1 == store.evidenceByKey[(r.value.0.alertId, a.executionId)]
  {
    match s
    case Raised =>
      var alert := store.CreateAlertIfNew(a.event, a.source, Initial(1.0, HIGH, a.policyVersion), now);
      var _ := store.RecordEvidenceRow(alert.alertId, a.executionId, a.evidenceId, FieldsOf(a, s, now));
      r := Failure("re-raised");
    case Scored(score, band, degraded, scoredAt) =>
      var alert := store.CreateAlertIfNew(a.event, a.source, Initial(score, band, a.policyVersion), now);
      var evidence := store.RecordEvidenceRow(alert.alertId, a.executionId, a.evidenceId, FieldsOf(a, s, now));
      r := Success((alert, evidence));
  }
}
