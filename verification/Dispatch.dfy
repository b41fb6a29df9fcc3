/** Scoring dispatch: which source alerts are pending for a bundle, and how repeated runs drain them. */
module Dispatch {
  import opened Common
  import opened Events
  import opened AlertQueue
  import opened AlertRuns
  import opened Runs

  const MAX_PENDING_ALERTS_PER_RUN := 500

  /** A source alert of the generation, with its event. */
  datatype Item = Item(event: FraudEvent, source: SourceAlert)

  /** One item together with what scoring it did and the ids minted for it. */
  datatype Work = Work(item: Item, scoring: Scoring, executionId: nat, evidenceId: nat)

  function EvidenceOf(q: Queue, source: SourceAlert): seq<Evidence> {
    if KeyOf(source) in q.alertsByKey then ListOf(q.evidenceByAlert, q.alertsByKey[KeyOf(source)].alertId) else []
  }

  /** Some evidence row of the source's alert carries the bundle - degraded ones included. */
  predicate HasEvidence(q: Queue, source: SourceAlert, bundleId: nat) {
    exists e :: e in EvidenceOf(q, source) && e.fields.bundleId == bundleId
  }

  function Pending(items: set<Item>, q: Queue, bundleId: nat): set<Item> {
    set x | x in items && !HasEvidence(q, x.source, bundleId)
  }

  predicate SameSource(a: SourceAlert, b: SourceAlert) {
    a.sourceSystem == b.sourceSystem && a.sourceAlertId == b.sourceAlertId
  }

  /** An item is pending exactly when it is in the generation and no evidence row of an alert of its source system and
      source alert id carries the bundle. */
  lemma {:induction false} PendingMeans(items: set<Item>, q: Queue, bundleId: nat, x: Item)
    requires Inv(q)
    ensures x in Pending(items, q, bundleId) <==>
      && x in items
      && forall k :: k in q.evidenceByKey && k.0 in q.alertsById && SameSource(q.alertsById[k.0].source, x.source) ==>
          q.evidenceByKey[k].fields.bundleId != bundleId
  {
    var key := KeyOf(x.source);
    if HasEvidence(q, x.source, bundleId) {
      var e :| e in EvidenceOf(q, x.source) && e.fields.bundleId == bundleId;
      var id := q.alertsByKey[key].alertId;
      assert KeyEntryOk(q.alertsByKey, q.alertsById, key) && ListedOk(q.evidenceByKey, id, e);
      assert q.evidenceByKey[(id, e.executionId)] == e;
    }
    if k :| k in q.evidenceByKey && k.0 in q.alertsById && KeyOf(q.alertsById[k.0].source) == key
            && q.evidenceByKey[k].fields.bundleId == bundleId {
      assert IdEntryOk(q.alertsByKey, q.alertsById, k.0) && EvidenceEntryOk(q.evidenceByKey, q.evidenceByAlert, k);
      assert q.evidenceByKey[k] in EvidenceOf(q, x.source);
    }
  }

  /** Source alerts are keyed by system and id. */
  ghost predicate KeysUnique(items: set<Item>) {
    forall x, y | x in items && y in items && KeyOf(x.source) == KeyOf(y.source) :: x == y
  }

  function ItemsOf(work: seq<Work>): set<Item> { set w | w in work :: w.item }

  /** What the pending query may return: the oldest pending items, at most a run's worth, ties in any order. */
  ghost predicate IsBatch(work: seq<Work>, pending: set<Item>) {
    && |work| == Min(MAX_PENDING_ALERTS_PER_RUN, |pending|)
    && (forall i, j :: 0 <= i < j < |work| ==> work[i].item != work[j].item)
    && (forall i, j :: 0 <= i < j < |work| ==> work[i].item.source.createdAt <= work[j].item.source.createdAt)
    && (forall i :: 0 <= i < |work| ==> work[i].item in pending)
    && (forall x, i :: x in pending - ItemsOf(work) && 0 <= i < |work| ==>
        work[i].item.source.createdAt <= x.source.createdAt)
  }

  /** A batch is the oldest of the pending items, up to 500 of them, each once. */
  lemma {:induction false} BatchIsOldest(work: seq<Work>, pending: set<Item>, x: Item, i: nat)
    requires IsBatch(work, pending) && i < |work|
    ensures |work| <= 500 && work[i].item in pending && (|work| == 500 || |work| == |pending|)
    ensures forall j :: 0 <= j < |work| && j != i ==> work[j].item != work[i].item
    ensures x in pending && (forall j :: 0 <= j < |work| ==> work[j].item != x) ==>
      work[i].item.source.createdAt <= x.source.createdAt
  {
  }

  ghost predicate UnusedId(q: Queue, executionId: nat) { forall k :: k in q.evidenceByKey ==> k.1 != executionId }

  /** Freshly minted execution ids: unused so far, and different from each other. */
  ghost predicate FreshIds(q: Queue, work: seq<Work>) {
    && (forall i :: 0 <= i < |work| ==> UnusedId(q, work[i].executionId))
    && (forall i, j :: 0 <= i < j < |work| ==> work[i].executionId != work[j].executionId)
  }

  function AttemptOf(w: Work, bundleId: nat, policy: string): Attempt {
    Attempt(w.item.event, w.item.source, bundleId, policy, w.executionId, w.evidenceId)
  }

  function ScoreOne(q: Queue, w: Work, bundleId: nat, policy: string, now: int): Queue {
    ScoreAndRecord(q, AttemptOf(w, bundleId, policy), w.scoring, now)
  }

  function ScoreAll(q: Queue, work: seq<Work>, bundleId: nat, policy: string, now: int): Queue {
    if work == [] then q
    else ScoreOne(ScoreAll(q, work[..|work| - 1], bundleId, policy, now), work[|work| - 1], bundleId, policy, now)
  }

  /** What scoring an item records: its alert's evidence for this execution, of this bundle, with what scoring found. */
  lemma {:induction false} ScoringRecords(q: Queue, w: Work, bundleId: nat, policy: string, now: int)
    requires Inv(q) && UnusedId(q, w.executionId)
    ensures var q', key := ScoreOne(q, w, bundleId, policy, now), KeyOf(w.item.source);
      && key in q'.alertsByKey && (key in q.alertsByKey ==> q'.alertsByKey[key] == q.alertsByKey[key])
      && var attempt := Attempt(w.item.event, w.item.source, bundleId, policy, w.executionId, w.evidenceId);
      && (key !in q.alertsByKey ==> OpensWith(q'.alertsByKey[key], attempt, w.scoring, now))
      && var id := q'.alertsByKey[key].alertId;
      && (id, w.executionId) in q'.evidenceByKey
      && RecordsOutcome(q'.evidenceByKey[(id, w.executionId)], id, attempt, w.scoring, now)
  {
    var a := AttemptOf(w, bundleId, policy);
    if KeyOf(w.item.source) in q.alertsByKey {
      LaterAttemptAddsEvidence(q, a, w.scoring, now);
    } else {
      FirstAttemptRecordsOutcome(q, a, w.scoring, now);
    }
  }

  // ---- one attempt takes exactly its own item off the pending set ----

  lemma {:induction false} ScoredHasEvidence(q: Queue, w: Work, bundleId: nat, policy: string, now: int)
    requires UnusedId(q, w.executionId)
    ensures HasEvidence(ScoreOne(q, w, bundleId, policy, now), w.item.source, bundleId)
  {
    var rows := EvidenceOf(ScoreOne(q, w, bundleId, policy, now), w.item.source);
    assert rows[|rows| - 1] in rows;
  }

  lemma {:induction false} CreateLeavesOthers(q: Queue, a: Attempt, s: Scoring, now: int, source: SourceAlert)
    requires KeyOf(source) != KeyOf(a.source)
    ensures EvidenceOf(CreateAlert(q, a.event, a.source, InitialOf(a, s), now), source) == EvidenceOf(q, source)
  {
  }

  lemma {:induction false} RecordLeavesOthers(
    q: Queue, alertId: nat, executionId: nat, evidenceId: nat, fields: EvidenceFields, source: SourceAlert)
    requires KeyOf(source) in q.alertsByKey ==> q.alertsByKey[KeyOf(source)].alertId != alertId
    ensures EvidenceOf(RecordEvidence(q, alertId, executionId, evidenceId, fields), source) == EvidenceOf(q, source)
  {
  }

  lemma {:induction false} DifferentKeysDifferentIds(q: Queue, k: SourceKey, l: SourceKey)
    requires Inv(q) && k in q.alertsByKey && l in q.alertsByKey && k != l
    ensures q.alertsByKey[k].alertId != q.alertsByKey[l].alertId
  {
    assert KeyEntryOk(q.alertsByKey, q.alertsById, k) && KeyEntryOk(q.alertsByKey, q.alertsById, l);
  }

  lemma {:induction false} OthersUntouched(
    q: Queue, w: Work, bundleId: nat, policy: string, now: int, source: SourceAlert)
    requires Inv(q) && KeyOf(source) != KeyOf(w.item.source)
    ensures EvidenceOf(ScoreOne(q, w, bundleId, policy, now), source) == EvidenceOf(q, source)
  {
    var a := AttemptOf(w, bundleId, policy);
    var created := CreateAlert(q, a.event, a.source, InitialOf(a, w.scoring), now);
    CreateLeavesOthers(q, a, w.scoring, now, source);
    CreateKeepsInv(q, a.event, a.source, InitialOf(a, w.scoring), now);
    var alertId := AlertFor(q, a.event, a.source, InitialOf(a, w.scoring), now).alertId;
    assert created.alertsByKey[KeyOf(a.source)].alertId == alertId;
    if KeyOf(source) in created.alertsByKey {
      DifferentKeysDifferentIds(created, KeyOf(source), KeyOf(a.source));
    }
    RecordLeavesOthers(created, alertId, a.executionId, a.evidenceId, FieldsOf(a, w.scoring, now), source);
  }

  lemma {:induction false} OneScored(items: set<Item>, q: Queue, w: Work, bundleId: nat, policy: string, now: int)
    requires Inv(q) && KeysUnique(items) && w.item in items && UnusedId(q, w.executionId)
    ensures Pending(items, ScoreOne(q, w, bundleId, policy, now), bundleId) == Pending(items, q, bundleId) - {w.item}
  {
    var q' := ScoreOne(q, w, bundleId, policy, now);
    forall x | x in items
      ensures HasEvidence(q', x.source, bundleId) <==> x == w.item || HasEvidence(q, x.source, bundleId)
    {
      if x == w.item {
        ScoredHasEvidence(q, w, bundleId, policy, now);
      } else {
        OthersUntouched(q, w, bundleId, policy, now, x.source);
      }
    }
  }

  lemma {:induction false} ScoreOneIds(q: Queue, w: Work, bundleId: nat, policy: string, now: int, k: (nat, nat))
    requires k in ScoreOne(q, w, bundleId, policy, now).evidenceByKey
    ensures k in q.evidenceByKey || k.1 == w.executionId
  {
  }

  lemma {:induction false} BatchIds(q: Queue, work: seq<Work>, bundleId: nat, policy: string, now: int, k: (nat, nat))
    requires k in ScoreAll(q, work, bundleId, policy, now).evidenceByKey
    ensures k in q.evidenceByKey || exists i :: 0 <= i < |work| && k.1 == work[i].executionId
  {
    if work != [] {
      var n := |work| - 1;
      ScoreOneIds(ScoreAll(q, work[..n], bundleId, policy, now), work[n], bundleId, policy, now, k);
      if k.1 != work[n].executionId {
        BatchIds(q, work[..n], bundleId, policy, now, k);
      }
    }
  }

  lemma {:induction false} StillFresh(
    q: Queue, work: seq<Work>, n: nat, bundleId: nat, policy: string, now: int, k: (nat, nat))
    requires FreshIds(q, work) && n < |work|
    requires k in ScoreAll(q, work[..n], bundleId, policy, now).evidenceByKey
    ensures k.1 != work[n].executionId
  {
    BatchIds(q, work[..n], bundleId, policy, now, k);
  }

  lemma {:induction false} ItemsOfNext(work: seq<Work>, n: nat)
    requires n < |work|
    ensures ItemsOf(work[..n + 1]) == ItemsOf(work[..n]) + {work[n].item}
  {
    TakeNext(work, n);
  }

  lemma {:induction false} NextUnused(q: Queue, work: seq<Work>, n: nat, bundleId: nat, policy: string, now: int)
    requires FreshIds(q, work) && n < |work|
    ensures UnusedId(ScoreAll(q, work[..n], bundleId, policy, now), work[n].executionId)
  {
    forall k | k in ScoreAll(q, work[..n], bundleId, policy, now).evidenceByKey ensures k.1 != work[n].executionId {
      StillFresh(q, work, n, bundleId, policy, now, k);
    }
  }

  lemma {:induction false} NextScored(
    items: set<Item>, pending: set<Item>, before: Queue, work: seq<Work>, n: nat,
    bundleId: nat, policy: string, now: int)
    requires Inv(before) && KeysUnique(items) && n < |work| && work[n].item in items
    requires Pending(items, before, bundleId) == pending - ItemsOf(work[..n])
    requires UnusedId(before, work[n].executionId)
    ensures var after := ScoreOne(before, work[n], bundleId, policy, now);
      Inv(after) && Pending(items, after, bundleId) == pending - ItemsOf(work[..n + 1])
  {
    AttemptKeepsInv(before, AttemptOf(work[n], bundleId, policy), work[n].scoring, now);
    OneScored(items, before, work[n], bundleId, policy, now);
    ItemsOfNext(work, n);
  }

  lemma {:induction false} ScoreAllNext(q: Queue, work: seq<Work>, n: nat, bundleId: nat, policy: string, now: int)
    requires n < |work|
    ensures ScoreAll(q, work[..n + 1], bundleId, policy, now)
         == ScoreOne(ScoreAll(q, work[..n], bundleId, policy, now), work[n], bundleId, policy, now)
  {
    TakeNext(work, n);
  }

  /** A run over fresh ids takes exactly its items off the pending set. */
  lemma {:induction false} BatchScored(
    items: set<Item>, q: Queue, work: seq<Work>, n: nat, bundleId: nat, policy: string, now: int)
    requires Inv(q) && KeysUnique(items) && FreshIds(q, work) && n <= |work|
    requires forall i :: 0 <= i < |work| ==> work[i].item in items
    ensures Inv(ScoreAll(q, work[..n], bundleId, policy, now))
    ensures Pending(items, ScoreAll(q, work[..n], bundleId, policy, now), bundleId)
      == Pending(items, q, bundleId) - ItemsOf(work[..n])
    decreases n
  {
    if n > 0 {
      var before := ScoreAll(q, work[..n - 1], bundleId, policy, now);
      BatchScored(items, q, work, n - 1, bundleId, policy, now);
      ScoreAllNext(q, work, n - 1, bundleId, policy, now);
      NextUnused(q, work, n - 1, bundleId, policy, now);
      NextScored(items, Pending(items, q, bundleId), before, work, n - 1, bundleId, policy, now);
    }
  }

  // ---- repeated runs ----

  /** The queue after the first runs, each over its own batch. */
  function AfterRuns(q: Queue, runs: seq<seq<Work>>, bundleId: nat, policy: string, now: int): Queue {
    if runs == [] then q
    else ScoreAll(AfterRuns(q, runs[..|runs| - 1], bundleId, policy, now), runs[|runs| - 1], bundleId, policy, now)
  }

  /** Every run scored what was pending when it started. */
  ghost predicate Dispatched(
    items: set<Item>, q: Queue, runs: seq<seq<Work>>, bundleId: nat, policy: string, now: int) {
    forall i :: 0 <= i < |runs| ==>
      var before := AfterRuns(q, runs[..i], bundleId, policy, now);
      IsBatch(runs[i], Pending(items, before, bundleId)) && FreshIds(before, runs[i])
  }

  lemma {:induction false} ItemsOfSize(work: seq<Work>)
    requires forall i, j :: 0 <= i < j < |work| ==> work[i].item != work[j].item
    ensures |ItemsOf(work)| == |work|
  {
    if work != [] {
      var n := |work| - 1;
      ItemsOfSize(work[..n]);
      assert work == work[..n] + [work[n]];
      assert ItemsOf(work) == ItemsOf(work[..n]) + {work[n].item};
      assert work[n].item !in ItemsOf(work[..n]);
    }
  }

  lemma {:induction false} DispatchedPrefix(
    items: set<Item>, q: Queue, runs: seq<seq<Work>>, bundleId: nat, policy: string, now: int, k: nat)
    requires Dispatched(items, q, runs, bundleId, policy, now) && k <= |runs|
    ensures Dispatched(items, q, runs[..k], bundleId, policy, now)
  {
    forall i | 0 <= i < k
      ensures var before := AfterRuns(q, runs[..k][..i], bundleId, policy, now);
        IsBatch(runs[..k][i], Pending(items, before, bundleId)) && FreshIds(before, runs[..k][i])
    {
      TakeTake(runs, k, i);
    }
  }

  lemma {:induction false} BatchTakesSize(work: seq<Work>, pending: set<Item>)
    requires IsBatch(work, pending)
    ensures ItemsOf(work) <= pending
    ensures |pending - ItemsOf(work)| == Max(0, |pending| - 500)
  {
    ItemsOfSize(work);
    assert ItemsOf(work) <= pending;
    assert |pending - ItemsOf(work)| == |pending| - |ItemsOf(work)| by { SubsetSize(ItemsOf(work), pending); }
  }

  lemma {:induction false} BatchShrinks(
    items: set<Item>, q: Queue, work: seq<Work>, bundleId: nat, policy: string, now: int)
    requires Inv(q) && KeysUnique(items)
    requires IsBatch(work, Pending(items, q, bundleId)) && FreshIds(q, work)
    ensures var q' := ScoreAll(q, work, bundleId, policy, now);
      && Inv(q')
      && Pending(items, q', bundleId) == Pending(items, q, bundleId) - ItemsOf(work)
      && |Pending(items, q', bundleId)| == Max(0, |Pending(items, q, bundleId)| - 500)
  {
    BatchScored(items, q, work, |work|, bundleId, policy, now);
    assert work[..|work|] == work;
    BatchTakesSize(work, Pending(items, q, bundleId));
  }

  /** With one bundle and one generation, k runs leave n - 500k pending, and none once 500k >= n. */
  lemma {:induction false} RunsDrainPending(
    items: set<Item>, q: Queue, runs: seq<seq<Work>>, bundleId: nat, policy: string, now: int)
    requires Inv(q) && KeysUnique(items) && Dispatched(items, q, runs, bundleId, policy, now)
    ensures Inv(AfterRuns(q, runs, bundleId, policy, now))
    ensures |Pending(items, AfterRuns(q, runs, bundleId, policy, now), bundleId)|
         == Max(0, |Pending(items, q, bundleId)| - 500 * |runs|)
  {
    if runs != [] {
      var n := |runs| - 1;
      DispatchedPrefix(items, q, runs, bundleId, policy, now, n);
      RunsDrainPending(items, q, runs[..n], bundleId, policy, now);
      BatchShrinks(items, AfterRuns(q, runs[..n], bundleId, policy, now), runs[n], bundleId, policy, now);
    }
  }

  /** What is still pending after the first k runs. */
  function StillPending(
    items: set<Item>, q: Queue, runs: seq<seq<Work>>, bundleId: nat, policy: string, now: int, k: nat): set<Item>
    requires k <= |runs|
  {
    Pending(items, AfterRuns(q, runs[..k], bundleId, policy, now), bundleId)
  }

  lemma {:induction false} RunTakesItsBatch(
    items: set<Item>, q: Queue, runs: seq<seq<Work>>, bundleId: nat, policy: string, now: int, i: nat)
    requires Inv(q) && KeysUnique(items) && Dispatched(items, q, runs, bundleId, policy, now) && i < |runs|
    ensures ItemsOf(runs[i]) <= StillPending(items, q, runs, bundleId, policy, now, i)
    ensures StillPending(items, q, runs, bundleId, policy, now, i + 1)
         == StillPending(items, q, runs, bundleId, policy, now, i) - ItemsOf(runs[i])
  {
    var before := AfterRuns(q, runs[..i], bundleId, policy, now);
    DispatchedPrefix(items, q, runs, bundleId, policy, now, i);
    RunsDrainPending(items, q, runs[..i], bundleId, policy, now);
    TakeNext(runs, i);
    assert AfterRuns(q, runs[..i + 1], bundleId, policy, now) == ScoreAll(before, runs[i], bundleId, policy, now);
    BatchShrinks(items, before, runs[i], bundleId, policy, now);
  }

  /** Sets that only ever lose members from one index to the next. */
  lemma {:induction false} LosesOnly<T>(sets: seq<set<T>>, i: nat, k: nat)
    requires i <= k < |sets| && forall j :: 0 <= j < k ==> sets[j + 1] <= sets[j]
    ensures sets[k] <= sets[i]
  {
    if i < k {
      LosesOnly(sets, i, k - 1);
      assert sets[k - 1 + 1] <= sets[k - 1];
    }
  }

  lemma {:induction false} PendingOnlyShrinks(
    items: set<Item>, q: Queue, runs: seq<seq<Work>>, bundleId: nat, policy: string, now: int, i: nat, k: nat)
    requires Inv(q) && KeysUnique(items) && Dispatched(items, q, runs, bundleId, policy, now) && i <= k <= |runs|
    ensures StillPending(items, q, runs, bundleId, policy, now, k)
      <= StillPending(items, q, runs, bundleId, policy, now, i)
  {
    var sets := seq(|runs| + 1, j requires 0 <= j <= |runs| => StillPending(items, q, runs, bundleId, policy, now, j));
    forall j | 0 <= j < k ensures sets[j + 1] <= sets[j] {
      RunTakesItsBatch(items, q, runs, bundleId, policy, now, j);
    }
    LosesOnly(sets, i, k);
  }

  /** An alert scored by one run is never pending again, so no later run rescores it. */
  lemma {:induction false} NeverRescored(
    items: set<Item>, q: Queue, runs: seq<seq<Work>>, bundleId: nat, policy: string, now: int, i: nat, k: nat)
    requires Inv(q) && KeysUnique(items) && Dispatched(items, q, runs, bundleId, policy, now)
    requires i < k < |runs|
    ensures ItemsOf(runs[k]) !! ItemsOf(runs[i])
  {
    RunTakesItsBatch(items, q, runs, bundleId, policy, now, i);
    RunTakesItsBatch(items, q, runs, bundleId, policy, now, k);
    PendingOnlyShrinks(items, q, runs, bundleId, policy, now, i + 1, k);
  }

  // ---- score_channel ----

  datatype DispatchError = NoOperationalBundle | StructuralFailure

  datatype AlertSummary = AlertSummary(alertId: nat, status: AlertStatus, band: Option<Band>)

  datatype Summary = Summary(pendingCount: nat, processed: nat, rejected: nat, summaries: seq<AlertSummary>)

  function ScoredCount(work: seq<Work>): nat {
    if work == [] then 0 else ScoredCount(work[..|work| - 1]) + if work[|work| - 1].scoring.Scored? then 1 else 0
  }

  /** The bands the scored items got in this very run. */
  function BandsScored(work: seq<Work>): seq<Option<Band>> {
    if work == [] then []
    else
      var last, before := work[|work| - 1], BandsScored(work[..|work| - 1]);
      if last.scoring.Scored? then before + [Some(last.scoring.band)] else before
  }

  function BandsReported(summaries: seq<AlertSummary>): (bands: seq<Option<Band>>)
    ensures |bands| == |summaries|
  {
    seq(|summaries|, i requires 0 <= i < |summaries| => summaries[i].band)
  }

  /** The loop's counters after the first i items. */
  ghost predicate Tallied(processed: nat, rejected: nat, summaries: seq<AlertSummary>, work: seq<Work>, i: nat)
    requires i <= |work|
  {
    && processed == ScoredCount(work[..i]) && processed + rejected == i
    && |summaries| == processed && BandsReported(summaries) == BandsScored(work[..i])
  }

  lemma {:induction false} TallyNext(
    processed: nat, rejected: nat, summaries: seq<AlertSummary>, work: seq<Work>, i: nat, r: Option<AlertSummary>)
    requires i < |work| && Tallied(processed, rejected, summaries, work, i)
    requires r.Some? <==> work[i].scoring.Scored?
    requires r.Some? ==> r.value.band == Some(work[i].scoring.band)
    ensures if r.Some? then Tallied(processed + 1, rejected, summaries + [r.value], work, i + 1)
            else Tallied(processed, rejected + 1, summaries, work, i + 1)
  {
    TakeNext(work, i);
    if r.Some? {
      assert BandsReported(summaries + [r.value]) == BandsReported(summaries) + [r.value.band];
    }
  }

  /** A fresh execution's evidence carries its own band, whatever the alert's first band was. */
  lemma {:induction false} OwnBand(q: Queue, a: Attempt, s: Scoring, now: int)
    requires s.Scored? && UnusedId(q, a.executionId)
    ensures var q' := ScoreAndRecord(q, a, s, now);
      && KeyOf(a.source) in q'.alertsByKey
      && (q'.alertsByKey[KeyOf(a.source)].alertId, a.executionId) in q'.evidenceByKey
      && q'.evidenceByKey[(q'.alertsByKey[KeyOf(a.source)].alertId, a.executionId)].fields.band == Some(s.band)
  {
  }

  /** One pending item; None when scoring raised. */
  method ScoreItem(
    store: AlertQueueStore, w: Work, bundleId: nat, policy: string, now: int) returns (r: Option<AlertSummary>)
    requires store.Valid() && UnusedId(store.State(), w.executionId)
    modifies store
    ensures store.Valid() && store.State() == ScoreOne(old(store.State()), w, bundleId, policy, now)
    ensures r.Some? <==> w.scoring.Scored?
    ensures r.Some? ==> r.value.band == Some(w.scoring.band)
    ensures r.Some? ==> var key := KeyOf(w.item.source);
      && key in store.alertsByKey && r.value.alertId == store.alertsByKey[key].alertId
      && r.value.status == store.alertsByKey[key].status
  {
    ghost var q := store.State();
    var outcome := ScoreAndRecordAlert(store, AttemptOf(w, bundleId, policy), w.scoring, now);
    if outcome.Failure? { return None; }
    OwnBand(q, AttemptOf(w, bundleId, policy), w.scoring, now);
    var alert, evidence := outcome.value.0, outcome.value.1;
    r := Some(AlertSummary(alert.alertId, alert.status, evidence.fields.band));
  }

  /** The loop over the pending items; a failing item is counted and does not stop it. */
  method ScoreItems(
    store: AlertQueueStore, work: seq<Work>, bundleId: nat, policy: string, now: int) returns (s: Summary)
    requires store.Valid() && FreshIds(store.State(), work)
    modifies store
    ensures store.Valid() && store.State() == ScoreAll(old(store.State()), work, bundleId, policy, now)
    ensures s.pendingCount == |work| && s.processed == ScoredCount(work) && s.processed + s.rejected == |work|
    ensures |s.summaries| == s.processed && BandsReported(s.summaries) == BandsScored(work)
  {
    ghost var before := store.State();
    var processed, rejected, summaries := 0, 0, [];
    for i := 0 to |work|
      invariant store.Valid() && store.State() == ScoreAll(before, work[..i], bundleId, policy, now)
      invariant Tallied(processed, rejected, summaries, work, i)
    {
      ScoreAllNext(before, work, i, bundleId, policy, now);
      NextUnused(before, work, i, bundleId, policy, now);
      var r := ScoreItem(store, work[i], bundleId, policy, now);
      TallyNext(processed, rejected, summaries, work, i, r);
      if r.Some? {
        processed, summaries := processed + 1, summaries + [r.value];
      } else {
        rejected := rejected + 1;
      }
    }
    assert work[..|work|] == work;
    s := Summary(|work|, processed, rejected, summaries);
  }

  /** What the pending query and the minted ids may have been, when the run gets as far as asking. */
  ghost predicate Listed(
    items: set<Item>, q: Queue, operational: Option<nat>, structuralFailure: bool, work: seq<Work>) {
    && KeysUnique(items) && FreshIds(q, work)
    && (operational.Some? && !structuralFailure ==> IsBatch(work, Pending(items, q, operational.value)))
  }

  /** From one queue to the next, exactly the batch left the pending set: a run's worth, or all of it. */
  ghost predicate Drained(items: set<Item>, q: Queue, q': Queue, bundleId: nat, work: seq<Work>) {
    && Pending(items, q', bundleId) == Pending(items, q, bundleId) - ItemsOf(work)
    && |Pending(items, q', bundleId)| == Max(0, |Pending(items, q, bundleId)| - 500)
  }

  method ScorePending(
    store: AlertQueueStore, ghost items: set<Item>, work: seq<Work>, bundleId: nat, policy: string, now: int)
    returns (s: Summary)
    requires store.Valid() && Listed(items, store.State(), Some(bundleId), false, work)
    modifies store
    ensures store.Valid() && store.State() == ScoreAll(old(store.State()), work, bundleId, policy, now)
    ensures Drained(items, old(store.State()), store.State(), bundleId, work)
    ensures s.pendingCount == |work| && s.processed + s.rejected == s.pendingCount
    ensures BandsReported(s.summaries) == BandsScored(work)
  {
    BatchShrinks(items, store.State(), work, bundleId, policy, now);
    s := ScoreItems(store, work, bundleId, policy, now);
  }

  /** One fraud_score run over the generation's `items`. A structural failure fails the run and touches no alert;
      a failing alert is counted as rejected and never stops the batch. */
  method ScoreChannel(
    store: AlertQueueStore, lifecycle: RunLifecycle, operational: Option<nat>, structuralFailure: bool,
    ghost items: set<Item>, work: seq<Work>, policy: string, now: int)
    returns (r: Result<Summary, DispatchError>, ghost runId: nat)
    requires store.Valid() && lifecycle.store.Valid()
    requires Listed(items, store.State(), operational, structuralFailure, work)
    modifies store, lifecycle.store
    ensures store.Valid() && lifecycle.store.Valid()
    ensures r.Success? <==> operational.Some? && !structuralFailure
    ensures r.Failure? ==> store.State() == old(store.State())
    ensures r.Success? ==> store.State() == ScoreAll(old(store.State()), work, operational.value, policy, now)
    ensures r.Success? ==> Drained(items, old(store.State()), store.State(), operational.value, work)
    ensures r.Success? ==>
      r.value.pendingCount == |work| && r.value.processed + r.value.rejected == r.value.pendingCount
    ensures r.Success? ==> BandsReported(r.value.summaries) == BandsScored(work)
    ensures runId !in old(lifecycle.store.rows) && runId in lifecycle.store.rows
    ensures var run := lifecycle.store.rows[runId];
      && run.status == (if r.Success? then SUCCESS else FAILED)
      && (r.Success? ==> run.recordsProcessed == r.value.processed && run.recordsRejected == r.value.rejected)
  {
    var begun := lifecycle.Begin("fraud_score", RUNNING, Some("cli"), None, now);
    runId := begun.value.runId;
    if operational.None? || structuralFailure {
      var _ := lifecycle.Transition(begun.value.runId, Fail(now, None, None, NO_DETAILS));
      return Failure(if operational.None? then NoOperationalBundle else StructuralFailure), begun.value.runId;
    }
    var s := ScorePending(store, items, work, operational.value, policy, now);
    var counts := Details(Some(s.processed), Some(s.rejected), None, None, None);
    var _ := lifecycle.Transition(begun.value.runId, Succeed(now, counts));
    r := Success(s);
  }
}
