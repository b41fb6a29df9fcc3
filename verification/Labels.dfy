/** Label eligibility: the pure assessment, the append-only log, and its behaviour over runs. */
module Labels {
  import opened Common
  import opened Sorting
  import opened AlertQueue

  datatype LabelSource = SYNTHETIC_GENERATOR | ANALYST_DISPOSITION | EXTERNAL_CONFIRMATION

  const POLICY_VERSION := "v1"

  /** Fourteen days, in the microseconds all times are counted in. */
  const ANALYST_MATURITY_WINDOW := 14 * 24 * 3600 * 1000000

  datatype Basis = Basis(
    alertId: nat, source: LabelSource, timestamp: int, dispositionId: Option<nat>, resolved: Option<ResolvedLabel>)

  datatype Reason =
    SYNTHETIC_IMMEDIATE_MATURITY | MATURITY_WINDOW_ELAPSED | MATURITY_WINDOW_NOT_ELAPSED | MATURE_BUT_UNRESOLVED

  /** Everything about an assessment except its generated id and time. */
  datatype Assessment = Assessment(
    alertId: nat, policyVersion: string, dispositionId: Option<nat>, basisTimestamp: int, maturityDueAt: int,
    mature: bool, eligible: bool, reason: Reason, resolved: Option<ResolvedLabel>, source: LabelSource)

  datatype InputError = SyntheticWithDisposition | MissingDisposition

  function AssessLabel(b: Basis, now: int): Result<Assessment, InputError> {
    if b.source == SYNTHETIC_GENERATOR && b.dispositionId.Some? then Failure(SyntheticWithDisposition)
    else if b.source != SYNTHETIC_GENERATOR && b.dispositionId.None? then Failure(MissingDisposition)
    else
      var synthetic := b.source == SYNTHETIC_GENERATOR;
      var due := if synthetic then b.timestamp else b.timestamp + ANALYST_MATURITY_WINDOW;
      var mature := synthetic || now >= due;
      var resolves := b.resolved == Some(RESOLVED_FRAUD) || b.resolved == Some(RESOLVED_LEGITIMATE);
      var maturityReason := if synthetic then SYNTHETIC_IMMEDIATE_MATURITY
                            else if mature then MATURITY_WINDOW_ELAPSED else MATURITY_WINDOW_NOT_ELAPSED;
      Success(Assessment(b.alertId, POLICY_VERSION, b.dispositionId, b.timestamp, due, mature, mature && resolves,
                         if mature && !resolves then MATURE_BUT_UNRESOLVED else maturityReason, b.resolved, b.source))
  }

  /** The evidence is fourteen days old, or was known from the start. */
  predicate Matured(b: Basis, now: int) {
    b.source == SYNTHETIC_GENERATOR || now - b.timestamp >= ANALYST_MATURITY_WINDOW
  }

  predicate Resolves(b: Basis) { b.resolved.Some? && b.resolved.value != UNRESOLVED }

  /** An assessment is refused exactly when source and disposition do not go together. Otherwise it copies its basis, is
      due fourteen days after an analyst's or external evidence and at once for a synthetic label, is mature exactly
      when due, eligible exactly when mature and resolved either way, and its reason says which of these failed. */
  lemma {:induction false} AssessmentMeans(b: Basis, now: int)
    ensures AssessLabel(b, now) == Failure(SyntheticWithDisposition)
      <==> b.source == SYNTHETIC_GENERATOR && b.dispositionId.Some?
    ensures AssessLabel(b, now) == Failure(MissingDisposition)
      <==> b.source != SYNTHETIC_GENERATOR && b.dispositionId.None?
    ensures AssessLabel(b, now).Success? <==> (b.source == SYNTHETIC_GENERATOR <==> b.dispositionId.None?)
    ensures AssessLabel(b, now).Success? ==>
      var a, synthetic := AssessLabel(b, now).value, b.source == SYNTHETIC_GENERATOR;
      var resolved := b.resolved == Some(RESOLVED_FRAUD) || b.resolved == Some(RESOLVED_LEGITIMATE);
      && a.alertId == b.alertId && a.policyVersion == "v1" && a.dispositionId == b.dispositionId
      && a.basisTimestamp == b.timestamp && a.resolved == b.resolved && a.source == b.source
      && a.maturityDueAt - b.timestamp == (if synthetic then 0 else 14 * 24 * 3600 * 1000000)
      && (a.mature <==> synthetic || a.maturityDueAt <= now)
      && (a.eligible <==> a.mature && resolved)
      && (a.reason == MATURITY_WINDOW_NOT_ELAPSED <==> !a.mature)
      && (a.reason == MATURE_BUT_UNRESOLVED <==> a.mature && !resolved)
      && (a.reason == SYNTHETIC_IMMEDIATE_MATURITY <==> synthetic && resolved)
      && (a.reason == MATURITY_WINDOW_ELAPSED <==> a.mature && resolved && !synthetic)
  {
  }

  lemma {:induction false} AssessmentMatures(b: Basis, now: int)
    ensures AssessLabel(b, now).Success? ==>
      var a := AssessLabel(b, now).value;
      (a.mature <==> Matured(b, now)) && (a.eligible <==> Matured(b, now) && Resolves(b))
  {
    if b.resolved.Some? {
      match b.resolved.value { case RESOLVED_FRAUD => case RESOLVED_LEGITIMATE => case UNRESOLVED => }
    }
  }

  // ---- the log ----

  datatype Row = Row(assessmentId: nat, evaluatedAt: int, a: Assessment)

  function RowKey(r: Row): Key { Key(0.0, r.evaluatedAt, r.assessmentId) }

  /** The alert's latest row by (evaluated_at, assessment_id). */
  function LatestRow(rows: seq<Row>, alertId: nat): Option<Row> {
    if rows == [] then None
    else
      var last := rows[|rows| - 1];
      var before := LatestRow(rows[..|rows| - 1], alertId);
      var newer := before.None? || KeyLess(RowKey(before.value), RowKey(last));
      if last.a.alertId == alertId && newer then Some(last) else before
  }

  /** No row of the alert is later than its latest one, by time and then by id. */
  lemma {:induction false} LatestRowMeans(rows: seq<Row>, alertId: nat, x: Row)
    requires x in rows && x.a.alertId == alertId
    ensures var latest := LatestRow(rows, alertId);
      && latest.Some? && latest.value in rows && latest.value.a.alertId == alertId
      && (x.evaluatedAt < latest.value.evaluatedAt
          || (x.evaluatedAt == latest.value.evaluatedAt && x.assessmentId <= latest.value.assessmentId))
  {
    var n := |rows| - 1;
    assert rows == rows[..n] + [rows[n]];
    if x in rows[..n] {
      LatestRowMeans(rows[..n], alertId, x);
    } else if LatestRow(rows[..n], alertId).Some? {
      LatestRowIn(rows[..n], alertId);
    }
  }

  lemma {:induction false} LatestRowIn(rows: seq<Row>, alertId: nat)
    ensures var latest := LatestRow(rows, alertId);
      latest.Some? ==> latest.value in rows && latest.value.a.alertId == alertId
  {
    if rows != [] {
      LatestRowIn(rows[..|rows| - 1], alertId);
      assert rows == rows[..|rows| - 1] + [rows[|rows| - 1]];
    }
  }

  function Changed(rows: seq<Row>, a: Assessment): bool {
    var latest := LatestRow(rows, a.alertId);
    latest.None? || latest.value.a != a
  }

  function AppendIfChanged(rows: seq<Row>, a: Assessment, at: int): seq<Row> {
    if Changed(rows, a) then rows + [Row(|rows| + 1, at, a)] else rows
  }

  class AssessmentStore {
    var rows: seq<Row>
    var nextId: nat

    ghost predicate Valid() reads this { nextId == |rows| + 1 }

    constructor ()
      ensures Valid() && rows == []
    {
      rows, nextId := [], 1;
    }

    method AppendAssessment(a: Assessment, at: int) returns (r: Row)
      requires Valid()
      modifies this
      ensures Valid() && r == Row(|old(rows)| + 1, at, a) && rows == old(rows) + [r]
    {
      r := Row(nextId, at, a);
      nextId := nextId + 1;
      rows := rows + [r];
    }

    method Append(a: Assessment, at: int) returns (record: Row, inserted: bool)
      requires Valid()
      modifies this
      ensures Valid() && rows == AppendIfChanged(old(rows), a, at)
      ensures inserted <==> Changed(old(rows), a)
      ensures record.a == a
      ensures inserted ==> record == rows[|rows| - 1]
      ensures !inserted ==> Some(record) == LatestRow(old(rows), a.alertId)
    {
      var latest := LatestRow(rows, a.alertId);
      if latest.Some? && latest.value.a == a {
        return latest.value, false;
      }
      record := AppendAssessment(a, at);
      inserted := true;
    }
  }

  /** Every basis assessed at the same `now`, in order; `at` is the time each row would be stamped with. */
  function AssessAll(rows: seq<Row>, bases: seq<Basis>, now: int, at: seq<int>): seq<Row>
    requires |at| == |bases| && forall b :: b in bases ==> AssessLabel(b, now).Success?
  {
    if bases == [] then rows
    else
      var n := |bases| - 1;
      assert bases[n] in bases;
      AppendIfChanged(AssessAll(rows, bases[..n], now, at[..n]), AssessLabel(bases[n], now).value, at[n])
  }

  // ---- a run's counters ----

  datatype Counters = Counters(mature: nat, immature: nat, eligible: nat, fraud: nat, legitimate: nat, unresolved: nat)

  function CountRecord(c: Counters, a: Assessment): Counters {
    var m := if a.mature then c.(mature := c.mature + 1) else c.(immature := c.immature + 1);
    var e := if a.eligible then m.(eligible := m.eligible + 1) else m;
    match a.resolved
    case Some(RESOLVED_FRAUD) => e.(fraud := e.fraud + 1)
    case Some(RESOLVED_LEGITIMATE) => e.(legitimate := e.legitimate + 1)
    case _ => e.(unresolved := e.unresolved + 1)
  }

  function MaturedIn(bases: seq<Basis>, now: int): nat {
    if bases == [] then 0 else MaturedIn(bases[..|bases| - 1], now) + if Matured(bases[|bases| - 1], now) then 1 else 0
  }

  function EligibleIn(bases: seq<Basis>, now: int): nat {
    if bases == [] then 0
    else
      var last := bases[|bases| - 1];
      EligibleIn(bases[..|bases| - 1], now) + if Matured(last, now) && Resolves(last) then 1 else 0
  }

  function LabelledIn(bases: seq<Basis>, resolved: Option<ResolvedLabel>): nat {
    if bases == [] then 0
    else LabelledIn(bases[..|bases| - 1], resolved) + if bases[|bases| - 1].resolved == resolved then 1 else 0
  }

  /** Each counter counts the bases it is named after. */
  ghost predicate CountersMatch(c: Counters, bases: seq<Basis>, now: int) {
    && c.mature == MaturedIn(bases, now) && c.mature + c.immature == |bases|
    && c.eligible == EligibleIn(bases, now)
    && c.fraud == LabelledIn(bases, Some(RESOLVED_FRAUD))
    && c.legitimate == LabelledIn(bases, Some(RESOLVED_LEGITIMATE))
    && c.unresolved == LabelledIn(bases, Some(UNRESOLVED)) + LabelledIn(bases, None)
  }

  lemma {:induction false} CountersNext(c: Counters, bases: seq<Basis>, n: nat, now: int)
    requires n < |bases| && AssessLabel(bases[n], now).Success? && CountersMatch(c, bases[..n], now)
    ensures CountersMatch(CountRecord(c, AssessLabel(bases[n], now).value), bases[..n + 1], now)
  {
    TakeNext(bases, n);
    AssessmentMatures(bases[n], now);
    var b := bases[n];
    match b.resolved {
      case None =>
      case Some(l) => match l { case RESOLVED_FRAUD => case RESOLVED_LEGITIMATE => case UNRESOLVED => }
    }
  }

  datatype Summary = Summary(inserted: nat, kept: nat, counters: Counters)

  /** One labelling run; a malformed basis aborts it, leaving the rows already appended. */
  method AssessChannelLabels(
    store: AssessmentStore, bases: seq<Basis>, now: int, at: seq<int>) returns (r: Result<Summary, InputError>)
    requires store.Valid() && |at| == |bases|
    modifies store
    ensures store.Valid() && old(store.rows) <= store.rows
    ensures r.Success? <==> forall b :: b in bases ==> AssessLabel(b, now).Success?
    ensures r.Success? ==> store.rows == AssessAll(old(store.rows), bases, now, at)
    ensures r.Success? ==>
      r.value.inserted + r.value.kept == |bases| && |store.rows| == |old(store.rows)| + r.value.inserted
    ensures r.Success? ==> CountersMatch(r.value.counters, bases, now)
  {
    var inserted, counters := 0, Counters(0, 0, 0, 0, 0, 0);
    for i := 0 to |bases|
      invariant store.Valid() && old(store.rows) <= store.rows
      invariant forall b :: b in bases[..i] ==> AssessLabel(b, now).Success?
      invariant store.rows == AssessAll(old(store.rows), bases[..i], now, at[..i])
      invariant inserted <= i && |store.rows| == |old(store.rows)| + inserted
      invariant CountersMatch(counters, bases[..i], now)
    {
      var outcome := AssessLabel(bases[i], now);
      if outcome.Failure? {
        assert bases[i] in bases;
        return Failure(outcome.error);
      }
      TakeNext(bases, i);
      TakeNext(at, i);
      CountersNext(counters, bases, i, now);
      var record, isNew := store.Append(outcome.value, at[i]);
      if isNew { inserted := inserted + 1; }
      counters := CountRecord(counters, record.a);
    }
    assert bases[..|bases|] == bases && at[..|at|] == at;
    r := Success(Summary(inserted, |bases| - inserted, counters));
  }
}
