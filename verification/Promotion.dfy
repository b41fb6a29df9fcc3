/** One uninterrupted promotion, with its audit run. */
module Promotion {
  import opened Common
  import opened Sorting
  import opened ColdStart
  import opened Bundles
  import opened Runs

  /** When an uninterrupted promotion goes through. */
  ghost predicate Promotable(rows: seq<Bundle>, channel: string, version: nat, verify: Bundle -> bool) {
    var found := FindVersion(rows, channel, version);
    && found.Some?
    && found.value.components.Complete()
    && verify(found.value)
    && found.value.status == CANDIDATE
    && (FindOperational(rows, channel).None? ==> GateCleared(found.value))
  }

  /** Why an uninterrupted promotion is refused: the first of the reasons, in the order they are looked at. */
  ghost predicate IsRefusal(
    e: PromotionError, rows: seq<Bundle>, channel: string, version: nat, verify: Bundle -> bool) {
    var found := FindVersion(rows, channel, version);
    if found.None? then e == NoSuchBundle
    else
      var b, c := found.value, found.value.components;
      if c.gbm.None? || c.lr.None? || c.anomaly.None? || c.preprocessing.None? || c.featureSchema.None?
         || c.ruleSet.None? || c.graphPolicy.None? || c.ensemblePolicy.None? || c.reasonCode.None?
      then e == IncompleteBundle
      else if !verify(b) then e == VerificationFailed
      else if FindOperational(rows, channel).None? && !ReportMatches(b) then e == ReportInvalid
      else if FindOperational(rows, channel).None? && !GatePasses(b.report.report) then e == GateFailed
      else e == NotCandidate && b.status != CANDIDATE
  }

  /** In terms of the rows: the bundle of that channel and version names all nine components, verifies, is a CANDIDATE,
      and clears the gate unless a bundle of its channel is OPERATIONAL. */
  lemma {:induction false} PromotableMeans(
    rows: seq<Bundle>, channel: string, version: nat, verify: Bundle -> bool, b: Bundle)
    requires Numbered(rows) && b in rows && b.channel == channel && b.version == version
    ensures FindVersion(rows, channel, version) == Some(b)
    ensures Promotable(rows, channel, version, verify) <==>
      var c := b.components;
      && c.gbm.Some? && c.lr.Some? && c.anomaly.Some? && c.preprocessing.Some? && c.featureSchema.Some?
      && c.ruleSet.Some? && c.graphPolicy.Some? && c.ensemblePolicy.Some? && c.reasonCode.Some?
      && verify(b) && b.status == CANDIDATE
      && (GateCleared(b) || exists o :: o in rows && o.channel == channel && o.status == OPERATIONAL)
  {
    VersionFound(rows, channel, version, b);
    FoundVersion(rows, channel, version);
    FoundOperational(rows, channel);
    var i :| 0 <= i < |rows| && rows[i] == b;
    var j :| 0 <= j < |rows| && rows[j] == FindVersion(rows, channel, version).value;
    if i < j { VersionsDistinct(rows, i, j); }
    if j < i { VersionsDistinct(rows, j, i); }
  }

  lemma {:induction false} VersionFound(rows: seq<Bundle>, channel: string, version: nat, b: Bundle)
    requires b in rows && b.channel == channel && b.version == version
    ensures FindVersion(rows, channel, version).Some?
  {
    if rows[0] != b { VersionFound(rows[1..], channel, version, b); }
  }

  lemma {:induction false} FreshReadIsCurrent(
    rows: seq<Bundle>, channel: string, version: nat, promotedBy: string, now: int)
    requires Numbered(rows) && FindVersion(rows, channel, version).Some?
    ensures var c := FindVersion(rows, channel, version).value;
      PromoteLocked(rows, channel, promotedBy, c, now).Success? <==> c.status == CANDIDATE
  {
    var c := FindVersion(rows, channel, version).value;
    FoundVersion(rows, channel, version);
    var locked := ChannelRows(rows, channel);
    ChannelRowsMembers(rows, channel, c);
    FoundId(locked, c.bundleId);
    var current := FindId(locked, c.bundleId).value;
    ChannelRowsMembers(rows, channel, current);
    var i := IdIsPosition(rows, c);
    var j := IdIsPosition(rows, current);
  }

  lemma {:induction false} RefusedForStatus(
    rows: seq<Bundle>, channel: string, version: nat, promotedBy: string, now: int)
    requires Numbered(rows) && FindVersion(rows, channel, version).Some?
    ensures var c := FindVersion(rows, channel, version).value;
      c.status != CANDIDATE ==> PromoteLocked(rows, channel, promotedBy, c, now) == Failure(NotCandidate)
  {
    var c := FindVersion(rows, channel, version).value;
    FoundVersion(rows, channel, version);
    var locked := ChannelRows(rows, channel);
    ChannelRowsMembers(rows, channel, c);
    FoundId(locked, c.bundleId);
    var current := FindId(locked, c.bundleId).value;
    ChannelRowsMembers(rows, channel, current);
    var i := IdIsPosition(rows, c);
    var j := IdIsPosition(rows, current);
  }

  /** The steps between the audit run's begin and its end. */
  method CheckAndPromote(
    channel: string, version: nat, promotedBy: string, verify: Bundle -> bool, store: BundleStore, now: int)
    returns (r: Result<Bundle, PromotionError>)
    requires store.Valid()
    modifies store`rows
    ensures store.Valid()
    ensures r.Success? <==> Promotable(old(store.rows), channel, version, verify)
    ensures r.Failure? ==>
      store.rows == old(store.rows) && IsRefusal(r.error, old(store.rows), channel, version, verify)
    ensures r.Success? ==> var c := FindVersion(old(store.rows), channel, version).value;
      && r.value == c.(status := OPERATIONAL, promotedAt := Some(now), promotedBy := Some(promotedBy))
      && PromoteLocked(old(store.rows), channel, promotedBy, c, now) == Success(store.rows)
  {
    var found := FindVersion(store.rows, channel, version);
    if found.None? {
      return Failure(NoSuchBundle);
    }
    var candidate := found.value;
    if !candidate.components.Complete() {
      return Failure(IncompleteBundle);
    }
    if !verify(candidate) {
      return Failure(VerificationFailed);
    }
    if FindOperational(store.rows, channel).None? {
      var report := LoadAndValidateReport(candidate);
      if report.Failure? {
        return Failure(ReportInvalid);
      }
      var passed, _ := EvaluateGate(report.value);
      if !passed {
        return Failure(GateFailed);
      }
    }
    FreshReadIsCurrent(store.rows, channel, version, promotedBy, now);
    RefusedForStatus(store.rows, channel, version, promotedBy, now);
    r := store.PromoteLockedRows(channel, promotedBy, candidate, now);
  }

  /** A blank argument touches nothing; otherwise one audit run is opened and ends SUCCESS
      exactly when the bundle was promoted, FAILED otherwise. */
  method PromoteBundle(
    channel: string, version: nat, promotedBy: string, database: string, verify: Bundle -> bool,
    store: BundleStore, lifecycle: RunLifecycle, now: int)
    returns (r: Result<Bundle, PromotionError>, ghost runId: nat)
    requires store.Valid() && lifecycle.store.Valid()
    modifies store`rows, lifecycle.store
    ensures store.Valid() && lifecycle.store.Valid()
    ensures r.Failure? ==> store.rows == old(store.rows)
    ensures r.Failure? ==>
      if database == "" || promotedBy == "" then r.error == MissingArgument
      else IsRefusal(r.error, old(store.rows), channel, version, verify)
    ensures r.Success? <==> database != "" && promotedBy != "" && Promotable(old(store.rows), channel, version, verify)
    ensures r.Success? ==> var c := FindVersion(old(store.rows), channel, version).value;
      && r.value == c.(status := OPERATIONAL, promotedAt := Some(now), promotedBy := Some(promotedBy))
      && PromoteLocked(old(store.rows), channel, promotedBy, c, now) == Success(store.rows)
    ensures database == "" || promotedBy == "" ==> lifecycle.store.rows == old(lifecycle.store.rows)
    ensures database != "" && promotedBy != "" ==>
      && runId !in old(lifecycle.store.rows)
      && lifecycle.store.rows.Keys == old(lifecycle.store.rows).Keys + {runId}
      && (forall id :: id in old(lifecycle.store.rows) ==> lifecycle.store.rows[id] == old(lifecycle.store.rows)[id])
      && lifecycle.store.rows[runId].pipelineName == "model_promotion"
      && lifecycle.store.rows[runId].status == if r.Success? then SUCCESS else FAILED
  {
    runId := 0;
    if database == "" || promotedBy == "" {
      return Failure(MissingArgument), 0;
    }
    var begun := lifecycle.Begin("model_promotion", RUNNING, Some("cli"), None, now);
    var run := begun.value;
    runId := run.runId;
    r := CheckAndPromote(channel, version, promotedBy, verify, store, now);
    if r.Failure? {
      var _ := lifecycle.Transition(run.runId, Fail(now, Some("PromotionError"), None, NO_DETAILS));
    } else {
      var _ := lifecycle.Transition(run.runId, Succeed(now, NO_DETAILS.(artifacts := Some(channel))));
    }
  }
}
