/** The shared history selection, and the feature context it must satisfy. */
module History {
  import opened Common
  import opened Sorting
  import opened Events

  /** Whose history is wanted, as of when, leaving out which event. */
  datatype Query = Query(customerId: string, asOf: int, exclude: Option<nat>)

  predicate EventQualifies(e: FraudEvent, q: Query) {
    e.customerId == q.customerId && Some(e.eventId) != q.exclude && e.timestamp < q.asOf
  }

  predicate AlertQualifies(a: SourceAlert, owners: map<nat, string>, q: Query) {
    Some(a.eventId) != q.exclude && a.eventId in owners && owners[a.eventId] == q.customerId && a.createdAt < q.asOf
  }

  /** The dict the event loop fills: the last qualifying row of each id. */
  function SeenEvents(candidates: seq<FraudEvent>, q: Query): map<nat, FraudEvent> {
    if candidates == [] then map[]
    else
      var last := candidates[|candidates| - 1];
      var seen := SeenEvents(candidates[..|candidates| - 1], q);
      if EventQualifies(last, q) then seen[last.eventId := last] else seen
  }

  function SeenAlerts(candidates: seq<SourceAlert>, owners: map<nat, string>, q: Query): map<nat, SourceAlert> {
    if candidates == [] then map[]
    else
      var last := candidates[|candidates| - 1];
      var seen := SeenAlerts(candidates[..|candidates| - 1], owners, q);
      if AlertQualifies(last, owners, q) then seen[last.sourceAlertId := last] else seen
  }

  /** The values of a dict, each once, in no promised order. */
  method ValuesOf<T(==)>(m: map<nat, T>, id: T -> nat) returns (values: seq<T>)
    requires forall k :: k in m ==> id(m[k]) == k
    ensures NoDuplicates(values)
    ensures forall v :: v in values <==> v in m.Values
  {
    values := [];
    var todo := m.Keys;
    while todo != {}
      invariant todo <= m.Keys
      invariant NoDuplicates(values)
      invariant forall v :: v in values <==> v in m.Values && id(v) !in todo
      decreases |todo|
    {
      var k :| k in todo;
      todo := todo - {k};
      values := values + [m[k]];
    }
  }

  lemma {:induction false} SeenEventsKeyed(candidates: seq<FraudEvent>, q: Query)
    ensures forall k :: k in SeenEvents(candidates, q) ==> SeenEvents(candidates, q)[k].eventId == k
  {
    if candidates != [] { SeenEventsKeyed(candidates[..|candidates| - 1], q); }
  }

  lemma {:induction false} SeenAlertsKeyed(candidates: seq<SourceAlert>, owners: map<nat, string>, q: Query)
    ensures forall k :: k in SeenAlerts(candidates, owners, q) ==>
      SeenAlerts(candidates, owners, q)[k].sourceAlertId == k
  {
    if candidates != [] { SeenAlertsKeyed(candidates[..|candidates| - 1], owners, q); }
  }

  method SelectHistoricalEvents(candidates: seq<FraudEvent>, q: Query, limit: nat) returns (r: seq<FraudEvent>)
    ensures TopOf(r, SeenEvents(candidates, q).Values, EventKey, limit)
  {
    var seen: map<nat, FraudEvent> := map[];
    for i := 0 to |candidates|
      invariant seen == SeenEvents(candidates[..i], q)
    {
      assert candidates[..i + 1][..i] == candidates[..i];
      var event := candidates[i];
      if event.customerId == q.customerId && Some(event.eventId) != q.exclude && event.timestamp < q.asOf {
        seen := seen[event.eventId := event];
      }
    }
    assert candidates[..|candidates|] == candidates;
    SeenEventsKeyed(candidates, q);
    var values := ValuesOf(seen, (e: FraudEvent) => e.eventId);
    var ordered := Reverse(Sort(values, EventKey));
    SortedTop(values, EventKey, limit);
    assert ToSet(values) == seen.Values;
    r := if |ordered| <= limit then ordered else ordered[..limit];
  }

  method SelectHistoricalAlerts(candidates: seq<SourceAlert>, owners: map<nat, string>, q: Query, limit: nat)
    returns (r: seq<SourceAlert>)
    ensures TopOf(r, SeenAlerts(candidates, owners, q).Values, AlertKey, limit)
  {
    var seen: map<nat, SourceAlert> := map[];
    for i := 0 to |candidates|
      invariant seen == SeenAlerts(candidates[..i], owners, q)
    {
      assert candidates[..i + 1][..i] == candidates[..i];
      var alert := candidates[i];
      if Some(alert.eventId) != q.exclude && alert.eventId in owners && owners[alert.eventId] == q.customerId
         && alert.createdAt < q.asOf
      {
        seen := seen[alert.sourceAlertId := alert];
      }
    }
    assert candidates[..|candidates|] == candidates;
    SeenAlertsKeyed(candidates, owners, q);
    var values := ValuesOf(seen, (a: SourceAlert) => a.sourceAlertId);
    var ordered := Reverse(Sort(values, AlertKey));
    SortedTop(values, AlertKey, limit);
    assert ToSet(values) == seen.Values;
    r := if |ordered| <= limit then ordered else ordered[..limit];
  }

  // ---- the selection depends only on the qualifying rows ----

  function QualifyingEvents(pool: seq<FraudEvent>, q: Query): set<FraudEvent> {
    set e | e in pool && EventQualifies(e, q)
  }

  function QualifyingAlerts(pool: seq<SourceAlert>, owners: map<nat, string>, q: Query): set<SourceAlert> {
    set a | a in pool && AlertQualifies(a, owners, q)
  }

  lemma {:induction false} SeenAreQualifying(pool: seq<FraudEvent>, q: Query)
    requires EventIdsIdentify(pool)
    ensures SeenEvents(pool, q).Values == QualifyingEvents(pool, q)
  {
    if pool != [] {
      var n := |pool| - 1;
      var last := pool[n];
      SeenAreQualifying(pool[..n], q);
      SeenEventsKeyed(pool[..n], q);
      assert pool == pool[..n] + [last];
      var before, after := SeenEvents(pool[..n], q), SeenEvents(pool, q);
      if EventQualifies(last, q) {
        assert last.eventId in before ==> before[last.eventId] in before.Values;
        UpdateValues(before, last.eventId, last);
      }
    }
  }

  lemma {:induction false} SeenAlertsAreQualifying(pool: seq<SourceAlert>, owners: map<nat, string>, q: Query)
    requires AlertIdsIdentify(pool)
    ensures SeenAlerts(pool, owners, q).Values == QualifyingAlerts(pool, owners, q)
  {
    if pool != [] {
      var n := |pool| - 1;
      var last := pool[n];
      SeenAlertsAreQualifying(pool[..n], owners, q);
      SeenAlertsKeyed(pool[..n], owners, q);
      assert pool == pool[..n] + [last];
      var before, after := SeenAlerts(pool[..n], owners, q), SeenAlerts(pool, owners, q);
      if AlertQualifies(last, owners, q) {
        assert last.sourceAlertId in before ==> before[last.sourceAlertId] in before.Values;
        UpdateValues(before, last.sourceAlertId, last);
      }
    }
  }

  lemma {:induction false} UpdateValues<T>(m: map<nat, T>, k: nat, v: T)
    requires k in m ==> m[k] == v
    ensures m[k := v].Values == m.Values + {v}
  {
    var m' := m[k := v];
    forall x | x in m.Values + {v} ensures x in m'.Values {
      if x == v {
        assert m'[k] == v;
      } else {
        var j :| j in m && m[j] == x;
        assert m'[j] == x;
      }
    }
  }

  /** Pools that hold the same qualifying rows - in any order, with any extra rows - select the same events. */
  lemma {:induction false} SelectionReadsQualifyingOnly(
    p1: seq<FraudEvent>, p2: seq<FraudEvent>, q: Query, limit: nat, r1: seq<FraudEvent>, r2: seq<FraudEvent>)
    requires EventIdsIdentify(p1) && EventIdsIdentify(p2)
    requires QualifyingEvents(p1, q) == QualifyingEvents(p2, q)
    requires TopOf(r1, SeenEvents(p1, q).Values, EventKey, limit)
    requires TopOf(r2, SeenEvents(p2, q).Values, EventKey, limit)
    ensures r1 == r2
  {
    SeenAreQualifying(p1, q);
    SeenAreQualifying(p2, q);
    TopUnique(r1, r2, QualifyingEvents(p1, q), EventKey, limit);
  }

  /** No qualifying event that was left out is more recent than one that was selected. */
  lemma {:induction false} SelectionIsMostRecent(
    pool: seq<FraudEvent>, q: Query, limit: nat, r: seq<FraudEvent>, x: FraudEvent)
    requires EventIdsIdentify(pool) && TopOf(r, SeenEvents(pool, q).Values, EventKey, limit)
    requires x in pool && EventQualifies(x, q) && x !in r
    ensures |r| == limit && forall e :: e in r ==> e in pool && EventQualifies(e, q) && e.timestamp >= x.timestamp
  {
    SeenAreQualifying(pool, q);
    assert x in QualifyingEvents(pool, q);
    forall e | e in r ensures e in pool && EventQualifies(e, q) && e.timestamp >= x.timestamp {
      assert e in QualifyingEvents(pool, q) && KeyLess(EventKey(x), EventKey(e));
    }
  }

  /** The rows in question: the customer's, other than the excluded event, strictly earlier. */
  predicate IsPast(e: FraudEvent, q: Query) {
    e.customerId == q.customerId && q.exclude != Some(e.eventId) && e.timestamp < q.asOf
  }

  /** The selection, written out: the newest of those rows, newest first, ties by the higher id. */
  lemma {:induction false} EventSelectionMeans(pool: seq<FraudEvent>, q: Query, limit: nat, r: seq<FraudEvent>)
    requires EventIdsIdentify(pool) && TopOf(r, SeenEvents(pool, q).Values, EventKey, limit)
    ensures |r| <= limit
    ensures forall i, j :: 0 <= i < j < |r| ==>
      r[j].timestamp < r[i].timestamp || (r[j].timestamp == r[i].timestamp && r[j].eventId < r[i].eventId)
    ensures forall e :: e in r ==>
      e in pool && e.customerId == q.customerId && q.exclude != Some(e.eventId) && e.timestamp < q.asOf
    ensures forall x, y :: x in pool && IsPast(x, q) && x !in r && y in r ==>
      |r| == limit && (x.timestamp < y.timestamp || (x.timestamp == y.timestamp && x.eventId < y.eventId))
    ensures (exists x :: x in pool && IsPast(x, q) && x !in r) ==> |r| == limit
  {
    SeenAreQualifying(pool, q);
    assert forall i, j :: 0 <= i < j < |r| ==> KeyLess(EventKey(r[j]), EventKey(r[i]));
    forall e | e in r ensures e in QualifyingEvents(pool, q) { assert e in SeenEvents(pool, q).Values; }
    forall x, y | x in pool && IsPast(x, q) && x !in r && y in r
      ensures |r| == limit && KeyLess(EventKey(x), EventKey(y))
    {
      assert x in QualifyingEvents(pool, q);
    }
    if x :| x in pool && IsPast(x, q) && x !in r { assert x in QualifyingEvents(pool, q); }
  }

  /** An alert in question: not of the excluded event, its event known as the customer's, strictly earlier. */
  predicate IsPastAlert(a: SourceAlert, owners: map<nat, string>, q: Query) {
    q.exclude != Some(a.eventId) && a.eventId in owners && owners[a.eventId] == q.customerId && a.createdAt < q.asOf
  }

  lemma {:induction false} AlertSelectionMeans(
    pool: seq<SourceAlert>, owners: map<nat, string>, q: Query, limit: nat, r: seq<SourceAlert>)
    requires AlertIdsIdentify(pool) && TopOf(r, SeenAlerts(pool, owners, q).Values, AlertKey, limit)
    ensures |r| <= limit
    ensures forall i, j :: 0 <= i < j < |r| ==>
      r[j].createdAt < r[i].createdAt || (r[j].createdAt == r[i].createdAt && r[j].sourceAlertId < r[i].sourceAlertId)
    ensures forall a :: a in r ==> a in pool && IsPastAlert(a, owners, q)
    ensures forall x, y :: x in pool && IsPastAlert(x, owners, q) && x !in r && y in r ==>
      |r| == limit && (x.createdAt < y.createdAt || (x.createdAt == y.createdAt && x.sourceAlertId < y.sourceAlertId))
    ensures (exists x :: x in pool && IsPastAlert(x, owners, q) && x !in r) ==> |r| == limit
  {
    SeenAlertsAreQualifying(pool, owners, q);
    assert forall i, j :: 0 <= i < j < |r| ==> KeyLess(AlertKey(r[j]), AlertKey(r[i]));
    forall a | a in r ensures a in QualifyingAlerts(pool, owners, q) {
      assert a in SeenAlerts(pool, owners, q).Values;
    }
    forall x, y | x in pool && IsPastAlert(x, owners, q) && x !in r && y in r
      ensures |r| == limit && KeyLess(AlertKey(x), AlertKey(y))
    {
      assert x in QualifyingAlerts(pool, owners, q);
    }
    if x :| x in pool && IsPastAlert(x, owners, q) && x !in r { assert x in QualifyingAlerts(pool, owners, q); }
  }

  /** Asking for fewer gives a prefix of asking for more. */
  lemma {:induction false} SmallerLimitIsPrefix(
    pool: seq<FraudEvent>, q: Query, limit: nat, smaller: nat, r: seq<FraudEvent>, s: seq<FraudEvent>)
    requires smaller <= limit
    requires TopOf(r, SeenEvents(pool, q).Values, EventKey, limit)
    requires TopOf(s, SeenEvents(pool, q).Values, EventKey, smaller)
    ensures s <= r
  {
    var v := SeenEvents(pool, q).Values;
    TopPrefix(r, v, EventKey, limit, smaller);
    TopUnique(s, if smaller <= |r| then r[..smaller] else r, v, EventKey, smaller);
  }

  // ---- the two callers ----

  /** Scoring's SQL narrows the pool to the customer's strictly earlier events. */
  function ScoringEvents(all: seq<FraudEvent>, q: Query): seq<FraudEvent> {
    Filter(all, (e: FraudEvent) => e.customerId == q.customerId && e.timestamp < q.asOf)
  }

  /** Training hands over the whole pool; both select identical events. */
  lemma {:induction false} TrainingAndScoringSelectSameEvents(
    all: seq<FraudEvent>, q: Query, limit: nat, r1: seq<FraudEvent>, r2: seq<FraudEvent>)
    requires EventIdsIdentify(all)
    requires TopOf(r1, SeenEvents(all, q).Values, EventKey, limit)
    requires TopOf(r2, SeenEvents(ScoringEvents(all, q), q).Values, EventKey, limit)
    ensures r1 == r2
  {
    assert QualifyingEvents(all, q) == QualifyingEvents(ScoringEvents(all, q), q);
    SelectionReadsQualifyingOnly(all, ScoringEvents(all, q), q, limit, r1, r2);
  }

  /** event_id -> customer_id, over the events a caller has fetched. */
  function Owners(events: seq<FraudEvent>): map<nat, string> {
    if events == [] then map[]
    else
      var last := events[|events| - 1];
      Owners(events[..|events| - 1])[last.eventId := last.customerId]
  }

  lemma {:induction false} OwnersOf(events: seq<FraudEvent>, id: nat)
    requires EventIdsIdentify(events)
    ensures id in Owners(events) <==> exists e :: e in events && e.eventId == id
    ensures forall e :: e in events && e.eventId == id ==> id in Owners(events) && Owners(events)[id] == e.customerId
  {
    if events != [] {
      var n := |events| - 1;
      OwnersOf(events[..n], id);
      assert events == events[..n] + [events[n]];
    }
  }

  /** Scoring's SQL joins each alert to its event and narrows to the customer's earlier alerts. */
  function ScoringAlerts(alerts: seq<SourceAlert>, all: seq<FraudEvent>, q: Query): seq<SourceAlert> {
    Filter(alerts, (a: SourceAlert) =>
      a.eventId in Owners(all) && Owners(all)[a.eventId] == q.customerId && a.createdAt < q.asOf)
  }

  /** What scoring's SQL lets through, written out. */
  lemma {:induction false} ScoringPoolsMean(
    alerts: seq<SourceAlert>, all: seq<FraudEvent>, q: Query, e: FraudEvent, a: SourceAlert)
    requires EventIdsIdentify(all)
    ensures e in ScoringEvents(all, q) <==> e in all && e.customerId == q.customerId && e.timestamp < q.asOf
    ensures a in ScoringAlerts(alerts, all, q) <==>
      && a in alerts && a.createdAt < q.asOf
      && exists x :: x in all && x.eventId == a.eventId && x.customerId == q.customerId
  {
    OwnersOf(all, a.eventId);
  }

  /** The dict scoring fills, from its own narrowed pools. */
  function ScoringSeen(alerts: seq<SourceAlert>, all: seq<FraudEvent>, q: Query): map<nat, SourceAlert> {
    SeenAlerts(ScoringAlerts(alerts, all, q), Owners(ScoringEvents(all, q)), q)
  }

  /** An alert raised before its own event's time: the event is not yet history when the alert is. */
  ghost predicate OutrunsEvent(a: SourceAlert, all: seq<FraudEvent>, q: Query) {
    exists e :: e in all && e.eventId == a.eventId && e.timestamp >= q.asOf
  }

  lemma {:induction false} ScoringAlertsQualify(
    alerts: seq<SourceAlert>, all: seq<FraudEvent>, q: Query, a: SourceAlert)
    requires EventIdsIdentify(all)
    ensures a in QualifyingAlerts(ScoringAlerts(alerts, all, q), Owners(ScoringEvents(all, q)), q)
      <==> a in QualifyingAlerts(alerts, Owners(all), q) && !OutrunsEvent(a, all, q)
  {
    OwnersOf(all, a.eventId);
    OwnersOf(ScoringEvents(all, q), a.eventId);
  }

  lemma {:induction false} SelectionsAgreeIfNoneOutruns(
    alerts: seq<SourceAlert>, all: seq<FraudEvent>, q: Query, limit: nat, r1: seq<SourceAlert>, r2: seq<SourceAlert>)
    requires EventIdsIdentify(all) && AlertIdsIdentify(alerts)
    requires TopOf(r1, SeenAlerts(alerts, Owners(all), q).Values, AlertKey, limit)
    requires TopOf(r2, ScoringSeen(alerts, all, q).Values, AlertKey, limit)
    ensures r1 == r2 <==> forall a :: a in r1 ==> !OutrunsEvent(a, all, q)
  {
    var training := QualifyingAlerts(alerts, Owners(all), q);
    var scoring := QualifyingAlerts(ScoringAlerts(alerts, all, q), Owners(ScoringEvents(all, q)), q);
    SeenAlertsAreQualifying(alerts, Owners(all), q);
    SeenAlertsAreQualifying(ScoringAlerts(alerts, all, q), Owners(ScoringEvents(all, q)), q);
    forall a ensures a in scoring <==> a in training && !OutrunsEvent(a, all, q) {
      ScoringAlertsQualify(alerts, all, q, a);
    }
    if forall a :: a in r1 ==> !OutrunsEvent(a, all, q) {
      assert TopOf(r1, scoring, AlertKey, limit);
      TopUnique(r1, r2, scoring, AlertKey, limit);
    }
  }

  /** Every alert that qualifies for training but outruns its event is crowded out by `limit` later ones. */
  ghost predicate OutrunnersCrowdedOut(alerts: seq<SourceAlert>, all: seq<FraudEvent>, q: Query, limit: nat) {
    var pool := QualifyingAlerts(alerts, Owners(all), q);
    forall a :: a in pool && OutrunsEvent(a, all, q) ==> |Above(a, pool, AlertKey)| >= limit
  }

  /** Training and scoring select identical alerts exactly when the pool's outrunners are crowded out. */
  lemma {:induction false} AlertSelectionsAgreeIff(
    alerts: seq<SourceAlert>, all: seq<FraudEvent>, q: Query, limit: nat, r1: seq<SourceAlert>, r2: seq<SourceAlert>)
    requires EventIdsIdentify(all) && AlertIdsIdentify(alerts)
    requires TopOf(r1, SeenAlerts(alerts, Owners(all), q).Values, AlertKey, limit)
    requires TopOf(r2, ScoringSeen(alerts, all, q).Values, AlertKey, limit)
    ensures r1 == r2 <==> OutrunnersCrowdedOut(alerts, all, q, limit)
  {
    SelectionsAgreeIfNoneOutruns(alerts, all, q, limit, r1, r2);
    SeenAlertsAreQualifying(alerts, Owners(all), q);
    var pool := QualifyingAlerts(alerts, Owners(all), q);
    forall a | a in pool ensures a in r1 <==> |Above(a, pool, AlertKey)| < limit {
      InTopIff(r1, pool, AlertKey, limit, a);
    }
  }

  lemma {:induction false} TrainingSeesIt(e: FraudEvent, a: SourceAlert, q: Query, limit: nat)
    requires a.eventId == e.eventId && e.customerId == q.customerId && q.exclude != Some(a.eventId)
    requires a.createdAt < q.asOf && limit > 0
    ensures TopOf([a], SeenAlerts([a], Owners([e]), q).Values, AlertKey, limit)
  {
    OwnersOf([e], a.eventId);
    SeenAlertsAreQualifying([a], Owners([e]), q);
    assert SeenAlerts([a], Owners([e]), q).Values == {a};
  }

  lemma {:induction false} ScoringDoesNot(e: FraudEvent, a: SourceAlert, q: Query, limit: nat)
    requires q.asOf <= e.timestamp
    ensures TopOf([], SeenAlerts(ScoringAlerts([a], [e], q), Owners(ScoringEvents([e], q)), q).Values, AlertKey, limit)
  {
    FilterNone([e], (x: FraudEvent) => x.customerId == q.customerId && x.timestamp < q.asOf);
    assert ScoringEvents([e], q) == [];
    SeenAlertsQualify(ScoringAlerts([a], [e], q), Owners([]), q);
    assert SeenAlerts(ScoringAlerts([a], [e], q), Owners([]), q).Values == {};
  }

  /** One alert raised before its only event, when another event is scored in between: training selects it, scoring
      selects nothing. */
  lemma {:induction false} EarlyAlertDisagrees(e: FraudEvent, a: SourceAlert, target: nat, asOf: int, limit: nat)
    requires a.eventId == e.eventId && a.createdAt < asOf <= e.timestamp && limit > 0 && target != e.eventId
    ensures var q := Query(e.customerId, asOf, Some(target));
      && TopOf([a], SeenAlerts([a], Owners([e]), q).Values, AlertKey, limit)
      && TopOf([], SeenAlerts(ScoringAlerts([a], [e], q), Owners(ScoringEvents([e], q)), q).Values, AlertKey, limit)
  {
    TrainingSeesIt(e, a, Query(e.customerId, asOf, Some(target)), limit);
    ScoringDoesNot(e, a, Query(e.customerId, asOf, Some(target)), limit);
  }

  /** In particular they agree whenever every alert is created at or after its event. */
  lemma {:induction false} TimelyAlertsAgree(
    alerts: seq<SourceAlert>, all: seq<FraudEvent>, q: Query, limit: nat, r1: seq<SourceAlert>, r2: seq<SourceAlert>)
    requires EventIdsIdentify(all) && AlertIdsIdentify(alerts)
    requires forall a, e :: a in alerts && e in all && e.eventId == a.eventId ==> a.createdAt >= e.timestamp
    requires TopOf(r1, SeenAlerts(alerts, Owners(all), q).Values, AlertKey, limit)
    requires TopOf(r2, ScoringSeen(alerts, all, q).Values, AlertKey, limit)
    ensures r1 == r2
  {
    SeenAlertsAreQualifying(alerts, Owners(all), q);
    SelectionsAgreeIfNoneOutruns(alerts, all, q, limit, r1, r2);
  }

  // ---- the feature context ----

  datatype Context = Context(current: FraudEvent, history: seq<FraudEvent>, alerts: seq<SourceAlert>, asOf: int)

  datatype ContextError = WrongAsOf | ContainsCurrent(eventId: nat) | FutureEvent(eventId: nat)
    | FutureAlert(alertId: nat)

  function CheckEvents(history: seq<FraudEvent>, current: FraudEvent, asOf: int): Option<ContextError> {
    if history == [] then None
    else if history[0].eventId == current.eventId then Some(ContainsCurrent(current.eventId))
    else if history[0].timestamp >= asOf then Some(FutureEvent(history[0].eventId))
    else CheckEvents(history[1..], current, asOf)
  }

  function CheckAlerts(alerts: seq<SourceAlert>, asOf: int): Option<ContextError> {
    if alerts == [] then None
    else if alerts[0].createdAt >= asOf then Some(FutureAlert(alerts[0].sourceAlertId))
    else CheckAlerts(alerts[1..], asOf)
  }

  /** The context's own validation: fails fast, filters nothing. */
  function MakeContext(
    current: FraudEvent, history: seq<FraudEvent>, alerts: seq<SourceAlert>, asOf: int)
    : Result<Context, ContextError>
  {
    if asOf != current.timestamp then Failure(WrongAsOf)
    else if CheckEvents(history, current, asOf).Some? then Failure(CheckEvents(history, current, asOf).value)
    else if CheckAlerts(alerts, asOf).Some? then Failure(CheckAlerts(alerts, asOf).value)
    else Success(Context(current, history, alerts, asOf))
  }

  lemma {:induction false} EventsCheckIff(history: seq<FraudEvent>, current: FraudEvent, asOf: int)
    ensures CheckEvents(history, current, asOf).None? <==>
      forall e :: e in history ==> e.eventId != current.eventId && e.timestamp < asOf
  {
    if history != [] {
      EventsCheckIff(history[1..], current, asOf);
      assert history == [history[0]] + history[1..];
    }
  }

  lemma {:induction false} AlertsCheckIff(alerts: seq<SourceAlert>, asOf: int)
    ensures CheckAlerts(alerts, asOf).None? <==> forall a :: a in alerts ==> a.createdAt < asOf
  {
    if alerts != [] {
      AlertsCheckIff(alerts[1..], asOf);
      assert alerts == [alerts[0]] + alerts[1..];
    }
  }

  /** A context is built exactly as of the scored event, from strictly earlier events other than it and strictly
      earlier alerts, and unchanged. */
  lemma {:induction false} ContextMeans(
    current: FraudEvent, history: seq<FraudEvent>, alerts: seq<SourceAlert>, asOf: int)
    ensures var r := MakeContext(current, history, alerts, asOf);
      && (r.Success? ==> r.value == Context(current, history, alerts, asOf))
      && (r == Failure(WrongAsOf) <==> asOf != current.timestamp)
      && (r.Success? <==>
          && asOf == current.timestamp
          && (forall e :: e in history ==> e.eventId != current.eventId && e.timestamp < asOf)
          && (forall a :: a in alerts ==> a.createdAt < asOf))
      && (r.Failure? && r.error.FutureEvent? ==>
          exists e :: e in history && r.error.eventId == e.eventId && e.timestamp >= asOf)
      && (r.Failure? && r.error.ContainsCurrent? ==>
          exists e :: e in history && r.error.eventId == e.eventId == current.eventId)
      && (r.Failure? && r.error.FutureAlert? ==>
          exists a :: a in alerts && r.error.alertId == a.sourceAlertId && a.createdAt >= asOf)
  {
    EventsCheckIff(history, current, asOf);
    AlertsCheckIff(alerts, asOf);
    EventsCheckNames(history, current, asOf);
    AlertsCheckNames(alerts, asOf);
  }

  lemma {:induction false} EventsCheckNames(history: seq<FraudEvent>, current: FraudEvent, asOf: int)
    ensures match CheckEvents(history, current, asOf)
      case None => true
      case Some(ContainsCurrent(id)) => exists e :: e in history && id == e.eventId == current.eventId
      case Some(FutureEvent(id)) => exists e :: e in history && id == e.eventId && e.timestamp >= asOf
      case Some(_) => false
  {
    if history != [] {
      EventsCheckNames(history[1..], current, asOf);
      assert history[0] in history;
      assert history == [history[0]] + history[1..];
    }
  }

  lemma {:induction false} AlertsCheckNames(alerts: seq<SourceAlert>, asOf: int)
    ensures match CheckAlerts(alerts, asOf)
      case None => true
      case Some(FutureAlert(id)) => exists a :: a in alerts && id == a.sourceAlertId && a.createdAt >= asOf
      case Some(_) => false
  {
    if alerts != [] {
      AlertsCheckNames(alerts[1..], asOf);
      assert alerts[0] in alerts;
      assert alerts == [alerts[0]] + alerts[1..];
    }
  }

  lemma {:induction false} SeenEventsQualify(pool: seq<FraudEvent>, q: Query)
    ensures forall e :: e in SeenEvents(pool, q).Values ==> EventQualifies(e, q)
  {
    if pool != [] { SeenEventsQualify(pool[..|pool| - 1], q); }
  }

  lemma {:induction false} SeenAlertsQualify(pool: seq<SourceAlert>, owners: map<nat, string>, q: Query)
    ensures forall a :: a in SeenAlerts(pool, owners, q).Values ==> AlertQualifies(a, owners, q)
  {
    if pool != [] { SeenAlertsQualify(pool[..|pool| - 1], owners, q); }
  }

  /** Whatever the pools hold, what is selected for an event always passes the context's validation. */
  lemma {:induction false} SelectionsValidate(
    current: FraudEvent, events: seq<FraudEvent>, alerts: seq<SourceAlert>, owners: map<nat, string>,
    limit: nat, alertLimit: nat, r: seq<FraudEvent>, s: seq<SourceAlert>)
    requires var q := Query(current.customerId, current.timestamp, Some(current.eventId));
      TopOf(r, SeenEvents(events, q).Values, EventKey, limit)
        && TopOf(s, SeenAlerts(alerts, owners, q).Values, AlertKey, alertLimit)
    ensures MakeContext(current, r, s, current.timestamp) == Success(Context(current, r, s, current.timestamp))
  {
    var q := Query(current.customerId, current.timestamp, Some(current.eventId));
    SeenEventsQualify(events, q);
    SeenAlertsQualify(alerts, owners, q);
    EventsCheckIff(r, current, current.timestamp);
    AlertsCheckIff(s, current.timestamp);
  }
}
