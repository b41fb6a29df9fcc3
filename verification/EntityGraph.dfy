/** The bounded clique-per-event entity graph. */
module EntityGraph {
  import opened Common
  import opened Sorting
  import opened Events

  datatype EntityKind = Customer | Account | Device | IpAddress | Beneficiary | Recipient | Card | Atm | CheckPayee

  datatype EntityKey = EntityKey(kind: EntityKind, id: string)

  datatype EdgeRecord = EdgeRecord(other: EntityKey, timestamp: int, eventId: nat)

  type Adjacency = map<EntityKey, seq<EdgeRecord>>

  datatype EntityGraph = EntityGraph(adjacency: Adjacency, truncated: bool, nodeCount: nat, edgeCount: nat)

  /** A history event at or after the scored event. */
  datatype GraphLeakage = GraphLeakage(eventId: nat)

  datatype GraphPolicy = GraphPolicy(
    sharedDeviceCap: int, sharedDeviceWeight: real,
    fanInCap: int, fanInWeight: real,
    fanOutCap: int, fanOutWeight: real,
    shortestPathWeight: real,
    maxHistoryEvents: int, maxNodes: int, maxEdges: int)
  {
    function WeightSum(): real { sharedDeviceWeight + fanInWeight + fanOutWeight + shortestPathWeight }

    /** What the policy's own validators enforce at load time. */
    predicate Valid() {
      && 0 < sharedDeviceCap && 0 < fanInCap && 0 < fanOutCap
      && 0 < maxHistoryEvents && 0 < maxNodes && 0 < maxEdges
      && 0.0 <= sharedDeviceWeight && 0.0 <= fanInWeight && 0.0 <= fanOutWeight && 0.0 <= shortestPathWeight
      && WeightSum() <= 1.0 + 0.000001
    }
  }

  /** Which policies load: positive caps and limits, no negative weight, and weights that sum to at most one, up to a
      millionth. */
  lemma {:induction false} PolicyLoadsIff(p: GraphPolicy)
    ensures p.Valid() <==>
      && p.sharedDeviceCap >= 1 && p.fanInCap >= 1 && p.fanOutCap >= 1
      && p.maxHistoryEvents >= 1 && p.maxNodes >= 1 && p.maxEdges >= 1
      && p.sharedDeviceWeight >= 0.0 && p.fanInWeight >= 0.0 && p.fanOutWeight >= 0.0 && p.shortestPathWeight >= 0.0
      && p.sharedDeviceWeight + p.fanInWeight + p.fanOutWeight + p.shortestPathWeight <= 1.000001
  {
  }

  type Extractor = FraudEvent -> seq<EntityKey>

  /** Every registered extractor yields the customer and the account, and never an entity twice. */
  ghost predicate YieldsCliques(extract: Extractor) {
    forall e :: |extract(e)| >= 2 && NoDuplicates(extract(e))
  }

  predicate Present(field: Option<string>) { field.Some? && field.value != "" }

  /** The common shape of the seven channels' extractors; `other` is the channel's
      counterparty kind, None for ACH, which has no counterparty entity. */
  function ExtractEntities(other: Option<EntityKind>): Extractor {
    (e: FraudEvent) =>
      [EntityKey(Customer, e.customerId), EntityKey(Account, e.accountId)]
      + (if Present(e.deviceId) then [EntityKey(Device, e.deviceId.value)] else [])
      + (if Present(e.ipAddress) then [EntityKey(IpAddress, e.ipAddress.value)] else [])
      + (if other.Some? && Present(e.counterparty) then [EntityKey(other.value, e.counterparty.value)] else [])
  }

  lemma {:induction false} RegisteredExtractorsYieldCliques(other: Option<EntityKind>)
    requires other.None? || other.value in {Beneficiary, Recipient, Card, Atm, CheckPayee}
    ensures YieldsCliques(ExtractEntities(other))
  {
    forall e: FraudEvent
      ensures |ExtractEntities(other)(e)| >= 2 && NoDuplicates(ExtractEntities(other)(e))
    {
      KindsAscend(ExtractEntities(other)(e));
    }
  }

  /** Exactly which entities an event carries: its customer and account, and each further one whose field is there and
      not empty. */
  lemma {:induction false} EntitiesCarried(other: Option<EntityKind>, e: FraudEvent, k: EntityKey)
    ensures k in ExtractEntities(other)(e) <==>
      || k == EntityKey(Customer, e.customerId)
      || k == EntityKey(Account, e.accountId)
      || (k.kind == Device && e.deviceId == Some(k.id) && k.id != "")
      || (k.kind == IpAddress && e.ipAddress == Some(k.id) && k.id != "")
      || (Some(k.kind) == other && e.counterparty == Some(k.id) && k.id != "")
  {
  }

  /** The order in which the extractors list the kinds. */
  function KindRank(k: EntityKind): nat {
    match k case Customer => 0 case Account => 1 case Device => 2 case IpAddress => 3 case _ => 4
  }

  lemma {:induction false} KindsAscend(es: seq<EntityKey>)
    requires forall i :: 0 < i < |es| ==> KindRank(es[i - 1].kind) < KindRank(es[i].kind)
    ensures NoDuplicates(es)
    ensures forall i :: 0 <= i < |es| - 1 ==> KindRank(es[i].kind) < KindRank(es[|es| - 1].kind)
  {
    if |es| > 1 {
      var n := |es| - 1;
      KindsAscend(es[..n]);
      assert KindRank(es[n - 1].kind) < KindRank(es[n].kind);
    }
  }

  // ---- what one event, and a list of events, contribute ----

  function Edges(adj: Adjacency, a: EntityKey): seq<EdgeRecord> { if a in adj then adj[a] else [] }

  /** Records to every entity of the event except position i, among the first n. */
  function Others(es: seq<EntityKey>, e: FraudEvent, i: nat, n: nat): seq<EdgeRecord>
    requires n <= |es|
  {
    if n == 0 then []
    else Others(es, e, i, n - 1) + if n - 1 == i then [] else [EdgeRecord(es[n - 1], e.timestamp, e.eventId)]
  }

  /** What the event adds to entity a, from the first m positions. */
  function Star(es: seq<EntityKey>, e: FraudEvent, a: EntityKey, m: nat): seq<EdgeRecord>
    requires m <= |es|
  {
    if m == 0 then []
    else Star(es, e, a, m - 1) + if es[m - 1] == a then Others(es, e, m - 1, |es|) else []
  }

  /** The edges of a in the graph of a list of events, most recent first. */
  function GraphEdges(kept: seq<FraudEvent>, extract: Extractor, a: EntityKey): seq<EdgeRecord> {
    if kept == [] then []
    else
      var e := kept[|kept| - 1];
      GraphEdges(kept[..|kept| - 1], extract, a) + Star(extract(e), e, a, |extract(e)|)
  }

  function EdgesOfEvent(es: seq<EntityKey>): nat { if es == [] then 0 else |es| * (|es| - 1) }

  function EdgeSum(kept: seq<FraudEvent>, extract: Extractor): nat {
    if kept == [] then 0 else EdgeSum(kept[..|kept| - 1], extract) + EdgesOfEvent(extract(kept[|kept| - 1]))
  }

  /** The entities that get a record from one event, and from a list of events. */
  function NodesOfEvent(es: seq<EntityKey>): set<EntityKey> { if |es| >= 2 then ToSet(es) else {} }

  function Nodes(kept: seq<FraudEvent>, extract: Extractor): set<EntityKey> {
    if kept == [] then {} else Nodes(kept[..|kept| - 1], extract) + NodesOfEvent(extract(kept[|kept| - 1]))
  }

  function Cliques(kept: seq<FraudEvent>, extract: Extractor): Adjacency {
    map a | a in Nodes(kept, extract) :: GraphEdges(kept, extract, a)
  }

  // ---- the greedy cut, and the graph as a function of the history ----

  function RecentFirst(history: seq<FraudEvent>, policy: GraphPolicy): seq<FraudEvent>
    requires policy.Valid()
  {
    var all := Reverse(Sort(history, EventKey));
    if |all| > policy.maxHistoryEvents then all[..policy.maxHistoryEvents] else all
  }

  /** Does the next older event still fit after the k most recent ones? */
  predicate NextFits(recent: seq<FraudEvent>, extract: Extractor, policy: GraphPolicy, k: nat)
    requires k < |recent|
  {
    && |Nodes(recent[..k], extract) + ToSet(extract(recent[k]))| <= policy.maxNodes
    && EdgeSum(recent[..k], extract) + EdgesOfEvent(extract(recent[k])) <= policy.maxEdges
  }

  function KeptFrom(recent: seq<FraudEvent>, extract: Extractor, policy: GraphPolicy, k: nat): (n: nat)
    requires k <= |recent|
    ensures k <= n <= |recent|
    decreases |recent| - k
  {
    if k < |recent| && NextFits(recent, extract, policy, k) then KeptFrom(recent, extract, policy, k + 1) else k
  }

  function Kept(history: seq<FraudEvent>, extract: Extractor, policy: GraphPolicy): seq<FraudEvent>
    requires policy.Valid()
  {
    var recent := RecentFirst(history, policy);
    recent[..KeptFrom(recent, extract, policy, 0)]
  }

  function GraphOf(history: seq<FraudEvent>, extract: Extractor, policy: GraphPolicy): EntityGraph
    requires policy.Valid()
  {
    var kept := Kept(history, extract, policy);
    EntityGraph(Cliques(kept, extract), |kept| < |history|, |Nodes(kept, extract)|, EdgeSum(kept, extract))
  }

  // ---- total number of records in an adjacency ----

  ghost function SomeKey(adj: Adjacency): EntityKey
    requires adj != map[]
    ensures SomeKey(adj) in adj
  {
    var k :| k in adj; k
  }

  ghost function EdgeTotal(adj: Adjacency): nat
    decreases |adj|
  {
    if adj == map[] then 0 else |adj[SomeKey(adj)]| + EdgeTotal(adj - {SomeKey(adj)})
  }

  lemma {:induction false} EdgeTotalRemove(adj: Adjacency, k: EntityKey)
    requires k in adj
    ensures EdgeTotal(adj) == |adj[k]| + EdgeTotal(adj - {k})
    decreases |adj|
  {
    var s := SomeKey(adj);
    if s != k {
      EdgeTotalRemove(adj - {s}, k);
      EdgeTotalRemove(adj - {k}, s);
      assert adj - {s} - {k} == adj - {k} - {s};
    }
  }

  function AddEdge(adj: Adjacency, a: EntityKey, rec: EdgeRecord): Adjacency {
    adj[a := Edges(adj, a) + [rec]]
  }

  lemma {:induction false} AddEdgeTotal(adj: Adjacency, a: EntityKey, rec: EdgeRecord)
    ensures EdgeTotal(AddEdge(adj, a, rec)) == EdgeTotal(adj) + 1
  {
    var adj' := AddEdge(adj, a, rec);
    EdgeTotalRemove(adj', a);
    assert adj' - {a} == adj - {a};
    if a in adj {
      EdgeTotalRemove(adj, a);
    } else {
      assert adj - {a} == adj;
    }
  }

  // ---- the loops ----

  ghost predicate NoEmptyList(adj: Adjacency) { forall a :: a in adj ==> |adj[a]| > 0 }

  /** Only entity a's list differs. */
  ghost predicate SameElsewhere(adj: Adjacency, out: Adjacency, a: EntityKey) {
    forall b {:trigger Edges(out, b)} :: b != a ==> Edges(out, b) == Edges(adj, b)
  }

  /** `out` is `adj` with records to the first n positions, except i itself, added to position i. */
  ghost predicate RowGrown(adj: Adjacency, out: Adjacency, es: seq<EntityKey>, e: FraudEvent, i: nat, n: nat)
    requires i < |es| && n <= |es|
  {
    && NoEmptyList(out)
    && SameElsewhere(adj, out, es[i])
    && Edges(out, es[i]) == Edges(adj, es[i]) + Others(es, e, i, n)
    && EdgeTotal(out) == EdgeTotal(adj) + if n <= i then n else n - 1
  }

  lemma {:induction false} RowGrows(adj: Adjacency, out: Adjacency, es: seq<EntityKey>, e: FraudEvent, i: nat, n: nat)
    requires i < |es| && n < |es| && RowGrown(adj, out, es, e, i, n)
    ensures var next := AddEdge(out, es[i], EdgeRecord(es[n], e.timestamp, e.eventId));
      RowGrown(adj, if i == n then out else next, es, e, i, n + 1)
  {
    if i != n {
      var rec := EdgeRecord(es[n], e.timestamp, e.eventId);
      var out' := AddEdge(out, es[i], rec);
      AddEdgeTotal(out, es[i], rec);
      forall b | b != es[i] ensures Edges(out', b) == Edges(adj, b) {
        assert Edges(out, b) == Edges(adj, b);
      }
      Associative(Edges(adj, es[i]), Others(es, e, i, n), [rec]);
    } else {
      assert Others(es, e, i, n) + [] == Others(es, e, i, n);
    }
  }

  /** The inner loop: records from position i to every other position. */
  method AddRow(adj: Adjacency, es: seq<EntityKey>, e: FraudEvent, i: nat) returns (out: Adjacency)
    requires NoEmptyList(adj) && i < |es|
    ensures RowGrown(adj, out, es, e, i, |es|)
  {
    out := adj;
    for j := 0 to |es|
      invariant RowGrown(adj, out, es, e, i, j)
    {
      RowGrows(adj, out, es, e, i, j);
      if i != j {
        out := AddEdge(out, es[i], EdgeRecord(es[j], e.timestamp, e.eventId));
      }
    }
  }

  function Repeated(i: nat, n: int): int { if i == 0 then 0 else Repeated(i - 1, n) + n }

  lemma {:induction false} RepeatedIsProduct(i: nat, n: int)
    ensures Repeated(i, n) == i * n
  {
    if i > 0 { RepeatedIsProduct(i - 1, n); }
  }

  /** n positions give n - 1 records each. */
  lemma {:induction false} CliqueSize(es: seq<EntityKey>)
    ensures Repeated(|es|, |es| - 1) == EdgesOfEvent(es)
  {
    RepeatedIsProduct(|es|, |es| - 1);
  }

  ghost predicate ListsAdded(adj: Adjacency, out: Adjacency, es: seq<EntityKey>, e: FraudEvent, m: nat)
    requires m <= |es|
  {
    forall a {:trigger Edges(out, a)} :: Edges(out, a) == Edges(adj, a) + Star(es, e, a, m)
  }

  /** `out` is `adj` with the first m rows of the event's clique added. */
  ghost predicate RowsAdded(adj: Adjacency, out: Adjacency, es: seq<EntityKey>, e: FraudEvent, m: nat)
    requires m <= |es|
  {
    && NoEmptyList(out)
    && ListsAdded(adj, out, es, e, m)
    && EdgeTotal(out) == EdgeTotal(adj) + Repeated(m, |es| - 1)
  }

  lemma {:induction false} Associative<T>(a: seq<T>, b: seq<T>, c: seq<T>)
    ensures a + (b + c) == a + b + c
  {
  }

  lemma {:induction false} RowAddedAt(
    adj: Adjacency, before: Adjacency, out: Adjacency, es: seq<EntityKey>, e: FraudEvent, i: nat, a: EntityKey)
    requires i < |es| && Edges(before, a) == Edges(adj, a) + Star(es, e, a, i)
    requires Edges(out, a) == Edges(before, a) + if a == es[i] then Others(es, e, i, |es|) else []
    ensures Edges(out, a) == Edges(adj, a) + Star(es, e, a, i + 1)
  {
    Associative(Edges(adj, a), Star(es, e, a, i), if a == es[i] then Others(es, e, i, |es|) else []);
  }

  lemma {:induction false} ListsGrow(
    adj: Adjacency, before: Adjacency, out: Adjacency, es: seq<EntityKey>, e: FraudEvent, i: nat)
    requires i < |es| && ListsAdded(adj, before, es, e, i) && SameElsewhere(before, out, es[i])
    requires Edges(out, es[i]) == Edges(before, es[i]) + Others(es, e, i, |es|)
    ensures ListsAdded(adj, out, es, e, i + 1)
  {
    forall a ensures Edges(out, a) == Edges(adj, a) + Star(es, e, a, i + 1) {
      assert Edges(before, a) == Edges(adj, a) + Star(es, e, a, i);
      assert a != es[i] ==> Edges(out, a) == Edges(before, a);
      RowAddedAt(adj, before, out, es, e, i, a);
    }
  }

  lemma {:induction false} RowAdded(
    adj: Adjacency, before: Adjacency, out: Adjacency, es: seq<EntityKey>, e: FraudEvent, i: nat)
    requires i < |es| && RowsAdded(adj, before, es, e, i) && RowGrown(before, out, es, e, i, |es|)
    ensures RowsAdded(adj, out, es, e, i + 1)
  {
    ListsGrow(adj, before, out, es, e, i);
  }

  /** The outer loop: every position in turn. */
  method AddClique(adj: Adjacency, es: seq<EntityKey>, e: FraudEvent) returns (out: Adjacency)
    requires NoEmptyList(adj)
    ensures RowsAdded(adj, out, es, e, |es|)
  {
    out := adj;
    for i := 0 to |es|
      invariant RowsAdded(adj, out, es, e, i)
    {
      ghost var before := out;
      out := AddRow(out, es, e, i);
      RowAdded(adj, before, out, es, e, i);
    }
  }

  method CountEdges(adj: Adjacency) returns (total: nat)
    ensures total == EdgeTotal(adj)
  {
    total := 0;
    var rest := adj;
    while rest != map[]
      invariant total + EdgeTotal(rest) == EdgeTotal(adj)
      decreases |rest|
    {
      var k :| k in rest;
      EdgeTotalRemove(rest, k);
      total := total + |rest[k]|;
      rest := rest - {k};
    }
  }

  lemma {:induction false} StarNonEmpty(es: seq<EntityKey>, e: FraudEvent, a: EntityKey, m: nat)
    requires m <= |es|
    ensures Star(es, e, a, m) != [] <==> |es| >= 2 && a in es[..m]
  {
    if m > 0 {
      StarNonEmpty(es, e, a, m - 1);
      OthersSize(es, e, m - 1, |es|);
      assert es[..m] == es[..m - 1] + [es[m - 1]];
    }
  }

  lemma {:induction false} OthersSize(es: seq<EntityKey>, e: FraudEvent, i: nat, n: nat)
    requires n <= |es|
    ensures |Others(es, e, i, n)| == if i < n then n - 1 else n
  {
    if n > 0 { OthersSize(es, e, i, n - 1); }
  }

  lemma {:induction false} GraphEdgesNonEmpty(kept: seq<FraudEvent>, extract: Extractor, a: EntityKey)
    ensures GraphEdges(kept, extract, a) != [] <==> a in Nodes(kept, extract)
  {
    if kept != [] {
      var n := |kept| - 1;
      var es := extract(kept[n]);
      GraphEdgesNonEmpty(kept[..n], extract, a);
      StarNonEmpty(es, kept[n], a, |es|);
      assert es[..|es|] == es;
      assert kept == kept[..n] + [kept[n]];
    }
  }

  /** `adj` is the graph of the kept events, list by list. */
  ghost predicate BuiltFrom(adj: Adjacency, kept: seq<FraudEvent>, extract: Extractor) {
    && NoEmptyList(adj)
    && (forall a {:trigger Edges(adj, a)} :: Edges(adj, a) == GraphEdges(kept, extract, a))
    && EdgeTotal(adj) == EdgeSum(kept, extract)
  }

  /** An adjacency built list by list is the map of the cliques. */
  lemma {:induction false} AdjacencyIsCliques(adj: Adjacency, kept: seq<FraudEvent>, extract: Extractor)
    requires BuiltFrom(adj, kept, extract)
    ensures adj == Cliques(kept, extract)
    ensures adj.Keys == Nodes(kept, extract)
  {
    forall a ensures a in adj <==> a in Nodes(kept, extract) {
      assert Edges(adj, a) == GraphEdges(kept, extract, a);
      GraphEdgesNonEmpty(kept, extract, a);
    }
    assert adj.Keys == Nodes(kept, extract);
    forall a | a in adj ensures adj[a] == Cliques(kept, extract)[a] {
      assert Edges(adj, a) == GraphEdges(kept, extract, a);
    }
  }

  lemma {:induction false} EventAdded(
    adj: Adjacency, out: Adjacency, kept: seq<FraudEvent>, e: FraudEvent, extract: Extractor)
    requires BuiltFrom(adj, kept, extract) && RowsAdded(adj, out, extract(e), e, |extract(e)|)
    ensures BuiltFrom(out, kept + [e], extract)
    ensures EdgeSum(kept + [e], extract) == EdgeSum(kept, extract) + EdgesOfEvent(extract(e))
  {
    assert (kept + [e])[..|kept|] == kept;
    CliqueSize(extract(e));
    forall a ensures Edges(out, a) == GraphEdges(kept + [e], extract, a) {
      assert Edges(adj, a) == GraphEdges(kept, extract, a);
    }
  }

  /** One turn of the accumulation loop: does the event fit, and if so the graph with it. */
  method TakeEvent(
    adj: Adjacency, totalEdges: nat, ghost kept: seq<FraudEvent>, e: FraudEvent, policy: GraphPolicy,
    extract: Extractor)
    returns (fits: bool, out: Adjacency, total: nat)
    requires BuiltFrom(adj, kept, extract) && totalEdges == EdgeSum(kept, extract)
    ensures fits <==>
      && |Nodes(kept, extract) + ToSet(extract(e))| <= policy.maxNodes
      && EdgeSum(kept, extract) + EdgesOfEvent(extract(e)) <= policy.maxEdges
    ensures fits ==> BuiltFrom(out, kept + [e], extract) && total == EdgeSum(kept + [e], extract)
    ensures !fits ==> out == adj && total == totalEdges
  {
    AdjacencyIsCliques(adj, kept, extract);
    var es := extract(e);
    var newEdges := EdgesOfEvent(es);
    if |adj.Keys + ToSet(es)| > policy.maxNodes || totalEdges + newEdges > policy.maxEdges {
      return false, adj, totalEdges;
    }
    out := AddClique(adj, es, e);
    EventAdded(adj, out, kept, e, extract);
    fits, total := true, totalEdges + newEdges;
  }

  method AccumulateRecent(recent: seq<FraudEvent>, policy: GraphPolicy, extract: Extractor)
    returns (adj: Adjacency, ghost kept: seq<FraudEvent>, cut: bool)
    ensures BuiltFrom(adj, kept, extract)
    ensures kept == recent[..KeptFrom(recent, extract, policy, 0)]
    ensures cut == (KeptFrom(recent, extract, policy, 0) < |recent|)
  {
    adj, kept, cut := map[], [], false;
    var totalEdges, k := 0, 0;
    while k < |recent|
      invariant 0 <= k <= |recent| && kept == recent[..k]
      invariant BuiltFrom(adj, kept, extract) && totalEdges == EdgeSum(kept, extract)
      invariant KeptFrom(recent, extract, policy, 0) == KeptFrom(recent, extract, policy, k)
    {
      var fits, adj', total := TakeEvent(adj, totalEdges, kept, recent[k], policy, extract);
      if !fits {
        cut := true;
        break;
      }
      adj, totalEdges := adj', total;
      TakeNext(recent, k);
      kept := kept + [recent[k]];
      k := k + 1;
    }
  }

  /** The first event, in (timestamp, id) order, that is not strictly earlier. */
  ghost predicate IsEarliestLeak(e: FraudEvent, history: seq<FraudEvent>, now: int) {
    && e in history && e.timestamp >= now
    && forall f :: f in history && f.timestamp >= now ==>
        e.timestamp < f.timestamp || (e.timestamp == f.timestamp && e.eventId <= f.eventId)
  }

  lemma {:induction false} FirstLeakIsEarliest(history: seq<FraudEvent>, now: int, i: nat)
    requires i < |history| && Sort(history, EventKey)[i].timestamp >= now
    requires forall e :: e in Sort(history, EventKey)[..i] ==> e.timestamp < now
    ensures IsEarliestLeak(Sort(history, EventKey)[i], history, now)
  {
    var ordered := Sort(history, EventKey);
    SortOrdered(history, EventKey);
    SortMembers(history, EventKey);
    assert ordered[i] in ordered;
    forall f | f in history && f.timestamp >= now ensures !KeyLess(EventKey(f), EventKey(ordered[i])) {
      var j :| 0 <= j < |ordered| && ordered[j] == f;
    }
    assert forall f :: !KeyLess(EventKey(f), EventKey(ordered[i])) ==>
        ordered[i].timestamp < f.timestamp
        || (ordered[i].timestamp == f.timestamp && ordered[i].eventId <= f.eventId);
  }

  method BuildEntityGraph(history: seq<FraudEvent>, now: int, policy: GraphPolicy, extract: Extractor)
    returns (r: Result<EntityGraph, GraphLeakage>)
    requires policy.Valid()
    ensures r.Failure? <==> exists e :: e in history && e.timestamp >= now
    ensures r.Failure? ==> exists e :: IsEarliestLeak(e, history, now) && r.error == GraphLeakage(e.eventId)
    ensures r.Success? ==> r.value == GraphOf(history, extract, policy)
    ensures r.Success? ==> |r.value.adjacency| == r.value.nodeCount && EdgeTotal(r.value.adjacency) == r.value.edgeCount
  {
    var ordered := Sort(history, EventKey);
    SortMembers(history, EventKey);
    for i := 0 to |ordered|
      invariant forall e :: e in ordered[..i] ==> e.timestamp < now
    {
      if ordered[i].timestamp >= now {
        FirstLeakIsEarliest(history, now, i);
        return Failure(GraphLeakage(ordered[i].eventId));
      }
    }
    assert ordered[..|ordered|] == ordered;
    var capped :=
      if |ordered| > policy.maxHistoryEvents then ordered[|ordered| - policy.maxHistoryEvents..] else ordered;
    var recent := Reverse(capped);
    assert recent == RecentFirst(history, policy);
    var adj, kept, cut := AccumulateRecent(recent, policy, extract);
    AdjacencyIsCliques(adj, kept, extract);
    var edgeCount := CountEdges(adj);
    assert adj.Keys == Nodes(Kept(history, extract, policy), extract);
    r := Success(EntityGraph(adj, |capped| < |ordered| || cut, |adj|, edgeCount));
  }
}
