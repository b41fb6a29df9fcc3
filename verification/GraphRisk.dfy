/** The graph risk score: four bounded signals, weighted and clipped. */
module GraphRisk {
  import opened Common
  import opened Sorting
  import opened Events
  import opened EntityGraph
  import opened GraphShape
  import opened GraphSearch

  /** One typed, resolved fraud link: which entity, and when the evidence arose. */
  datatype FraudEvidence = FraudEvidence(entity: EntityKey, resolvedAt: int)

  datatype EvidenceLeakage = EvidenceLeakage(entity: EntityKey)

  ghost predicate IsFirstLeak(evidence: seq<FraudEvidence>, i: nat, now: int)
    requires i < |evidence|
  {
    evidence[i].resolvedAt >= now && forall j :: 0 <= j < i ==> evidence[j].resolvedAt < now
  }

  method ValidateResolvedFraudEvidence(evidence: seq<FraudEvidence>, now: int)
    returns (r: Result<set<EntityKey>, EvidenceLeakage>)
    ensures r.Failure? <==> exists x :: x in evidence && x.resolvedAt >= now
    ensures r.Failure? ==>
      exists i :: 0 <= i < |evidence| && IsFirstLeak(evidence, i, now) && r.error == EvidenceLeakage(evidence[i].entity)
    ensures r.Success? ==> forall k :: k in r.value <==> exists x :: x in evidence && x.entity == k
  {
    for i := 0 to |evidence|
      invariant forall x :: x in evidence[..i] ==> x.resolvedAt < now
    {
      if evidence[i].resolvedAt >= now {
        assert forall j :: 0 <= j < i ==> evidence[..i][j] in evidence[..i];
        assert IsFirstLeak(evidence, i, now);
        return Failure(EvidenceLeakage(evidence[i].entity));
      }
    }
    assert evidence[..|evidence|] == evidence;
    r := Success(set x | x in evidence :: x.entity);
  }

  function CustomersAround(adj: Adjacency, k: EntityKey): set<string> {
    set y | y in Neighbors(adj, k) && y.kind == Customer :: y.id
  }

  function SharedDeviceCount(adj: Adjacency, device: Option<EntityKey>): nat {
    if device.Some? then |CustomersAround(adj, device.value)| else 0
  }

  function FanInCount(adj: Adjacency, recipient: Option<EntityKey>): nat {
    if recipient.Some? then |CustomersAround(adj, recipient.value)| else 0
  }

  function CounterpartiesAround(adj: Adjacency, k: EntityKey): set<EntityKey> {
    set y | y in Neighbors(adj, k) && y.kind in {Recipient, Beneficiary}
  }

  function FanOutCount(adj: Adjacency, customer: EntityKey): nat {
    |CounterpartiesAround(adj, customer)|
  }

  function Capped(count: nat, cap: int): real
    requires 0 < cap
  {
    RMin(count as real / cap as real, 1.0)
  }

  function PathSignal(d: Option<nat>): real {
    if d.Some? then 1.0 / (1 + d.value) as real else 0.0
  }

  /** The entities the signals are read at. */
  datatype Subject = Subject(customer: EntityKey, device: Option<EntityKey>, recipient: Option<EntityKey>)

  /** The four signals, each in [0, 1]. */
  datatype Signals = Signals(sharedDevice: real, fanIn: real, fanOut: real, path: real)
  {
    predicate AtMost(other: Signals) {
      sharedDevice <= other.sharedDevice && fanIn <= other.fanIn && fanOut <= other.fanOut && path <= other.path
    }
  }

  function Weighted(x: Signals, policy: GraphPolicy): real {
    policy.sharedDeviceWeight * x.sharedDevice + policy.fanInWeight * x.fanIn
    + policy.fanOutWeight * x.fanOut + policy.shortestPathWeight * x.path
  }

  function SignalsOf(adj: Adjacency, s: Subject, d: Option<nat>, policy: GraphPolicy): Signals
    requires policy.Valid()
  {
    Signals(Capped(SharedDeviceCount(adj, s.device), policy.sharedDeviceCap),
            Capped(FanInCount(adj, s.recipient), policy.fanInCap),
            Capped(FanOutCount(adj, s.customer), policy.fanOutCap),
            PathSignal(d))
  }

  function RawScore(adj: Adjacency, s: Subject, d: Option<nat>, policy: GraphPolicy): real
    requires policy.Valid()
  {
    Weighted(SignalsOf(adj, s, d, policy), policy)
  }

  function Clip(x: real): real { RMin(if x >= 0.0 then x else 0.0, 1.0) }

  /** x is `count` over its cap, at most 1. */
  predicate IsShare(x: real, count: nat, cap: int)
    requires 0 < cap
  {
    x == if count < cap then count as real / cap as real else 1.0
  }

  /** x is 1/(1 + d), and 0 when there is no walk. */
  predicate IsNearness(x: real, d: Option<nat>) { if d.None? then x == 0.0 else x * (1 + d.value) as real == 1.0 }

  /** The four named weights, each times its own signal, summed and clipped: how many customers the device and the
      recipient have around them, how many counterparties the customer has, and how near fraud is. */
  ghost predicate IsGraphRisk(
    score: real, policy: GraphPolicy, atDevice: nat, atRecipient: nat, around: nat, d: Option<nat>)
    requires policy.Valid()
  {
    exists shared, fanIn, fanOut, near ::
      && IsShare(shared, atDevice, policy.sharedDeviceCap) && IsShare(fanIn, atRecipient, policy.fanInCap)
      && IsShare(fanOut, around, policy.fanOutCap) && IsNearness(near, d)
      && IsWeightedSum(score, policy, shared, fanIn, fanOut, near)
  }

  predicate IsWeightedSum(score: real, policy: GraphPolicy, shared: real, fanIn: real, fanOut: real, near: real) {
    var sum := policy.sharedDeviceWeight * shared + policy.fanInWeight * fanIn
             + policy.fanOutWeight * fanOut + policy.shortestPathWeight * near;
    score == if sum < 0.0 then 0.0 else if sum <= 1.0 then sum else 1.0
  }

  lemma {:induction false} AtLeastOne(n: real, c: real)
    requires 0.0 < c
    ensures n >= c <==> n / c >= 1.0
  {
    assert n == (n / c) * c;
    assert n >= c ==> (n - c) * (1.0 / c) >= 0.0;
  }

  lemma {:induction false} CappedIsShare(count: nat, cap: int)
    requires 0 < cap
    ensures IsShare(Capped(count, cap), count, cap)
  {
    AtLeastOne(count as real, cap as real);
  }

  lemma {:induction false} PathIsNearness(d: Option<nat>)
    ensures IsNearness(PathSignal(d), d)
  {
  }

  lemma {:induction false} WeightedIsSum(x: Signals, policy: GraphPolicy)
    ensures IsWeightedSum(Clip(Weighted(x, policy)), policy, x.sharedDevice, x.fanIn, x.fanOut, x.path)
  {
  }

  /** The score is just that, of the three counts. */
  lemma {:induction false} ScoreOfCounts(adj: Adjacency, s: Subject, d: Option<nat>, policy: GraphPolicy)
    requires policy.Valid()
    ensures IsGraphRisk(
      Clip(RawScore(adj, s, d, policy)), policy,
      SharedDeviceCount(adj, s.device), FanInCount(adj, s.recipient), FanOutCount(adj, s.customer), d)
  {
    var x := SignalsOf(adj, s, d, policy);
    CappedIsShare(SharedDeviceCount(adj, s.device), policy.sharedDeviceCap);
    CappedIsShare(FanInCount(adj, s.recipient), policy.fanInCap);
    CappedIsShare(FanOutCount(adj, s.customer), policy.fanOutCap);
    PathIsNearness(d);
    WeightedIsSum(x, policy);
  }

  /** How many distinct customers an optional entity has around it. */
  ghost predicate CustomersCounted(n: nat, adj: Adjacency, at: Option<EntityKey>) {
    n == if at.Some? then |set y | y in Neighbors(adj, at.value) && y.kind == Customer :: y.id| else 0
  }

  ghost predicate CounterpartiesCounted(n: nat, adj: Adjacency, customer: EntityKey) {
    n == |set y | y in Neighbors(adj, customer) && (y.kind == Recipient || y.kind == Beneficiary)|
  }

  /** A score weighs what is around the three entities in the graph, and the true distance to fraud. */
  ghost predicate IsRiskIn(score: real, adj: Adjacency, s: Subject, linked: set<EntityKey>, policy: GraphPolicy)
    requires policy.Valid()
  {
    exists d, atDevice, atRecipient, around :: IsDistance(adj, s.customer, linked, d)
      && CustomersCounted(atDevice, adj, s.device) && CustomersCounted(atRecipient, adj, s.recipient)
      && CounterpartiesCounted(around, adj, s.customer) && IsGraphRisk(score, policy, atDevice, atRecipient, around, d)
  }

  method ComputeGraphRiskScore(
    adj: Adjacency, s: Subject, linked: set<EntityKey>, policy: GraphPolicy) returns (score: real)
    requires policy.Valid()
    ensures IsRiskIn(score, adj, s, linked, policy)
    ensures exists d :: IsDistance(adj, s.customer, linked, d) && score == Clip(RawScore(adj, s, d, policy))
    ensures 0.0 <= score <= 1.0
  {
    var d := ShortestPathToFraudLinked(adj, s.customer, linked);
    score := Clip(RawScore(adj, s, d, policy));
    ScoreOfCounts(adj, s, d, policy);
    CountsCounted(adj, s);
    assert IsGraphRisk(score, policy, SharedDeviceCount(adj, s.device), FanInCount(adj, s.recipient),
                       FanOutCount(adj, s.customer), d);
  }

  lemma {:induction false} CountsCounted(adj: Adjacency, s: Subject)
    ensures CustomersCounted(SharedDeviceCount(adj, s.device), adj, s.device)
    ensures CustomersCounted(FanInCount(adj, s.recipient), adj, s.recipient)
    ensures CounterpartiesCounted(FanOutCount(adj, s.customer), adj, s.customer)
  {
    assert CounterpartiesAround(adj, s.customer)
        == set y | y in Neighbors(adj, s.customer) && (y.kind == Recipient || y.kind == Beneficiary);
  }

  lemma {:induction false} Scale(w: real, x: real, y: real)
    requires 0.0 <= w && x <= y
    ensures w * x <= w * y
  {
    assert w * (y - x) >= 0.0;
  }

  lemma {:induction false} SumGrows(a: real, b: real, c: real, d: real, a': real, b': real, c': real, d': real)
    requires a <= a' && b <= b' && c <= c' && d <= d'
    ensures a + b + c + d <= a' + b' + c' + d'
  {
  }

  lemma {:induction false} WeightedGrows(x: Signals, y: Signals, policy: GraphPolicy)
    requires policy.Valid() && x.AtMost(y)
    ensures Weighted(x, policy) <= Weighted(y, policy)
  {
    var GraphPolicy(_, u, _, v, _, w, z, _, _, _) := policy;
    Scale(u, x.sharedDevice, y.sharedDevice);
    Scale(v, x.fanIn, y.fanIn);
    Scale(w, x.fanOut, y.fanOut);
    Scale(z, x.path, y.path);
    SumGrows(u * x.sharedDevice, v * x.fanIn, w * x.fanOut, z * x.path,
             u * y.sharedDevice, v * y.fanIn, w * y.fanOut, z * y.path);
  }

  const NO_SIGNAL := Signals(0.0, 0.0, 0.0, 0.0)
  const FULL_SIGNAL := Signals(1.0, 1.0, 1.0, 1.0)

  lemma {:induction false} SignalBounds(adj: Adjacency, s: Subject, d: Option<nat>, policy: GraphPolicy)
    requires policy.Valid()
    ensures NO_SIGNAL.AtMost(SignalsOf(adj, s, d, policy))
    ensures SignalsOf(adj, s, d, policy).AtMost(FULL_SIGNAL)
  {
  }

  /** Before clipping the score already lies between 0 and the sum of the weights. */
  lemma {:induction false} RawScoreBounds(adj: Adjacency, s: Subject, d: Option<nat>, policy: GraphPolicy)
    requires policy.Valid()
    ensures 0.0 <= RawScore(adj, s, d, policy) <= policy.WeightSum() <= 1.000001
  {
    SignalBounds(adj, s, d, policy);
    WeightedGrows(NO_SIGNAL, SignalsOf(adj, s, d, policy), policy);
    WeightedGrows(SignalsOf(adj, s, d, policy), FULL_SIGNAL, policy);
  }

  /** Two different entities share a kept event. */
  ghost predicate ShareEvent(kept: seq<FraudEvent>, extract: Extractor, a: EntityKey, b: EntityKey) {
    a != b && exists e :: e in kept && a in extract(e) && b in extract(e)
  }

  /** Neighbours are exactly the entities that share a kept event. */
  lemma {:induction false} NeighborIffSharedEvent(kept: seq<FraudEvent>, extract: Extractor, a: EntityKey, b: EntityKey)
    requires YieldsCliques(extract)
    ensures b in Neighbors(Cliques(kept, extract), a) <==> ShareEvent(kept, extract, a, b)
  {
    if b in Neighbors(Cliques(kept, extract), a) {
      var rec :| rec in Edges(Cliques(kept, extract), a) && rec.other == b;
      EdgeIffSharedEvent(kept, extract, a, rec);
    }
    if ShareEvent(kept, extract, a, b) {
      var e :| e in kept && a in extract(e) && b in extract(e);
      var rec := EdgeRecord(b, e.timestamp, e.eventId);
      assert LinksVia(e, extract, a, rec);
      EdgeIffSharedEvent(kept, extract, a, rec);
    }
  }

  /** The customers counted at a device or recipient are those that share a kept event with it;
      the counterparties counted at a customer are those that share one with the customer. */
  lemma {:induction false} CountsReadSharedEvents(
    kept: seq<FraudEvent>, extract: Extractor, at: EntityKey, id: string, y: EntityKey)
    requires YieldsCliques(extract)
    ensures var adj := Cliques(kept, extract);
      && (id in CustomersAround(adj, at) <==> ShareEvent(kept, extract, at, EntityKey(Customer, id)))
      && (y in CounterpartiesAround(adj, at) <==>
          (y.kind == Recipient || y.kind == Beneficiary) && ShareEvent(kept, extract, at, y))
  {
    NeighborIffSharedEvent(kept, extract, at, EntityKey(Customer, id));
    NeighborIffSharedEvent(kept, extract, at, y);
    if id in CustomersAround(Cliques(kept, extract), at) {
      var z :| z in Neighbors(Cliques(kept, extract), at) && z.kind == Customer && z.id == id;
      assert z == EntityKey(Customer, id);
    }
  }

  /** The ids of the customers that share a kept event with an optional entity. */
  ghost predicate CustomersSharing(
    ids: set<string>, kept: seq<FraudEvent>, extract: Extractor, at: Option<EntityKey>) {
    forall id :: id in ids <==> at.Some? && ShareEvent(kept, extract, at.value, EntityKey(Customer, id))
  }

  ghost predicate CounterpartiesSharing(
    keys: set<EntityKey>, kept: seq<FraudEvent>, extract: Extractor, customer: EntityKey) {
    forall y :: y in keys <==> (y.kind == Recipient || y.kind == Beneficiary) && ShareEvent(kept, extract, customer, y)
  }

  lemma {:induction false} CustomersAgree(
    ids: set<string>, n: nat, kept: seq<FraudEvent>, extract: Extractor, at: Option<EntityKey>)
    requires YieldsCliques(extract) && CustomersSharing(ids, kept, extract, at)
    requires CustomersCounted(n, Cliques(kept, extract), at)
    ensures n == |ids|
  {
    var adj := Cliques(kept, extract);
    if at.Some? {
      forall id ensures id in ids <==> id in CustomersAround(adj, at.value) {
        CountsReadSharedEvents(kept, extract, at.value, id, at.value);
      }
      assert ids == CustomersAround(adj, at.value)
          == set y | y in Neighbors(adj, at.value) && y.kind == Customer :: y.id;
    } else {
      assert ids == {};
    }
  }

  lemma {:induction false} CounterpartiesAgree(
    keys: set<EntityKey>, n: nat, kept: seq<FraudEvent>, extract: Extractor, customer: EntityKey)
    requires YieldsCliques(extract) && CounterpartiesSharing(keys, kept, extract, customer)
    requires CounterpartiesCounted(n, Cliques(kept, extract), customer)
    ensures n == |keys|
  {
    var adj := Cliques(kept, extract);
    forall y ensures y in keys <==> y in Neighbors(adj, customer) && (y.kind == Recipient || y.kind == Beneficiary) {
      NeighborIffSharedEvent(kept, extract, customer, y);
    }
    assert keys == set y | y in Neighbors(adj, customer) && (y.kind == Recipient || y.kind == Beneficiary);
  }

  /** Over the kept events the score is the clipped sum of the four named weights, each times its own signal: the
      customers sharing a kept event with the device and with the recipient, the counterparties sharing one with the
      customer, each over its own cap and at most 1, and 1/(1 + d). */
  lemma {:induction false} RiskOfSharedEvents(
    kept: seq<FraudEvent>, extract: Extractor, s: Subject, linked: set<EntityKey>, policy: GraphPolicy, score: real,
    d: Option<nat>, atDevice: set<string>, atRecipient: set<string>, around: set<EntityKey>,
    shared: real, fanIn: real, fanOut: real, near: real, sum: real)
    requires policy.Valid() && YieldsCliques(extract)
    requires IsRiskIn(score, Cliques(kept, extract), s, linked, policy)
    requires IsDistance(Cliques(kept, extract), s.customer, linked, d)
    requires CustomersSharing(atDevice, kept, extract, s.device)
    requires CustomersSharing(atRecipient, kept, extract, s.recipient)
    requires CounterpartiesSharing(around, kept, extract, s.customer)
    requires shared
          == if |atDevice| < policy.sharedDeviceCap then |atDevice| as real / policy.sharedDeviceCap as real else 1.0
    requires fanIn == if |atRecipient| < policy.fanInCap then |atRecipient| as real / policy.fanInCap as real else 1.0
    requires fanOut == if |around| < policy.fanOutCap then |around| as real / policy.fanOutCap as real else 1.0
    requires near == if d.Some? then 1.0 / (1 + d.value) as real else 0.0
    requires sum == policy.sharedDeviceWeight * shared + policy.fanInWeight * fanIn
                  + policy.fanOutWeight * fanOut + policy.shortestPathWeight * near
    ensures score == if sum < 0.0 then 0.0 else if sum <= 1.0 then sum else 1.0
  {
    var adj := Cliques(kept, extract);
    var e, m, n, k :| IsDistance(adj, s.customer, linked, e)
      && CustomersCounted(m, adj, s.device) && CustomersCounted(n, adj, s.recipient)
      && CounterpartiesCounted(k, adj, s.customer) && IsGraphRisk(score, policy, m, n, k, e);
    DistanceUnique(adj, s.customer, linked, d, e);
    CustomersAgree(atDevice, m, kept, extract, s.device);
    CustomersAgree(atRecipient, n, kept, extract, s.recipient);
    CounterpartiesAgree(around, k, kept, extract, s.customer);
    RiskWrittenOut(score, policy, m, n, k, e, shared, fanIn, fanOut, near, sum);
  }

  /** Written out: the fan-in weight counts customers at the recipient, the fan-out weight counterparties of the
      customer, and so on. */
  lemma {:induction false} RiskWrittenOut(
    score: real, policy: GraphPolicy, atDevice: nat, atRecipient: nat, around: nat, d: Option<nat>,
    shared: real, fanIn: real, fanOut: real, near: real, sum: real)
    requires policy.Valid() && IsGraphRisk(score, policy, atDevice, atRecipient, around, d)
    requires shared
          == if atDevice < policy.sharedDeviceCap then atDevice as real / policy.sharedDeviceCap as real else 1.0
    requires fanIn == if atRecipient < policy.fanInCap then atRecipient as real / policy.fanInCap as real else 1.0
    requires fanOut == if around < policy.fanOutCap then around as real / policy.fanOutCap as real else 1.0
    requires near == if d.Some? then 1.0 / (1 + d.value) as real else 0.0
    requires sum == policy.sharedDeviceWeight * shared + policy.fanInWeight * fanIn
                  + policy.fanOutWeight * fanOut + policy.shortestPathWeight * near
    ensures score == if sum < 0.0 then 0.0 else if sum <= 1.0 then sum else 1.0
  {
    var a, b, c, e :|
      && IsShare(a, atDevice, policy.sharedDeviceCap) && IsShare(b, atRecipient, policy.fanInCap)
      && IsShare(c, around, policy.fanOutCap) && IsNearness(e, d) && IsWeightedSum(score, policy, a, b, c, e);
    if d.Some? { Reciprocal(e, (1 + d.value) as real); }
    assert a == shared && b == fanIn && c == fanOut && e == near;
    assert IsWeightedSum(score, policy, shared, fanIn, fanOut, near);
    SumWrittenOut(score, policy, shared, fanIn, fanOut, near, sum);
  }

  lemma {:induction false} SumWrittenOut(
    score: real, policy: GraphPolicy, shared: real, fanIn: real, fanOut: real, near: real, sum: real)
    requires IsWeightedSum(score, policy, shared, fanIn, fanOut, near)
    requires sum == policy.sharedDeviceWeight * shared + policy.fanInWeight * fanIn
                  + policy.fanOutWeight * fanOut + policy.shortestPathWeight * near
    ensures score == if sum < 0.0 then 0.0 else if sum <= 1.0 then sum else 1.0
  {
  }

  lemma {:induction false} Reciprocal(x: real, n: real)
    requires x * n == 1.0 && n > 0.0
    ensures x == 1.0 / n
  {
  }

  lemma {:induction false} CappedGrows(m: nat, n: nat, cap: int)
    requires m <= n && 0 < cap
    ensures Capped(m, cap) <= Capped(n, cap)
  {
    Scale(1.0 / cap as real, m as real, n as real);
  }

  lemma {:induction false} ReciprocalShrinks(m: real, n: real)
    requires 0.0 < m <= n
    ensures 1.0 / n <= 1.0 / m
  {
    assert 1.0 / m - 1.0 / n == (n - m) * (1.0 / (m * n));
  }

  /** A larger graph has every walk of a smaller one. */
  lemma {:induction false} LinkedAtGrows(
    adj: Adjacency, adj': Adjacency, start: EntityKey, linked: set<EntityKey>, linked': set<EntityKey>, n: nat)
    requires forall a :: Neighbors(adj, a) <= Neighbors(adj', a)
    requires linked <= linked'
    requires LinkedAt(adj, start, linked, n)
    ensures LinkedAt(adj', start, linked', n)
  {
    var p :| IsWalk(adj, p) && p[0] == start && |p| == n + 1 && p[n] in linked;
    assert IsWalk(adj', p);
  }

  lemma {:induction false} PathSignalGrows(
    adj: Adjacency, adj': Adjacency, start: EntityKey, linked: set<EntityKey>, linked': set<EntityKey>,
    d: Option<nat>, d': Option<nat>)
    requires forall a :: Neighbors(adj, a) <= Neighbors(adj', a)
    requires linked <= linked'
    requires IsDistance(adj, start, linked, d) && IsDistance(adj', start, linked', d')
    ensures PathSignal(d) <= PathSignal(d')
  {
    if d.Some? {
      LinkedAtGrows(adj, adj', start, linked, linked', d.value);
      assert d'.Some? && d'.value <= d.value;
      ReciprocalShrinks((1 + d'.value) as real, (1 + d.value) as real);
    }
  }

  /** More neighbours and more fraud links never lower the score. */
  lemma {:induction false} ScoreGrows(
    adj: Adjacency, adj': Adjacency, s: Subject, linked: set<EntityKey>, linked': set<EntityKey>,
    d: Option<nat>, d': Option<nat>, policy: GraphPolicy)
    requires policy.Valid()
    requires forall a :: Neighbors(adj, a) <= Neighbors(adj', a)
    requires linked <= linked'
    requires IsDistance(adj, s.customer, linked, d) && IsDistance(adj', s.customer, linked', d')
    ensures RawScore(adj, s, d, policy) <= RawScore(adj', s, d', policy)
    ensures Clip(RawScore(adj, s, d, policy)) <= Clip(RawScore(adj', s, d', policy))
  {
    CountsGrow(adj, adj', s);
    CappedGrows(SharedDeviceCount(adj, s.device), SharedDeviceCount(adj', s.device), policy.sharedDeviceCap);
    CappedGrows(FanInCount(adj, s.recipient), FanInCount(adj', s.recipient), policy.fanInCap);
    CappedGrows(FanOutCount(adj, s.customer), FanOutCount(adj', s.customer), policy.fanOutCap);
    PathSignalGrows(adj, adj', s.customer, linked, linked', d, d');
    WeightedGrows(SignalsOf(adj, s, d, policy), SignalsOf(adj', s, d', policy), policy);
  }

  lemma {:induction false} CountsGrow(adj: Adjacency, adj': Adjacency, s: Subject)
    requires forall a :: Neighbors(adj, a) <= Neighbors(adj', a)
    ensures SharedDeviceCount(adj, s.device) <= SharedDeviceCount(adj', s.device)
    ensures FanInCount(adj, s.recipient) <= FanInCount(adj', s.recipient)
    ensures FanOutCount(adj, s.customer) <= FanOutCount(adj', s.customer)
  {
    if s.device.Some? {
      SubsetSize(CustomersAround(adj, s.device.value), CustomersAround(adj', s.device.value));
    }
    if s.recipient.Some? {
      SubsetSize(CustomersAround(adj, s.recipient.value), CustomersAround(adj', s.recipient.value));
    }
    SubsetSize(CounterpartiesAround(adj, s.customer), CounterpartiesAround(adj', s.customer));
  }

  /** Growing the history, with both graphs untruncated, or the linked set, never lowers the score. */
  lemma {:induction false} ScoreGrowsWithHistory(
    h: seq<FraudEvent>, h': seq<FraudEvent>, extract: Extractor, policy: GraphPolicy,
    s: Subject, linked: set<EntityKey>, linked': set<EntityKey>, d: Option<nat>, d': Option<nat>)
    requires policy.Valid() && YieldsCliques(extract)
    requires forall e :: e in h ==> e in h'
    requires linked <= linked'
    requires !GraphOf(h, extract, policy).truncated && !GraphOf(h', extract, policy).truncated
    requires IsDistance(GraphOf(h, extract, policy).adjacency, s.customer, linked, d)
    requires IsDistance(GraphOf(h', extract, policy).adjacency, s.customer, linked', d')
    ensures Clip(RawScore(GraphOf(h, extract, policy).adjacency, s, d, policy))
         <= Clip(RawScore(GraphOf(h', extract, policy).adjacency, s, d', policy))
  {
    var adj, adj' := GraphOf(h, extract, policy).adjacency, GraphOf(h', extract, policy).adjacency;
    forall a ensures Neighbors(adj, a) <= Neighbors(adj', a) {
      NeighborsGrow(h, h', extract, policy, a);
    }
    ScoreGrows(adj, adj', s, linked, linked', d, d', policy);
  }

  lemma {:induction false} NeighborsGrow(
    h: seq<FraudEvent>, h': seq<FraudEvent>, extract: Extractor, policy: GraphPolicy, a: EntityKey)
    requires policy.Valid() && YieldsCliques(extract)
    requires forall e :: e in h ==> e in h'
    requires !GraphOf(h, extract, policy).truncated && !GraphOf(h', extract, policy).truncated
    ensures Neighbors(GraphOf(h, extract, policy).adjacency, a) <= Neighbors(GraphOf(h', extract, policy).adjacency, a)
  {
    var kept, kept' := Kept(h, extract, policy), Kept(h', extract, policy);
    UntruncatedKeepsAll(h, extract, policy);
    UntruncatedKeepsAll(h', extract, policy);
    forall rec | rec in Edges(Cliques(kept, extract), a)
      ensures rec in Edges(Cliques(kept', extract), a)
    {
      EdgeIffSharedEvent(kept, extract, a, rec);
      EdgeIffSharedEvent(kept', extract, a, rec);
    }
  }
}
