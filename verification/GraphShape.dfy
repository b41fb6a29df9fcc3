/** What graph the bounded build produces: cliques of the longest recent suffix that fits. */
module GraphShape {
  import opened Common
  import opened Sorting
  import opened Events
  import opened EntityGraph

  // ---- the edges are exactly the pairs that share a kept event ----

  ghost predicate LinksVia(e: FraudEvent, extract: Extractor, a: EntityKey, rec: EdgeRecord) {
    && a in extract(e) && rec.other in extract(e) && a != rec.other
    && rec.timestamp == e.timestamp && rec.eventId == e.eventId
  }

  lemma {:induction false} OthersMembers(es: seq<EntityKey>, e: FraudEvent, i: nat, n: nat, rec: EdgeRecord)
    requires n <= |es|
    ensures rec in Others(es, e, i, n) <==>
      exists j :: 0 <= j < n && j != i && rec == EdgeRecord(es[j], e.timestamp, e.eventId)
  {
    if n > 0 { OthersMembers(es, e, i, n - 1, rec); }
  }

  lemma {:induction false} StarMembers(es: seq<EntityKey>, e: FraudEvent, a: EntityKey, m: nat, rec: EdgeRecord)
    requires m <= |es| && NoDuplicates(es)
    ensures rec in Star(es, e, a, m) <==>
      a in es[..m] && rec.other in es && rec.other != a && rec.timestamp == e.timestamp && rec.eventId == e.eventId
  {
    if m > 0 {
      StarMembers(es, e, a, m - 1, rec);
      OthersMembers(es, e, m - 1, |es|, rec);
      assert es[..m] == es[..m - 1] + [es[m - 1]];
    }
  }

  lemma {:induction false} GraphEdgesMembers(kept: seq<FraudEvent>, extract: Extractor, a: EntityKey, rec: EdgeRecord)
    requires YieldsCliques(extract)
    ensures rec in GraphEdges(kept, extract, a) <==> exists e :: e in kept && LinksVia(e, extract, a, rec)
  {
    if kept != [] {
      var n := |kept| - 1;
      var last := kept[n];
      var es := extract(last);
      GraphEdgesMembers(kept[..n], extract, a, rec);
      StarMembers(es, last, a, |es|, rec);
      assert es[..|es|] == es;
      assert kept == kept[..n] + [last];
      assert rec in Star(es, last, a, |es|) <==> LinksVia(last, extract, a, rec);
    }
  }

  /** An edge is in the graph exactly when one kept event carries both of its ends. */
  lemma {:induction false} EdgeIffSharedEvent(kept: seq<FraudEvent>, extract: Extractor, a: EntityKey, rec: EdgeRecord)
    requires YieldsCliques(extract)
    ensures rec in Edges(Cliques(kept, extract), a) <==> exists e :: e in kept && LinksVia(e, extract, a, rec)
  {
    GraphEdgesNonEmpty(kept, extract, a);
    GraphEdgesMembers(kept, extract, a, rec);
  }

  lemma {:induction false} AdjacencySymmetric(kept: seq<FraudEvent>, extract: Extractor, a: EntityKey, rec: EdgeRecord)
    requires YieldsCliques(extract)
    requires rec in Edges(Cliques(kept, extract), a)
    ensures rec.(other := a) in Edges(Cliques(kept, extract), rec.other)
  {
    EdgeIffSharedEvent(kept, extract, a, rec);
    var e :| e in kept && LinksVia(e, extract, a, rec);
    assert LinksVia(e, extract, rec.other, rec.(other := a));
    EdgeIffSharedEvent(kept, extract, rec.other, rec.(other := a));
  }

  // ---- the suffix is the longest that fits ----

  ghost predicate Fits(kept: seq<FraudEvent>, extract: Extractor, policy: GraphPolicy) {
    && |kept| <= policy.maxHistoryEvents
    && |Nodes(kept, extract)| <= policy.maxNodes
    && EdgeSum(kept, extract) <= policy.maxEdges
  }

  lemma {:induction false} NodesGrow(recent: seq<FraudEvent>, extract: Extractor, k: nat)
    requires k < |recent| && YieldsCliques(extract)
    ensures Nodes(recent[..k + 1], extract) == Nodes(recent[..k], extract) + ToSet(extract(recent[k]))
  {
    TakeNext(recent, k);
  }

  lemma {:induction false} FitsShrinks(recent: seq<FraudEvent>, extract: Extractor, policy: GraphPolicy, j: nat, k: nat)
    requires j <= k <= |recent| && YieldsCliques(extract)
    requires Fits(recent[..k], extract, policy)
    ensures Fits(recent[..j], extract, policy)
    decreases k
  {
    if j < k {
      NodesGrow(recent, extract, k - 1);
      SubsetSize(Nodes(recent[..k - 1], extract), Nodes(recent[..k], extract));
      TakeTake(recent, k, k - 1);
      FitsShrinks(recent, extract, policy, j, k - 1);
    }
  }

  lemma {:induction false} NextFitsIsFits(recent: seq<FraudEvent>, extract: Extractor, policy: GraphPolicy, k: nat)
    requires k < |recent| <= policy.maxHistoryEvents && YieldsCliques(extract)
    ensures NextFits(recent, extract, policy, k) <==> Fits(recent[..k + 1], extract, policy)
  {
    NodesGrow(recent, extract, k);
    TakeNext(recent, k);
  }

  /** The events newest first; `[..k]` is the k most recent. */
  function NewestFirst(history: seq<FraudEvent>): seq<FraudEvent> { Reverse(Sort(history, EventKey)) }

  lemma {:induction false} NewestFirstDescends(history: seq<FraudEvent>)
    ensures multiset(NewestFirst(history)) == multiset(history)
    ensures forall i, j :: 0 <= i < j < |history| ==>
      !KeyLess(EventKey(NewestFirst(history)[i]), EventKey(NewestFirst(history)[j]))
      && NewestFirst(history)[i].timestamp >= NewestFirst(history)[j].timestamp
  {
    SortOrdered(history, EventKey);
    ReverseMultiset(Sort(history, EventKey));
  }

  lemma {:induction false} ReverseMultiset<T>(s: seq<T>)
    ensures multiset(Reverse(s)) == multiset(s)
  {
    if s != [] {
      var n := |s| - 1;
      ReverseMultiset(s[..n]);
      assert Reverse(s) == [s[n]] + Reverse(s[..n]);
      assert s == s[..n] + [s[n]];
    }
  }

  /** The greedy cut stops at the first event that does not fit, and nowhere before. */
  lemma {:induction false} KeptFromStops(
    recent: seq<FraudEvent>, extract: Extractor, policy: GraphPolicy, k: nat, n: nat)
    requires k <= |recent| && n == KeptFrom(recent, extract, policy, k)
    ensures k <= n <= |recent|
    ensures n > k ==> NextFits(recent, extract, policy, n - 1)
    ensures n < |recent| ==> !NextFits(recent, extract, policy, n)
    decreases |recent| - k
  {
    if k < |recent| && NextFits(recent, extract, policy, k) { KeptFromStops(recent, extract, policy, k + 1, n); }
  }

  lemma {:induction false} RecentIsPrefix(history: seq<FraudEvent>, policy: GraphPolicy)
    requires policy.Valid()
    ensures RecentFirst(history, policy) == NewestFirst(history)[..Min(|history|, policy.maxHistoryEvents)]
  {
  }

  lemma {:induction false} KeptIsPrefix(history: seq<FraudEvent>, extract: Extractor, policy: GraphPolicy)
    requires policy.Valid()
    ensures |Kept(history, extract, policy)| <= |history|
    ensures Kept(history, extract, policy) == NewestFirst(history)[..|Kept(history, extract, policy)|]
  {
    RecentIsPrefix(history, policy);
    TakeTake(NewestFirst(history), |RecentFirst(history, policy)|, |Kept(history, extract, policy)|);
  }

  lemma {:induction false} EmptyFits(recent: seq<FraudEvent>, extract: Extractor, policy: GraphPolicy)
    requires policy.Valid()
    ensures Fits(recent[..0], extract, policy)
  {
    assert recent[..0] == [];
  }

  /** What the cut keeps fits; one event more does not. */
  lemma {:induction false} GreedyCut(recent: seq<FraudEvent>, extract: Extractor, policy: GraphPolicy, n: nat)
    requires policy.Valid() && YieldsCliques(extract) && |recent| <= policy.maxHistoryEvents
    requires n == KeptFrom(recent, extract, policy, 0)
    ensures n <= |recent| && Fits(recent[..n], extract, policy)
    ensures n < |recent| ==> !Fits(recent[..n + 1], extract, policy)
  {
    KeptFromStops(recent, extract, policy, 0, n);
    if n < |recent| { NextFitsIsFits(recent, extract, policy, n); }
    if n > 0 { NextFitsIsFits(recent, extract, policy, n - 1); } else { EmptyFits(recent, extract, policy); }
  }

  lemma {:induction false} RecentWithinCap(history: seq<FraudEvent>, policy: GraphPolicy)
    requires policy.Valid()
    ensures |RecentFirst(history, policy)| <= policy.maxHistoryEvents
  {
  }

  lemma {:induction false} KeptFits(history: seq<FraudEvent>, extract: Extractor, policy: GraphPolicy)
    requires policy.Valid() && YieldsCliques(extract)
    ensures Fits(Kept(history, extract, policy), extract, policy)
  {
    var recent := RecentFirst(history, policy);
    RecentWithinCap(history, policy);
    GreedyCut(recent, extract, policy, KeptFrom(recent, extract, policy, 0));
  }

  /** One more event than was kept is too many, unless the history cap already stopped the build. */
  lemma {:induction false} OneMoreDoesNotFit(history: seq<FraudEvent>, extract: Extractor, policy: GraphPolicy)
    requires policy.Valid() && YieldsCliques(extract)
    requires |Kept(history, extract, policy)| < |RecentFirst(history, policy)|
    ensures |Kept(history, extract, policy)| + 1 <= |history|
    ensures !Fits(NewestFirst(history)[..|Kept(history, extract, policy)| + 1], extract, policy)
  {
    var recent := RecentFirst(history, policy);
    var n := KeptFrom(recent, extract, policy, 0);
    RecentWithinCap(history, policy);
    GreedyCut(recent, extract, policy, n);
    RecentIsPrefix(history, policy);
    TakeTake(NewestFirst(history), |recent|, n + 1);
  }

  lemma {:induction false} LongerDoesNotFit(history: seq<FraudEvent>, extract: Extractor, policy: GraphPolicy, k: nat)
    requires policy.Valid() && YieldsCliques(extract)
    requires |Kept(history, extract, policy)| < k <= |history|
    ensures !Fits(NewestFirst(history)[..k], extract, policy)
  {
    RecentIsPrefix(history, policy);
    if |Kept(history, extract, policy)| < |RecentFirst(history, policy)| {
      OneMoreDoesNotFit(history, extract, policy);
      if Fits(NewestFirst(history)[..k], extract, policy) {
        FitsShrinks(NewestFirst(history), extract, policy, |Kept(history, extract, policy)| + 1, k);
      }
    }
  }

  /** The build keeps the longest most-recent run of events within all three caps,
      and says `truncated` exactly when some event was left out. */
  lemma {:induction false} KeepsLongestRecentSuffix(history: seq<FraudEvent>, extract: Extractor, policy: GraphPolicy)
    requires policy.Valid() && YieldsCliques(extract)
    ensures var newest, kept := NewestFirst(history), Kept(history, extract, policy);
      && |kept| <= |history|
      && kept == newest[..|kept|]
      && Fits(kept, extract, policy)
      && (forall k :: |kept| < k <= |history| ==> !Fits(newest[..k], extract, policy))
    ensures GraphOf(history, extract, policy).truncated <==> Kept(history, extract, policy) != NewestFirst(history)
  {
    KeptIsPrefix(history, extract, policy);
    KeptFits(history, extract, policy);
    forall k | |Kept(history, extract, policy)| < k <= |history|
      ensures !Fits(NewestFirst(history)[..k], extract, policy)
    {
      LongerDoesNotFit(history, extract, policy, k);
    }
  }

  /** Whatever the graph leaves out is older than everything it keeps; at one instant, of a lower id. */
  lemma {:induction false} KeptAreNewest(
    history: seq<FraudEvent>, extract: Extractor, policy: GraphPolicy, e: FraudEvent, f: FraudEvent)
    requires policy.Valid() && YieldsCliques(extract)
    requires e in Kept(history, extract, policy) && f in history && f !in Kept(history, extract, policy)
    ensures e in history
    ensures f.timestamp < e.timestamp || (f.timestamp == e.timestamp && f.eventId <= e.eventId)
  {
    var newest, n := NewestFirst(history), |Kept(history, extract, policy)|;
    KeptIsPrefix(history, extract, policy);
    NewestFirstDescends(history);
    assert e in multiset(newest) && f in multiset(newest);
    var i :| 0 <= i < n && newest[..n][i] == e;
    var j :| 0 <= j < |newest| && newest[j] == f;
    assert forall t :: 0 <= t < n ==> newest[t] == newest[..n][t];
    assert !KeyLess(EventKey(newest[i]), EventKey(newest[j]));
  }

  /** The reported counts respect the caps. */
  lemma {:induction false} CapsRespected(history: seq<FraudEvent>, extract: Extractor, policy: GraphPolicy)
    requires policy.Valid() && YieldsCliques(extract)
    ensures GraphOf(history, extract, policy).nodeCount <= policy.maxNodes
    ensures GraphOf(history, extract, policy).edgeCount <= policy.maxEdges
  {
    KeepsLongestRecentSuffix(history, extract, policy);
  }

  /** The order the history came in does not matter. */
  lemma {:induction false} GraphIgnoresInputOrder(
    h1: seq<FraudEvent>, h2: seq<FraudEvent>, extract: Extractor, policy: GraphPolicy)
    requires policy.Valid()
    requires multiset(h1) == multiset(h2) && EventIdsIdentify(h1)
    ensures GraphOf(h1, extract, policy) == GraphOf(h2, extract, policy)
  {
    SortOrderIndependent(h1, h2, EventKey);
    assert |h1| == |multiset(h1)| == |multiset(h2)| == |h2|;
  }

  /** An untruncated graph has lost no event. */
  lemma {:induction false} UntruncatedKeepsAll(history: seq<FraudEvent>, extract: Extractor, policy: GraphPolicy)
    requires policy.Valid() && YieldsCliques(extract)
    requires !GraphOf(history, extract, policy).truncated
    ensures forall e :: e in Kept(history, extract, policy) <==> e in history
  {
    KeepsLongestRecentSuffix(history, extract, policy);
    NewestFirstDescends(history);
    forall e ensures e in NewestFirst(history) <==> e in history {
      assert e in multiset(NewestFirst(history)) <==> e in multiset(history);
    }
  }
}
