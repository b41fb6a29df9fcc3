/** Score-distribution drift: bucketed histograms, and the distance between two of them. */
module Drift {
  import opened Common

  /** The scores of one time window; building a window rejects any score outside [0, 1]. */
  predicate WindowOk(scores: seq<real>) {
    forall i :: 0 <= i < |scores| ==> 0.0 <= scores[i] <= 1.0
  }

  datatype DriftError = TooFewBuckets

  datatype Drift =
    | Computed(edges: seq<real>, baseline: seq<real>, current: seq<real>, distance: real)
    | NonComputable(edges: seq<real>, baseline: seq<real>, current: seq<real>)

  function Sum(s: seq<real>): real {
    if s == [] then 0.0 else Sum(s[..|s| - 1]) + s[|s| - 1]
  }

  function Total(counts: seq<nat>): nat {
    if counts == [] then 0 else Total(counts[..|counts| - 1]) + counts[|counts| - 1]
  }

  // ---- bucketing ----

  /** Half-open buckets, except that the last one also holds its upper edge. */
  predicate InBucket(score: real, edges: seq<real>, i: nat)
    requires i + 1 < |edges|
  {
    edges[i] <= score < edges[i + 1] || (i == |edges| - 2 && score == edges[|edges| - 1])
  }

  /** The bucket loop stops at the first bucket that takes the score. */
  ghost predicate LandsIn(score: real, edges: seq<real>, i: nat)
    requires i + 1 < |edges|
  {
    InBucket(score, edges, i) && forall j :: 0 <= j < i ==> !InBucket(score, edges, j)
  }

  ghost function Landed(scores: seq<real>, edges: seq<real>, i: nat): nat
    requires i + 1 < |edges|
  {
    if scores == [] then 0
    else Landed(scores[..|scores| - 1], edges, i) + if LandsIn(scores[|scores| - 1], edges, i) then 1 else 0
  }

  ghost function Histogram(scores: seq<real>, edges: seq<real>): (h: seq<nat>)
    requires |edges| >= 1
    ensures |h| == |edges| - 1
  {
    seq(|edges| - 1, i requires 0 <= i < |edges| - 1 => Landed(scores, edges, i))
  }

  ghost predicate CountsUpTo(counts: seq<nat>, scores: seq<real>, edges: seq<real>) {
    |edges| == |counts| + 1 && forall i :: 0 <= i < |counts| ==> counts[i] == Landed(scores, edges, i)
  }

  /** Put one score in the first bucket that takes it. */
  method AddScore(counts: array<nat>, score: real, edges: seq<real>)
    requires |edges| == counts.Length + 1
    modifies counts
    ensures forall i :: 0 <= i < counts.Length ==>
      counts[i] == old(counts[i]) + if LandsIn(score, edges, i) then 1 else 0
  {
    for i := 0 to counts.Length
      invariant forall k :: 0 <= k < counts.Length ==> counts[k] == old(counts[k])
      invariant forall j :: 0 <= j < i ==> !InBucket(score, edges, j)
    {
      var upperInclusive := i == |edges| - 2;
      if edges[i] <= score < edges[i + 1] || (upperInclusive && score == edges[|edges| - 1]) {
        assert LandsIn(score, edges, i);
        counts[i] := counts[i] + 1;
        break;
      }
    }
  }

  method BucketProportions(scores: seq<real>, edges: seq<real>) returns (proportions: seq<real>)
    requires |edges| >= 1
    ensures proportions == Proportions(Histogram(scores, edges), |scores|)
  {
    var counts := new nat[|edges| - 1](_ => 0);
    for n := 0 to |scores|
      invariant CountsUpTo(counts[..], scores[..n], edges)
    {
      TakeNext(scores, n);
      AddScore(counts, scores[n], edges);
    }
    assert scores[..|scores|] == scores;
    proportions := Proportions(counts[..], |scores|);
    assert counts[..] == Histogram(scores, edges);
  }

  function Proportions(counts: seq<nat>, total: nat): (p: seq<real>)
    ensures |p| == |counts|
  {
    seq(|counts|, i requires 0 <= i < |counts| => if total > 0 then counts[i] as real / total as real else 0.0)
  }

  // ---- every score lands in exactly one bucket ----

  ghost predicate Ascending(edges: seq<real>) {
    forall i, j :: 0 <= i < j < |edges| ==> edges[i] < edges[j]
  }

  lemma {:induction false} BucketUpTo(score: real, edges: seq<real>, n: nat) returns (i: nat)
    requires n + 1 < |edges| && edges[0] <= score < edges[n + 1]
    ensures i <= n && InBucket(score, edges, i)
    decreases n
  {
    if edges[n] <= score { i := n; } else { i := BucketUpTo(score, edges, n - 1); }
  }

  lemma {:induction false} LandsSomewhere(score: real, edges: seq<real>) returns (i: nat)
    requires |edges| >= 2 && Ascending(edges) && edges[0] <= score <= edges[|edges| - 1]
    ensures i + 1 < |edges| && LandsIn(score, edges, i)
    ensures forall j :: 0 <= j < |edges| - 1 ==> (InBucket(score, edges, j) <==> j == i)
  {
    if score == edges[|edges| - 1] {
      i := |edges| - 2;
    } else {
      i := BucketUpTo(score, edges, |edges| - 2);
    }
  }

  lemma {:induction false} TotalIncrement(h: seq<nat>, g: seq<nat>, i: nat)
    requires |h| == |g| && i < |h|
    requires forall j :: 0 <= j < |h| ==> g[j] == h[j] + if j == i then 1 else 0
    ensures Total(g) == Total(h) + 1
  {
    var n := |h| - 1;
    if i < n {
      TotalIncrement(h[..n], g[..n], i);
    } else {
      assert h[..n] == g[..n];
    }
  }

  lemma {:induction false} TotalZero(h: seq<nat>)
    requires forall j :: 0 <= j < |h| ==> h[j] == 0
    ensures Total(h) == 0
  {
    if h != [] { TotalZero(h[..|h| - 1]); }
  }

  /** Conservation: the bucket counts add up to the number of scores. */
  lemma {:induction false} EveryScoreCounted(scores: seq<real>, edges: seq<real>)
    requires |edges| >= 2 && Ascending(edges)
    requires forall i :: 0 <= i < |scores| ==> edges[0] <= scores[i] <= edges[|edges| - 1]
    ensures Total(Histogram(scores, edges)) == |scores|
  {
    if scores == [] {
      TotalZero(Histogram(scores, edges));
    } else {
      var n := |scores| - 1;
      EveryScoreCounted(scores[..n], edges);
      var i := LandsSomewhere(scores[n], edges);
      TotalIncrement(Histogram(scores[..n], edges), Histogram(scores, edges), i);
    }
  }

  lemma {:induction false} AddQuotients(a: real, b: real, d: real)
    requires d > 0.0
    ensures a / d + b / d == (a + b) / d
  {
  }

  lemma {:induction false} SumOfProportions(counts: seq<nat>, total: nat)
    requires total > 0
    ensures Sum(Proportions(counts, total)) == Total(counts) as real / total as real
  {
    if counts != [] {
      var n := |counts| - 1;
      SumOfProportions(counts[..n], total);
      assert Proportions(counts, total)[..n] == Proportions(counts[..n], total);
      AddQuotients(Total(counts[..n]) as real, counts[n] as real, total as real);
    }
  }

  // ---- the edges of n equal buckets ----

  function Edges(n: nat): (e: seq<real>)
    requires n >= 1
    ensures |e| == n + 1
  {
    seq(n + 1, i requires 0 <= i <= n => i as real / n as real)
  }

  lemma {:induction false} SmallerQuotient(a: real, b: real, d: real)
    requires a < b && d > 0.0
    ensures a / d < b / d
  {
  }

  lemma {:induction false} EdgesSpanUnit(n: nat)
    requires n >= 1
    ensures Ascending(Edges(n)) && Edges(n)[0] == 0.0 && Edges(n)[n] == 1.0
  {
    forall i, j | 0 <= i < j < n + 1 ensures Edges(n)[i] < Edges(n)[j] {
      SmallerQuotient(i as real, j as real, n as real);
    }
    WholeOverItself(n as real);
  }

  ghost predicate IsDistribution(p: seq<real>) {
    Sum(p) == 1.0 && forall i :: 0 <= i < |p| ==> p[i] >= 0.0
  }

  lemma {:induction false} NonNegativeQuotient(a: real, d: real)
    requires a >= 0.0 && d > 0.0
    ensures a / d >= 0.0
  {
  }

  lemma {:induction false} ProportionsNonNegative(counts: seq<nat>, total: nat)
    requires total > 0
    ensures forall p :: p in Proportions(counts, total) ==> p >= 0.0
  {
    forall i | 0 <= i < |counts| ensures Proportions(counts, total)[i] >= 0.0 {
      NonNegativeQuotient(counts[i] as real, total as real);
    }
  }

  lemma {:induction false} FullCountsSumToOne(counts: seq<nat>, total: nat)
    requires total > 0 && Total(counts) == total
    ensures Sum(Proportions(counts, total)) == 1.0
  {
    SumOfProportions(counts, total);
    WholeOverItself(total as real);
  }

  /** The bucket proportions of a non-empty window form a distribution. */
  lemma {:induction false} ProportionsAreDistribution(scores: seq<real>, n: nat)
    requires n >= 1 && scores != [] && WindowOk(scores)
    ensures IsDistribution(Proportions(Histogram(scores, Edges(n)), |scores|))
  {
    EdgesSpanUnit(n);
    EveryScoreCounted(scores, Edges(n));
    FullCountsSumToOne(Histogram(scores, Edges(n)), |scores|);
    ProportionsNonNegative(Histogram(scores, Edges(n)), |scores|);
  }

  /** A score falls in bucket i of n equal ones: from i/n up to but not including (i + 1)/n; the last one takes 1
      too. */
  predicate FallsIn(score: real, n: nat, i: nat) {
    i as real <= score * n as real < (i + 1) as real || (i == n - 1 && score == 1.0)
  }

  function InShare(scores: seq<real>, n: nat, i: nat): set<nat> {
    set k | 0 <= k < |scores| && FallsIn(scores[k], n, i)
  }

  lemma {:induction false} InShareNext(scores: seq<real>, n: nat, i: nat)
    requires scores != []
    ensures var m := |scores| - 1;
      |InShare(scores, n, i)| == |InShare(scores[..m], n, i)| + if FallsIn(scores[m], n, i) then 1 else 0
  {
    var m := |scores| - 1;
    assert InShare(scores, n, i) == InShare(scores[..m], n, i) + if FallsIn(scores[m], n, i) then {m} else {};
  }

  lemma {:induction false} Scale(s: real, i: nat, n: nat)
    requires n >= 1
    ensures i as real / n as real <= s <==> i as real <= s * n as real
    ensures s < i as real / n as real <==> s * n as real < i as real
  {
    var d, a := n as real, i as real;
    assert a == (a / d) * d;
    if a / d <= s { assert (s - a / d) * d >= 0.0; } else { assert (a / d - s) * d > 0.0; }
  }

  lemma {:induction false} LandsInShare(score: real, n: nat, i: nat)
    requires n >= 1 && i < n && 0.0 <= score <= 1.0
    ensures LandsIn(score, Edges(n), i) <==> FallsIn(score, n, i)
  {
    EdgesSpanUnit(n);
    var j := LandsSomewhere(score, Edges(n));
    Scale(score, i, n);
    Scale(score, i + 1, n);
  }

  lemma {:induction false} LandedIsShare(scores: seq<real>, n: nat, i: nat)
    requires n >= 1 && i < n && forall k :: 0 <= k < |scores| ==> 0.0 <= scores[k] <= 1.0
    ensures Landed(scores, Edges(n), i) == |InShare(scores, n, i)|
  {
    if scores != [] {
      var m := |scores| - 1;
      LandedIsShare(scores[..m], n, i);
      LandsInShare(scores[m], n, i);
      InShareNext(scores, n, i);
    }
  }

  /** The i-th proportion of a non-empty window is the share of its scores that fall in bucket i. */
  lemma {:induction false} ProportionMeans(scores: seq<real>, n: nat, i: nat)
    requires n >= 1 && i < n && scores != [] && forall k :: 0 <= k < |scores| ==> 0.0 <= scores[k] <= 1.0
    ensures Proportions(Histogram(scores, Edges(n)), |scores|)[i]
         == |InShare(scores, n, i)| as real / |scores| as real
  {
    LandedIsShare(scores, n, i);
  }

  // ---- total variation distance ----

  function Gaps(p: seq<real>, q: seq<real>): (g: seq<real>)
    requires |p| == |q|
    ensures |g| == |p|
  {
    seq(|p|, i requires 0 <= i < |p| => RAbs(p[i] - q[i]))
  }

  function Distance(p: seq<real>, q: seq<real>): real
    requires |p| == |q|
  {
    Sum(Gaps(p, q)) / 2.0
  }

  method ComputeScoreDistributionDrift(baseline: seq<real>, current: seq<real>, numBuckets: int)
    returns (r: Result<Drift, DriftError>)
    requires forall i :: 0 <= i < |baseline| ==> 0.0 <= baseline[i] <= 1.0
    requires forall i :: 0 <= i < |current| ==> 0.0 <= current[i] <= 1.0
    ensures r.Success? <==> numBuckets >= 1
    ensures r.Success? ==> r.value.edges == Edges(numBuckets)
    ensures r.Success? ==> (r.value.Computed? <==> baseline != [] && current != [])
    ensures r.Success? ==> |r.value.baseline| == |r.value.current| == numBuckets
    ensures r.Success? && r.value.NonComputable? ==>
      forall i :: 0 <= i < numBuckets ==> r.value.baseline[i] == r.value.current[i] == 0.0
    ensures r.Success? && r.value.Computed? ==>
      && IsDistribution(r.value.baseline) && IsDistribution(r.value.current)
      && r.value.baseline == Proportions(Histogram(baseline, Edges(numBuckets)), |baseline|)
      && r.value.current == Proportions(Histogram(current, Edges(numBuckets)), |current|)
      && r.value.distance == Distance(r.value.baseline, r.value.current)
  {
    if numBuckets < 1 { return Failure(TooFewBuckets); }
    var edges := Edges(numBuckets);
    if baseline == [] || current == [] {
      var empty := seq(numBuckets, _ => 0.0);
      return Success(NonComputable(edges, empty, empty));
    }
    var p := BucketProportions(baseline, edges);
    var q := BucketProportions(current, edges);
    ProportionsAreDistribution(baseline, numBuckets);
    ProportionsAreDistribution(current, numBuckets);
    r := Success(Computed(edges, p, q, Distance(p, q)));
  }

  /** The probability a distribution gives to a set of buckets. */
  ghost function Mass(p: seq<real>, a: set<nat>): real {
    if p == [] then 0.0 else Mass(p[..|p| - 1], a) + if |p| - 1 in a then p[|p| - 1] else 0.0
  }

  lemma {:induction false} GapsPrefix(p: seq<real>, q: seq<real>)
    requires |p| == |q| > 0
    ensures var n := |p| - 1;
      Sum(Gaps(p, q)) == Sum(Gaps(p[..n], q[..n])) + RAbs(p[n] - q[n])
  {
    assert Gaps(p, q)[..|p| - 1] == Gaps(p[..|p| - 1], q[..|q| - 1]);
  }

  lemma {:induction false} DistanceSymmetric(p: seq<real>, q: seq<real>)
    requires |p| == |q|
    ensures Distance(p, q) == Distance(q, p)
  {
    assert Gaps(p, q) == Gaps(q, p);
  }

  lemma {:induction false} GapsTriangle(p: seq<real>, q: seq<real>, r: seq<real>)
    requires |p| == |q| == |r|
    ensures Sum(Gaps(p, r)) <= Sum(Gaps(p, q)) + Sum(Gaps(q, r))
  {
    if p != [] {
      var n := |p| - 1;
      GapsTriangle(p[..n], q[..n], r[..n]);
      GapsPrefix(p, q);
      GapsPrefix(q, r);
      GapsPrefix(p, r);
    }
  }

  lemma {:induction false} DistanceTriangle(p: seq<real>, q: seq<real>, r: seq<real>)
    requires |p| == |q| == |r|
    ensures Distance(p, r) <= Distance(p, q) + Distance(q, r)
  {
    GapsTriangle(p, q, r);
  }

  lemma {:induction false} GapsSum(p: seq<real>, q: seq<real>)
    requires |p| == |q| && forall i :: 0 <= i < |p| ==> p[i] >= 0.0 && q[i] >= 0.0
    ensures 0.0 <= Sum(Gaps(p, q)) <= Sum(p) + Sum(q)
    ensures Sum(Gaps(p, q)) == 0.0 <==> p == q
  {
    if p != [] {
      var n := |p| - 1;
      GapsSum(p[..n], q[..n]);
      GapsPrefix(p, q);
      assert p == p[..n] + [p[n]] && q == q[..n] + [q[n]];
    }
  }

  /** Between two distributions the distance lies in [0, 1], and is 0 only for the same proportions. */
  lemma {:induction false} DistanceBounds(p: seq<real>, q: seq<real>)
    requires |p| == |q| && IsDistribution(p) && IsDistribution(q)
    ensures 0.0 <= Distance(p, q) <= 1.0 && (Distance(p, q) == 0.0 <==> p == q)
  {
    GapsSum(p, q);
  }

  /** Where the first distribution is heavier. */
  ghost function Heavier(p: seq<real>, q: seq<real>): set<nat>
    requires |p| == |q|
  {
    set i: nat | i < |p| && p[i] > q[i]
  }

  lemma {:induction false} MassGap(p: seq<real>, q: seq<real>, a: set<nat>)
    requires |p| == |q|
    ensures 2.0 * RAbs(Mass(p, a) - Mass(q, a)) <= Sum(Gaps(p, q)) + RAbs(Sum(p) - Sum(q))
    ensures (forall i :: 0 <= i < |p| ==> (i in a <==> p[i] > q[i])) ==>
      2.0 * (Mass(p, a) - Mass(q, a)) == Sum(Gaps(p, q)) + Sum(p) - Sum(q)
  {
    MassGapSigned(p, q, a);
    MassGapSigned(q, p, a);
    DistanceSymmetric(p, q);
  }

  lemma {:induction false} MassGapSigned(p: seq<real>, q: seq<real>, a: set<nat>)
    requires |p| == |q|
    ensures 2.0 * (Mass(p, a) - Mass(q, a)) <= Sum(Gaps(p, q)) + Sum(p) - Sum(q)
    ensures (forall i :: 0 <= i < |p| ==> (i in a <==> p[i] > q[i])) ==>
      2.0 * (Mass(p, a) - Mass(q, a)) == Sum(Gaps(p, q)) + Sum(p) - Sum(q)
  {
    if p != [] {
      var n := |p| - 1;
      MassGapSigned(p[..n], q[..n], a);
      GapsPrefix(p, q);
    }
  }

  /** The distance bounds the probability gap on every set of buckets, and some set attains it. */
  lemma {:induction false} DistanceIsLargestGap(p: seq<real>, q: seq<real>, a: set<nat>)
    requires |p| == |q| && IsDistribution(p) && IsDistribution(q)
    ensures RAbs(Mass(p, a) - Mass(q, a)) <= Distance(p, q)
    ensures RAbs(Mass(p, Heavier(p, q)) - Mass(q, Heavier(p, q))) == Distance(p, q)
  {
    MassGap(p, q, a);
    MassGap(p, q, Heavier(p, q));
    GapsSum(p, q);
  }
}
