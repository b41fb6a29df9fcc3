/** Ranked review: capacity, the ranking both evaluations use, and the least prefix meeting a recall target. */
module Ranking {
  import opened Common
  import opened Sorting

  /** Exactly one of a fixed count and a fraction of the population. */
  datatype Capacity = CountCapacity(count: nat) | FractionCapacity(fraction: real) {
    predicate Valid() { if CountCapacity? then count > 0 else 0.0 < fraction <= 1.0 }
  }

  function Ceil(x: real): int { -((-x).Floor) }

  function ResolveCapacityCount(c: Capacity, total: nat): (k: nat)
    ensures c.Valid() && total > 0 ==> 1 <= k <= total
    ensures total == 0 ==> k == 0
  {
    if total == 0 then 0
    else if c.CountCapacity? then Min(c.count, total)
    else Min(total, Max(1, Ceil(c.fraction * total as real)))
  }

  lemma {:induction false} PartOfTotal(f: real, total: real)
    requires 0.0 < f <= 1.0 && total > 0.0
    ensures 0.0 < f * total <= total
  {
    assert (1.0 - f) * total >= 0.0;
  }

  /** The fraction is rounded up: reviewing one alert fewer covers strictly less than it. */
  lemma {:induction false} FractionIsCovered(f: real, total: nat)
    requires 0.0 < f <= 1.0 && total > 0
    ensures var k := ResolveCapacityCount(FractionCapacity(f), total);
      f * total as real <= k as real && (k - 1) as real < f * total as real
  {
    PartOfTotal(f, total as real);
  }

  /** How many alerts of a population a capacity reviews: a count, or all there are; a fraction, rounded up. */
  predicate IsReviewSize(k: nat, c: Capacity, total: nat) {
    && k <= total && (total > 0 ==> k >= 1)
    && match c
       case CountCapacity(n) => k <= n && (k == n || k == total)
       case FractionCapacity(f) =>
         f * total as real <= k as real && (total > 0 ==> (k - 1) as real < f * total as real)
  }

  /** The code resolves a valid capacity to its review size, and there is no other. */
  lemma {:induction false} ResolvesToReviewSize(c: Capacity, total: nat)
    requires if c.CountCapacity? then c.count > 0 else 0.0 < c.fraction <= 1.0
    ensures c.Valid() && IsReviewSize(ResolveCapacityCount(c, total), c, total)
  {
    if c.FractionCapacity? && total > 0 { FractionIsCovered(c.fraction, total); }
  }

  lemma {:induction false} ReviewSizeUnique(j: nat, k: nat, c: Capacity, total: nat)
    requires IsReviewSize(j, c, total) && IsReviewSize(k, c, total)
    ensures j == k
  {
  }

  /** A metric, or why it cannot be computed. */
  datatype MetricStatus = Empty | SingleClass | UnreachableTarget

  datatype MetricValue = Ok(value: real) | NonComputable(status: MetricStatus)

  /** What a ranking reads of an alert: its id, event time, score, and whether it resolved as fraud. */
  datatype ScoredRow = ScoredRow(id: nat, timestamp: int, score: real, fraud: bool)

  /** Score descending, then event time, then id. */
  function RankKey(r: ScoredRow): Key { Key(-r.score, r.timestamp, r.id) }

  function Rank(rows: seq<ScoredRow>): (r: seq<ScoredRow>)
    ensures |r| == |rows|
  {
    Sort(rows, RankKey)
  }

  function FraudIn(rows: seq<ScoredRow>): (n: nat)
    ensures n <= |rows|
  {
    if rows == [] then 0 else FraudIn(rows[..|rows| - 1]) + if rows[|rows| - 1].fraud then 1 else 0
  }

  ghost predicate IdsDistinct(rows: seq<ScoredRow>) {
    forall i, j :: 0 <= i < j < |rows| ==> rows[i].id != rows[j].id
  }

  // ---- the ranking keeps the rows, whatever order they come in ----

  lemma {:induction false} FraudAppend(rows: seq<ScoredRow>, r: ScoredRow)
    ensures FraudIn(rows + [r]) == FraudIn(rows) + if r.fraud then 1 else 0
  {
    assert (rows + [r])[..|rows|] == rows;
  }

  lemma {:induction false} InsertKeepsFraud(rows: seq<ScoredRow>, r: ScoredRow)
    ensures FraudIn(Insert(rows, r, RankKey)) == FraudIn(rows) + if r.fraud then 1 else 0
  {
    if rows != [] && KeyLess(RankKey(r), RankKey(rows[|rows| - 1])) {
      var n := |rows| - 1;
      InsertKeepsFraud(rows[..n], r);
      assert Insert(rows, r, RankKey) == Insert(rows[..n], r, RankKey) + [rows[n]];
      FraudAppend(Insert(rows[..n], r, RankKey), rows[n]);
    } else {
      FraudAppend(rows, r);
    }
  }

  lemma {:induction false} RankKeepsFraud(rows: seq<ScoredRow>)
    ensures FraudIn(Rank(rows)) == FraudIn(rows)
  {
    if rows != [] {
      RankKeepsFraud(rows[..|rows| - 1]);
      InsertKeepsFraud(Rank(rows[..|rows| - 1]), rows[|rows| - 1]);
    }
  }

  lemma {:induction false} DistinctIdsIdentify(rows: seq<ScoredRow>)
    requires IdsDistinct(rows)
    ensures KeyIdentifies(rows, RankKey) && NoDuplicates(rows)
  {
    forall x, y | x in rows && y in rows && RankKey(x) == RankKey(y) ensures x == y {
      var i :| 0 <= i < |rows| && rows[i] == x;
      var j :| 0 <= j < |rows| && rows[j] == y;
      assert x.id == y.id;
    }
  }

  lemma {:induction false} SameRowsSameMultiset(a: seq<ScoredRow>, b: seq<ScoredRow>)
    requires NoDuplicates(a) && NoDuplicates(b) && ToSet(a) == ToSet(b)
    ensures multiset(a) == multiset(b)
  {
    forall x ensures multiset(a)[x] == multiset(b)[x] {
      OccursOnce(a, x);
      OccursOnce(b, x);
      assert x in multiset(a) <==> x in ToSet(a);
      assert x in multiset(b) <==> x in ToSet(b);
    }
  }

  /** Two listings of the same alerts rank the same. */
  lemma {:induction false} RankIgnoresOrder(a: seq<ScoredRow>, b: seq<ScoredRow>)
    requires IdsDistinct(a) && IdsDistinct(b) && ToSet(a) == ToSet(b)
    ensures Rank(a) == Rank(b)
  {
    DistinctIdsIdentify(a);
    DistinctIdsIdentify(b);
    SameRowsSameMultiset(a, b);
    SortOrderIndependent(a, b, RankKey);
  }

  /** The ranking goes from the highest score down; equal scores by event time, then by id. */
  lemma {:induction false} RankedByScore(rows: seq<ScoredRow>, i: nat, j: nat)
    requires i < j < |rows|
    ensures var a, b := Rank(rows)[i], Rank(rows)[j];
      a.score > b.score
        || (a.score == b.score && (a.timestamp < b.timestamp || (a.timestamp == b.timestamp && a.id <= b.id)))
  {
    SortOrdered(rows, RankKey);
    assert !KeyLess(RankKey(Rank(rows)[j]), RankKey(Rank(rows)[i]));
  }

  /** The first k of the ranking are the k best: whatever is left out scores less, or as much but later. */
  lemma {:induction false} ReviewedAreTop(rows: seq<ScoredRow>, k: nat, a: ScoredRow, b: ScoredRow)
    requires IdsDistinct(rows) && k <= |rows| && a in Rank(rows)[..k] && b in rows && b !in Rank(rows)[..k]
    ensures a in rows
    ensures a.score > b.score
      || (a.score == b.score && (a.timestamp < b.timestamp || (a.timestamp == b.timestamp && a.id <= b.id)))
  {
    RankedIdsDistinct(rows);
    var ranked := Rank(rows);
    var i :| 0 <= i < k && ranked[..k][i] == a;
    var j :| 0 <= j < |ranked| && ranked[j] == b;
    assert forall t :: 0 <= t < k ==> ranked[t] == ranked[..k][t];
    RankedByScore(rows, i, j);
  }

  lemma {:induction false} RankedIdsDistinct(rows: seq<ScoredRow>)
    requires IdsDistinct(rows)
    ensures IdsDistinct(Rank(rows))
    ensures forall r :: r in Rank(rows) <==> r in rows
  {
    DistinctIdsIdentify(rows);
    SortNoDuplicates(rows, RankKey);
    SortMembers(rows, RankKey);
    var t := Rank(rows);
    forall i, j | 0 <= i < j < |t| ensures t[i].id != t[j].id {
      assert KeyLess(RankKey(t[i]), RankKey(t[j]));
      assert t[i] in rows && t[j] in rows && t[i] != t[j];
      var k :| 0 <= k < |rows| && rows[k] == t[i];
      var l :| 0 <= l < |rows| && rows[l] == t[j];
    }
  }

  // ---- the least prefix meeting a recall target ----

  predicate Meets(ranked: seq<ScoredRow>, k: nat, totalFraud: nat, target: real)
    requires k <= |ranked| && totalFraud > 0
  {
    FraudIn(ranked[..k]) as real / totalFraud as real >= target
  }

  ghost predicate IsMinimum(r: Option<nat>, ranked: seq<ScoredRow>, totalFraud: nat, target: real)
    requires totalFraud > 0
  {
    match r
    case None => forall j :: 1 <= j <= |ranked| ==> !Meets(ranked, j, totalFraud, target)
    case Some(k) => 1 <= k <= |ranked| && Meets(ranked, k, totalFraud, target)
                    && forall j :: 1 <= j < k ==> !Meets(ranked, j, totalFraud, target)
  }

  lemma {:induction false} MinimumUnique(
    r: Option<nat>, s: Option<nat>, ranked: seq<ScoredRow>, totalFraud: nat, target: real)
    requires totalFraud > 0 && IsMinimum(r, ranked, totalFraud, target) && IsMinimum(s, ranked, totalFraud, target)
    ensures r == s
  {
  }

  method MinimumAlertsForRecallTarget(ranked: seq<ScoredRow>, totalFraud: nat, target: real) returns (r: Option<nat>)
    requires totalFraud > 0
    ensures IsMinimum(r, ranked, totalFraud, target)
  {
    var cumulative := 0;
    for i := 0 to |ranked|
      invariant cumulative == FraudIn(ranked[..i])
      invariant forall j :: 1 <= j <= i ==> !Meets(ranked, j, totalFraud, target)
    {
      TakeNext(ranked, i);
      if ranked[i].fraud { cumulative := cumulative + 1; }
      if cumulative as real / totalFraud as real >= target { return Some(i + 1); }
    }
    r := None;
  }

  lemma {:induction false} LongerPrefixesCatchMore(ranked: seq<ScoredRow>, j: nat, k: nat)
    requires j <= k <= |ranked|
    ensures FraudIn(ranked[..j]) <= FraudIn(ranked[..k])
    decreases k
  {
    if j < k {
      TakeNext(ranked, k - 1);
      LongerPrefixesCatchMore(ranked, j, k - 1);
    }
  }

  lemma {:induction false} DivideLess(a: real, b: real, d: real)
    requires a <= b && d > 0.0
    ensures a / d <= b / d
  {
  }

  /** With some fraud, a target of at most 1 is met by reviewing everything. */
  lemma {:induction false} TargetIsReachable(ranked: seq<ScoredRow>, target: real, r: Option<nat>)
    requires target <= 1.0 && FraudIn(ranked) > 0
    requires IsMinimum(r, ranked, FraudIn(ranked), target)
    ensures r.Some?
  {
    assert ranked[..|ranked|] == ranked;
    WholeOverItself(FraudIn(ranked) as real);
    assert Meets(ranked, |ranked|, FraudIn(ranked), target);
  }

  /** Reviewing k alerts reaches the target exactly when k is at least the minimum. */
  lemma {:induction false} ReachesTargetIff(ranked: seq<ScoredRow>, totalFraud: nat, target: real, minimum: nat, k: nat)
    requires totalFraud > 0 && 0.0 < target && k <= |ranked|
    requires IsMinimum(Some(minimum), ranked, totalFraud, target)
    ensures k >= minimum <==> FraudIn(ranked[..k]) as real / totalFraud as real >= target
  {
    if k >= minimum {
      LongerPrefixesCatchMore(ranked, minimum, k);
      DivideLess(FraudIn(ranked[..minimum]) as real, FraudIn(ranked[..k]) as real, totalFraud as real);
    } else if k == 0 {
      WholeOverItself(totalFraud as real);
    } else {
      assert !Meets(ranked, k, totalFraud, target);
    }
  }
}
