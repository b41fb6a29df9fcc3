/** Breadth-first search to the nearest fraud-linked entity. */
module GraphSearch {
  import opened Common
  import opened EntityGraph

  function Neighbors(adj: Adjacency, a: EntityKey): set<EntityKey> {
    set rec | rec in Edges(adj, a) :: rec.other
  }

  ghost predicate IsWalk(adj: Adjacency, p: seq<EntityKey>) {
    p != [] && forall i :: 0 <= i < |p| - 1 ==> p[i + 1] in Neighbors(adj, p[i])
  }

  /** Some walk of exactly `hops` edges leads from start to a linked entity. */
  ghost predicate LinkedAt(adj: Adjacency, start: EntityKey, linked: set<EntityKey>, hops: nat) {
    exists p :: IsWalk(adj, p) && p[0] == start && |p| == hops + 1 && p[hops] in linked
  }

  ghost predicate NoneBelow(adj: Adjacency, start: EntityKey, linked: set<EntityKey>, hops: nat) {
    forall m: nat :: m < hops ==> !LinkedAt(adj, start, linked, m)
  }

  /** d is the least number of hops to a linked entity; None when there is no walk at all. */
  ghost predicate IsDistance(adj: Adjacency, start: EntityKey, linked: set<EntityKey>, d: Option<nat>) {
    if d.Some? then LinkedAt(adj, start, linked, d.value) && NoneBelow(adj, start, linked, d.value)
    else forall m: nat :: !LinkedAt(adj, start, linked, m)
  }

  lemma {:induction false} DistanceUnique(
    adj: Adjacency, start: EntityKey, linked: set<EntityKey>, d: Option<nat>, e: Option<nat>)
    requires IsDistance(adj, start, linked, d) && IsDistance(adj, start, linked, e)
    ensures d == e
  {
    if d.Some? && e.Some? {
      assert !(d.value < e.value) && !(e.value < d.value);
    }
  }

  // ---- the set of entities within n hops ----

  ghost function Reached(adj: Adjacency, from: set<EntityKey>): set<EntityKey> {
    set x, y | x in from && y in Neighbors(adj, x) :: y
  }

  ghost function Ball(adj: Adjacency, start: EntityKey, n: nat): set<EntityKey> {
    if n == 0 then {start}
    else
      Ball(adj, start, n - 1) + Reached(adj, Ball(adj, start, n - 1))
  }

  lemma {:induction false} BallHasWalk(
    adj: Adjacency, start: EntityKey, n: nat, y: EntityKey) returns (p: seq<EntityKey>)
    requires y in Ball(adj, start, n)
    ensures IsWalk(adj, p) && p[0] == start && |p| <= n + 1 && p[|p| - 1] == y
  {
    if n == 0 {
      p := [y];
    } else if y in Ball(adj, start, n - 1) {
      p := BallHasWalk(adj, start, n - 1, y);
    } else {
      var x :| x in Ball(adj, start, n - 1) && y in Neighbors(adj, x);
      p := BallHasWalk(adj, start, n - 1, x);
      p := p + [y];
    }
  }

  lemma {:induction false} WalkInBall(adj: Adjacency, p: seq<EntityKey>)
    requires IsWalk(adj, p)
    ensures p[|p| - 1] in Ball(adj, p[0], |p| - 1)
  {
    if |p| > 1 {
      WalkInBall(adj, p[..|p| - 1]);
    }
  }

  lemma {:induction false} BallGrows(adj: Adjacency, start: EntityKey, m: nat, n: nat)
    requires m <= n
    ensures Ball(adj, start, m) <= Ball(adj, start, n)
  {
    if m < n { BallGrows(adj, start, m, n - 1); }
  }

  /** Once a step adds nothing, no later step does. */
  lemma {:induction false} BallFixed(adj: Adjacency, start: EntityKey, m: nat, n: nat)
    requires m <= n && Ball(adj, start, m + 1) == Ball(adj, start, m)
    ensures Ball(adj, start, n) == Ball(adj, start, m)
  {
    if m < n { BallFixed(adj, start, m, n - 1); }
  }

  lemma {:induction false} NoneWithin(adj: Adjacency, start: EntityKey, linked: set<EntityKey>, n: nat)
    requires Ball(adj, start, n) !! linked
    ensures forall m: nat :: m <= n ==> !LinkedAt(adj, start, linked, m)
  {
    forall m: nat | m <= n ensures !LinkedAt(adj, start, linked, m) {
      if LinkedAt(adj, start, linked, m) {
        var p :| IsWalk(adj, p) && p[0] == start && |p| == m + 1 && p[m] in linked;
        WalkInBall(adj, p);
        BallGrows(adj, start, m, n);
        assert false;
      }
    }
  }

  lemma {:induction false} FoundAtNext(
    adj: Adjacency, start: EntityKey, linked: set<EntityKey>, n: nat, x: EntityKey, y: EntityKey)
    requires Ball(adj, start, n) !! linked
    requires x in Ball(adj, start, n) && y in Neighbors(adj, x) && y in linked
    ensures IsDistance(adj, start, linked, Some(n + 1))
  {
    NoneWithin(adj, start, linked, n);
    var p := BallHasWalk(adj, start, n, x);
    var q := p + [y];
    assert IsWalk(adj, q) && q[0] == start && q[|p|] in linked;
    assert LinkedAt(adj, start, linked, |p|);
  }

  lemma {:induction false} NoneAnywhere(adj: Adjacency, start: EntityKey, linked: set<EntityKey>, n: nat)
    requires Ball(adj, start, n) !! linked && Ball(adj, start, n + 1) == Ball(adj, start, n)
    ensures IsDistance(adj, start, linked, None)
  {
    forall m: nat ensures !LinkedAt(adj, start, linked, m) {
      if m >= n { BallFixed(adj, start, n, m); }
      NoneWithin(adj, start, linked, Max(m, n));
    }
  }

  // ---- the search ----

  ghost function AllTargets(adj: Adjacency): set<EntityKey> {
    set a, rec | a in adj && rec in adj[a] :: rec.other
  }

  /** Scans one node's neighbours, in any order: the entities not yet visited, or a linked one. */
  method Expand(adj: Adjacency, node: EntityKey, linked: set<EntityKey>, visited: set<EntityKey>, next: seq<EntityKey>)
    returns (found: bool, visited': set<EntityKey>, next': seq<EntityKey>)
    requires visited !! linked
    ensures found ==> exists y :: y in Neighbors(adj, node) && y in linked
    ensures !found ==> visited' == visited + Neighbors(adj, node) && visited' !! linked
    ensures !found ==> ToSet(next') == ToSet(next) + (Neighbors(adj, node) - visited)
  {
    found, visited', next' := false, visited, next;
    var todo := Neighbors(adj, node);
    while todo != {}
      invariant todo <= Neighbors(adj, node)
      invariant visited' == visited + (Neighbors(adj, node) - todo) && visited' !! linked
      invariant ToSet(next') == ToSet(next) + (Neighbors(adj, node) - todo - visited)
      decreases |todo|
    {
      var neighbor :| neighbor in todo;
      todo := todo - {neighbor};
      if neighbor !in visited' {
        if neighbor in linked {
          found := true;
          return;
        }
        visited' := visited' + {neighbor};
        ToSetAppend(next', neighbor);
        next' := next' + [neighbor];
      }
    }
  }

  /** One level: every neighbour of the frontier, unless a linked one turns up. */
  method ExpandLevel(adj: Adjacency, frontier: seq<EntityKey>, linked: set<EntityKey>, visited: set<EntityKey>)
    returns (found: bool, visited': set<EntityKey>, next: seq<EntityKey>)
    requires visited !! linked
    ensures found ==> exists x, y :: x in frontier && y in Neighbors(adj, x) && y in linked
    ensures !found ==> visited' == visited + Reached(adj, ToSet(frontier)) && visited' !! linked
    ensures !found ==> ToSet(next) == visited' - visited
  {
    found, visited', next := false, visited, [];
    for i := 0 to |frontier|
      invariant visited' == visited + Reached(adj, ToSet(frontier[..i])) && visited' !! linked
      invariant ToSet(next) == visited' - visited
    {
      found, visited', next := Expand(adj, frontier[i], linked, visited', next);
      if found {
        return;
      }
      assert frontier[..i + 1] == frontier[..i] + [frontier[i]];
      ToSetAppend(frontier[..i], frontier[i]);
    }
    assert frontier[..|frontier|] == frontier;
  }

  lemma {:induction false} BallStep(adj: Adjacency, start: EntityKey, n: nat, frontier: set<EntityKey>)
    requires frontier <= Ball(adj, start, n)
    requires forall x :: x in Ball(adj, start, n) - frontier ==> Neighbors(adj, x) <= Ball(adj, start, n)
    ensures Ball(adj, start, n + 1) == Ball(adj, start, n) + Reached(adj, frontier)
    ensures forall x :: x in Ball(adj, start, n) ==> Neighbors(adj, x) <= Ball(adj, start, n + 1)
  {
  }

  lemma {:induction false} BallBounded(adj: Adjacency, start: EntityKey, n: nat)
    ensures Ball(adj, start, n) <= {start} + AllTargets(adj)
  {
    if n > 0 { BallBounded(adj, start, n - 1); }
  }

  /** After n levels: everything within n hops is visited, nothing linked is among it,
      and only the frontier still has unvisited neighbours. */
  ghost predicate AtLevel(
    adj: Adjacency, start: EntityKey, linked: set<EntityKey>, n: nat, visited: set<EntityKey>, frontier: seq<EntityKey>)
  {
    && visited == Ball(adj, start, n) && visited !! linked
    && ToSet(frontier) <= visited
    && forall x :: x in visited - ToSet(frontier) ==> Neighbors(adj, x) <= visited
  }

  ghost function Remaining(adj: Adjacency, start: EntityKey, visited: set<EntityKey>, frontier: seq<EntityKey>): nat {
    |{start} + AllTargets(adj) - visited| + if frontier == [] then 0 else 1
  }

  lemma {:induction false} LevelStep(
    adj: Adjacency, start: EntityKey, linked: set<EntityKey>, n: nat,
    visited: set<EntityKey>, frontier: seq<EntityKey>, visited': set<EntityKey>, next: seq<EntityKey>)
    requires AtLevel(adj, start, linked, n, visited, frontier) && frontier != []
    requires visited' == visited + Reached(adj, ToSet(frontier)) && visited' !! linked
    requires ToSet(next) == visited' - visited
    ensures AtLevel(adj, start, linked, n + 1, visited', next)
    ensures Remaining(adj, start, visited', next) < Remaining(adj, start, visited, frontier)
  {
    BallStep(adj, start, n, ToSet(frontier));
    var all := {start} + AllTargets(adj);
    SubsetSize(all - visited', all - visited);
    if next != [] {
      assert next[0] in ToSet(next);
      BallBounded(adj, start, n + 1);
      assert next[0] in all - visited && next[0] !in all - visited';
    }
  }

  lemma {:induction false} LevelEnd(
    adj: Adjacency, start: EntityKey, linked: set<EntityKey>, n: nat, visited: set<EntityKey>)
    requires AtLevel(adj, start, linked, n, visited, [])
    ensures IsDistance(adj, start, linked, None)
  {
    BallStep(adj, start, n, {});
    NoneAnywhere(adj, start, linked, n);
  }

  lemma {:induction false} LevelFound(
    adj: Adjacency, start: EntityKey, linked: set<EntityKey>, n: nat, visited: set<EntityKey>, frontier: seq<EntityKey>)
    requires AtLevel(adj, start, linked, n, visited, frontier)
    requires exists x, y :: x in frontier && y in Neighbors(adj, x) && y in linked
    ensures IsDistance(adj, start, linked, Some(n + 1))
  {
    var x, y :| x in frontier && y in Neighbors(adj, x) && y in linked;
    assert x in ToSet(frontier);
    FoundAtNext(adj, start, linked, n, x, y);
  }

  lemma {:induction false} StartLinked(adj: Adjacency, start: EntityKey, linked: set<EntityKey>)
    ensures IsDistance(adj, start, linked, Some(0)) <==> start in linked
  {
    assert IsWalk(adj, [start]);
    if start in linked {
      assert LinkedAt(adj, start, linked, 0);
    }
  }

  /** The level loop, entered when start itself is not linked. */
  method SearchLevels(adj: Adjacency, start: EntityKey, linked: set<EntityKey>) returns (d: Option<nat>)
    requires start !in linked
    ensures IsDistance(adj, start, linked, d)
  {
    var visited, frontier, distance := {start}, [start], 0;
    while frontier != []
      invariant AtLevel(adj, start, linked, distance, visited, frontier)
      decreases Remaining(adj, start, visited, frontier)
    {
      var found, visited', next := ExpandLevel(adj, frontier, linked, visited);
      if found {
        LevelFound(adj, start, linked, distance, visited, frontier);
        return Some(distance + 1);
      }
      LevelStep(adj, start, linked, distance, visited, frontier, visited', next);
      visited, frontier, distance := visited', next, distance + 1;
    }
    LevelEnd(adj, start, linked, distance, visited);
    d := None;
  }

  method ShortestPathToFraudLinked(adj: Adjacency, start: EntityKey, linked: set<EntityKey>) returns (d: Option<nat>)
    ensures IsDistance(adj, start, linked, d)
  {
    StartLinked(adj, start, linked);
    if start in linked {
      d := Some(0);
    } else {
      d := SearchLevels(adj, start, linked);
    }
  }
}
