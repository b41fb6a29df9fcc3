/** Python's `sorted(xs, key=k)` for the lexicographic keys this system uses.
    A UUID is its 128-bit number: the canonical hexadecimal text of two UUIDs
    compares exactly as the two numbers do. */
module Sorting {
  import opened Common

  datatype Key = Key(rank: real, time: int, id: int)

  predicate KeyLess(a: Key, b: Key) {
    a.rank < b.rank || (a.rank == b.rank && (a.time < b.time || (a.time == b.time && a.id < b.id)))
  }

  ghost predicate Ordered<T>(s: seq<T>, key: T -> Key) {
    forall i, j :: 0 <= i < j < |s| ==> !KeyLess(key(s[j]), key(s[i]))
  }

  /** Members with the same key are the same member: the key identifies. */
  ghost predicate KeyIdentifies<T(!new)>(s: seq<T>, key: T -> Key) {
    forall x, y | x in s && y in s && key(x) == key(y) :: x == y
  }

  ghost predicate NoDuplicates<T>(s: seq<T>) {
    forall i, j :: 0 <= i < j < |s| ==> s[i] != s[j]
  }

  function Insert<T>(s: seq<T>, x: T, key: T -> Key): (r: seq<T>)
    ensures multiset(r) == multiset(s) + multiset{x}
    ensures |r| == |s| + 1
  {
    if s == [] then [x]
    else if KeyLess(key(x), key(s[|s| - 1])) then
      assert s == s[..|s| - 1] + [s[|s| - 1]];
      Insert(s[..|s| - 1], x, key) + [s[|s| - 1]]
    else s + [x]
  }

  /** Stable sort, ascending. */
  function Sort<T>(s: seq<T>, key: T -> Key): (r: seq<T>)
    ensures multiset(r) == multiset(s)
    ensures |r| == |s|
  {
    if s == [] then []
    else
      assert s == s[..|s| - 1] + [s[|s| - 1]];
      Insert(Sort(s[..|s| - 1], key), s[|s| - 1], key)
  }

  lemma {:induction false} InsertOrdered<T>(s: seq<T>, x: T, key: T -> Key)
    requires Ordered(s, key)
    ensures Ordered(Insert(s, x, key), key)
  {
    if s != [] && KeyLess(key(x), key(s[|s| - 1])) {
      var n := |s| - 1;
      InsertOrdered(s[..n], x, key);
      var t := Insert(s[..n], x, key);
      assert Insert(s, x, key) == t + [s[n]];
      forall i | 0 <= i < |t| ensures !KeyLess(key(s[n]), key(t[i])) {
        assert t[i] in multiset(t);
        assert t[i] == x || t[i] in s[..n];
      }
    }
  }

  /** The result of a sort is in key order. */
  lemma {:induction false} SortOrdered<T>(s: seq<T>, key: T -> Key)
    ensures Ordered(Sort(s, key), key)
  {
    if s != [] {
      SortOrdered(s[..|s| - 1], key);
      InsertOrdered(Sort(s[..|s| - 1], key), s[|s| - 1], key);
    }
  }

  lemma {:induction false} SortMembers<T>(s: seq<T>, key: T -> Key)
    ensures forall x :: x in Sort(s, key) <==> x in s
  {
    forall x ensures x in Sort(s, key) <==> x in s {
      assert x in multiset(Sort(s, key)) <==> x in multiset(s);
    }
  }

  lemma {:induction false} LastIsLargest<T>(a: seq<T>, x: T, key: T -> Key)
    requires Ordered(a, key) && a != [] && x in a
    ensures !KeyLess(key(a[|a| - 1]), key(x))
  {
    var i :| 0 <= i < |a| && a[i] == x;
  }

  lemma {:induction false} SameLast<T(!new)>(a: seq<T>, b: seq<T>, key: T -> Key)
    requires Ordered(a, key) && Ordered(b, key)
    requires multiset(a) == multiset(b) && a != []
    requires KeyIdentifies(a, key)
    ensures |a| == |b| && a[|a| - 1] == b[|b| - 1]
  {
    assert |a| == |multiset(a)| == |multiset(b)| == |b|;
    var x, y := a[|a| - 1], b[|b| - 1];
    assert y in multiset(a) && x in multiset(b);
    LastIsLargest(a, y, key);
    LastIsLargest(b, x, key);
  }

  lemma {:induction false} DropLast<T>(a: seq<T>)
    requires a != []
    ensures a == a[..|a| - 1] + [a[|a| - 1]]
    ensures multiset(a[..|a| - 1]) == multiset(a) - multiset{a[|a| - 1]}
  {
    assert a == a[..|a| - 1] + [a[|a| - 1]];
  }

  /** Two orderings of the same rows by an identifying key are the same list. */
  lemma {:induction false} OrderedUnique<T(!new)>(a: seq<T>, b: seq<T>, key: T -> Key)
    requires Ordered(a, key) && Ordered(b, key)
    requires multiset(a) == multiset(b)
    requires KeyIdentifies(a, key)
    ensures a == b
  {
    if a == [] {
      assert |b| == |multiset(b)| == 0;
    } else {
      SameLast(a, b, key);
      DropLast(a);
      DropLast(b);
      OrderedUnique(a[..|a| - 1], b[..|b| - 1], key);
    }
  }

  /** `sorted` forgets the order its input came in. */
  lemma {:induction false} SortOrderIndependent<T(!new)>(a: seq<T>, b: seq<T>, key: T -> Key)
    requires multiset(a) == multiset(b)
    requires KeyIdentifies(a, key)
    ensures Sort(a, key) == Sort(b, key)
  {
    SortOrdered(a, key);
    SortOrdered(b, key);
    SortMembers(a, key);
    OrderedUnique(Sort(a, key), Sort(b, key), key);
  }

  function Reverse<T>(s: seq<T>): (r: seq<T>)
    ensures |r| == |s|
    ensures forall i :: 0 <= i < |s| ==> r[i] == s[|s| - 1 - i]
  {
    seq(|s|, i requires 0 <= i < |s| => s[|s| - 1 - i])
  }

  // ---- the greatest `limit` members, greatest first ----

  ghost predicate TopOf<T>(r: seq<T>, pool: set<T>, key: T -> Key, limit: nat) {
    && |r| <= limit
    && (forall i, j :: 0 <= i < j < |r| ==> KeyLess(key(r[j]), key(r[i])))
    && (forall x :: x in r ==> x in pool)
    && (forall x :: x in pool && x !in r ==> |r| == limit && forall y :: y in r ==> KeyLess(key(x), key(y)))
  }

  lemma {:induction false} TopFromPool<T>(r: seq<T>, pool: set<T>, key: T -> Key, limit: nat)
    requires TopOf(r, pool, key, limit)
    ensures r != [] ==> r[0] in pool
  {
    assert r != [] ==> r[0] in r;
  }

  lemma {:induction false} TopHead<T>(r: seq<T>, pool: set<T>, key: T -> Key, limit: nat, x: T)
    requires TopOf(r, pool, key, limit) && limit > 0 && x in pool
    ensures r != [] && (x == r[0] || KeyLess(key(x), key(r[0])))
  {
    if x in r {
      var i :| 0 <= i < |r| && r[i] == x;
    } else {
      assert r[0] in r;
    }
  }

  lemma {:induction false} TopTail<T>(r: seq<T>, pool: set<T>, key: T -> Key, limit: nat)
    requires TopOf(r, pool, key, limit) && r != []
    ensures TopOf(r[1..], pool - {r[0]}, key, limit - 1)
  {
    assert r == [r[0]] + r[1..];
    forall x | x in r[1..] ensures x in pool - {r[0]} {
      var i :| 0 <= i < |r[1..]| && r[1..][i] == x;
      assert KeyLess(key(r[i + 1]), key(r[0]));
    }
  }

  /** The selection is determined by the pool: no other list is its top `limit`. */
  lemma {:induction false} TopUnique<T>(a: seq<T>, b: seq<T>, pool: set<T>, key: T -> Key, limit: nat)
    requires TopOf(a, pool, key, limit) && TopOf(b, pool, key, limit)
    ensures a == b
    decreases limit
  {
    if limit > 0 && pool != {} {
      var x :| x in pool;
      TopHead(a, pool, key, limit, x);
      TopHead(b, pool, key, limit, x);
      TopHead(a, pool, key, limit, b[0]);
      TopHead(b, pool, key, limit, a[0]);
      TopTail(a, pool, key, limit);
      TopTail(b, pool, key, limit);
      TopUnique(a[1..], b[1..], pool - {a[0]}, key, limit - 1);
      assert a == [a[0]] + a[1..] && b == [b[0]] + b[1..];
    } else if limit > 0 {
      TopFromPool(a, pool, key, limit);
      TopFromPool(b, pool, key, limit);
    }
  }

  /** A smaller limit selects a prefix. */
  lemma {:induction false} TopPrefix<T>(r: seq<T>, pool: set<T>, key: T -> Key, limit: nat, smaller: nat)
    requires TopOf(r, pool, key, limit) && smaller <= limit
    ensures TopOf(if smaller <= |r| then r[..smaller] else r, pool, key, smaller)
  {
    if smaller <= |r| {
      var p := r[..smaller];
      assert forall k :: 0 <= k < smaller ==> r[k] in p by { assert forall k :: 0 <= k < smaller ==> p[k] == r[k]; }
      forall x | x in pool && x !in p ensures |p| == smaller && forall y :: y in p ==> KeyLess(key(x), key(y)) {
        if x in r {
          var i :| 0 <= i < |r| && r[i] == x;
        }
      }
    }
  }

  function Above<T>(x: T, pool: set<T>, key: T -> Key): set<T> { set y | y in pool && KeyLess(key(x), key(y)) }

  lemma {:induction false} PrefixSize<T>(r: seq<T>, n: nat)
    requires n <= |r|
    ensures |ToSet(r[..n])| <= n
    ensures NoDuplicates(r) ==> |ToSet(r[..n])| == n
    decreases n
  {
    if n > 0 {
      PrefixSize(r, n - 1);
      TakeNext(r, n - 1);
      ToSetAppend(r[..n - 1], r[n - 1]);
    }
  }

  /** A member of the pool is selected exactly when fewer than `limit` members are above it. */
  lemma {:induction false} InTopIff<T>(r: seq<T>, pool: set<T>, key: T -> Key, limit: nat, x: T)
    requires TopOf(r, pool, key, limit) && x in pool
    ensures x in r <==> |Above(x, pool, key)| < limit
  {
    if x in r {
      var i :| 0 <= i < |r| && r[i] == x;
      forall y | y in Above(x, pool, key) ensures y in ToSet(r[..i]) {
        var j :| 0 <= j < |r| && r[j] == y;
        assert r[..i][j] == y;
      }
      SubsetSize(Above(x, pool, key), ToSet(r[..i]));
      PrefixSize(r, i);
    } else {
      assert r[..|r|] == r;
      PrefixSize(r, |r|);
      SubsetSize(ToSet(r), Above(x, pool, key));
    }
  }

  lemma {:induction false} SortNoDuplicates<T(!new)>(s: seq<T>, key: T -> Key)
    requires NoDuplicates(s) && KeyIdentifies(s, key)
    ensures forall i, j :: 0 <= i < j < |s| ==> KeyLess(key(Sort(s, key)[i]), key(Sort(s, key)[j]))
  {
    var t := Sort(s, key);
    SortOrdered(s, key);
    SortMembers(s, key);
    forall i, j | 0 <= i < j < |t| ensures KeyLess(key(t[i]), key(t[j])) {
      assert !KeyLess(key(t[j]), key(t[i])) && t[i] in s && t[j] in s;
      if t[i] == t[j] {
        OccursTwice(t, i, j);
        OccursOnce(s, t[i]);
        assert false;
      }
    }
  }

  lemma {:induction false} OccursTwice<T>(t: seq<T>, i: nat, j: nat)
    requires i < j < |t| && t[i] == t[j]
    ensures multiset(t)[t[i]] >= 2
  {
    assert t == t[..j] + [t[j]] + t[j + 1..];
    assert t[..j][i] in multiset(t[..j]);
  }

  lemma {:induction false} OccursOnce<T>(s: seq<T>, x: T)
    requires NoDuplicates(s)
    ensures multiset(s)[x] <= 1
  {
    if s != [] {
      DropLast(s);
      OccursOnce(s[..|s| - 1], x);
      if x == s[|s| - 1] {
        assert x !in s[..|s| - 1];
        assert x !in multiset(s[..|s| - 1]);
      }
    }
  }

  /** Sorting descending and slicing computes the selection. */
  lemma {:induction false} SortedTop<T(!new)>(s: seq<T>, key: T -> Key, limit: nat)
    requires NoDuplicates(s) && KeyIdentifies(s, key)
    ensures var d := Reverse(Sort(s, key)); TopOf(if |d| <= limit then d else d[..limit], ToSet(s), key, limit)
  {
    var d := Reverse(Sort(s, key));
    SortNoDuplicates(s, key);
    SortMembers(s, key);
    assert forall x :: x in d <==> x in Sort(s, key) by { ReverseMembers(Sort(s, key)); }
    assert TopOf(d, ToSet(s), key, |d|);
    if limit < |d| {
      TopPrefix(d, ToSet(s), key, |d|, limit);
    }
  }

  lemma {:induction false} ReverseMembers<T>(s: seq<T>)
    ensures forall x :: x in Reverse(s) <==> x in s
  {
    forall x | x in s ensures x in Reverse(s) {
      var i :| 0 <= i < |s| && s[i] == x;
      assert Reverse(s)[|s| - 1 - i] == x;
    }
    forall x | x in Reverse(s) ensures x in s {
      var i :| 0 <= i < |s| && Reverse(s)[i] == x;
    }
  }
}
