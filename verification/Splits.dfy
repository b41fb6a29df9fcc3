/** The chronological train/calibration/test split with a purge gap. */
module Splits {
  import opened Common
  import opened Sorting

  datatype Row = Row(timestamp: int, id: nat)

  datatype Split = Train | Calibration | Test

  datatype Labeled = Labeled(row: Row, split: Split)

  datatype Fractions = Fractions(train: real, calibration: real, test: real)

  datatype SplitError =
    | EmptyFrame
    | FractionsDoNotSum
    | NegativeFraction
    | TooFewGroups
    | NoSecondBoundary
    | AllPurged
    | EmptyPartition(split: Split)

  function RowKey(r: Row): Key { Key(0.0, r.timestamp, r.id) }

  /** Python's `round`: to the nearest integer, halves to the even one. */
  function Round(x: real): int {
    var below := x.Floor;
    var rest := x - below as real;
    if rest < 0.5 || (rest == 0.5 && below % 2 == 0) then below else below + 1
  }

  // ---- timestamp groups ----

  /** Positions before n, other than 0, where a new timestamp begins. */
  function InnerStarts(rows: seq<Row>, n: nat): seq<int>
    requires n <= |rows|
  {
    if n <= 1 then []
    else InnerStarts(rows, n - 1) + if rows[n - 1].timestamp != rows[n - 2].timestamp then [n - 1] else []
  }

  function Inner(rows: seq<Row>): seq<int> { InnerStarts(rows, |rows|) }

  ghost predicate IsInnerStart(rows: seq<Row>, i: int) {
    0 < i < |rows| && rows[i].timestamp != rows[i - 1].timestamp
  }

  lemma {:induction false} InnerStartsMembers(rows: seq<Row>, n: nat)
    requires n <= |rows|
    ensures forall i :: i in InnerStarts(rows, n) <==> i < n && IsInnerStart(rows, i)
    ensures forall a, b :: 0 <= a < b < |InnerStarts(rows, n)| ==> InnerStarts(rows, n)[a] < InnerStarts(rows, n)[b]
  {
    if n > 1 {
      InnerStartsMembers(rows, n - 1);
      var before := InnerStarts(rows, n - 1);
      forall a | 0 <= a < |before| ensures before[a] < n - 1 {
        assert before[a] in before;
      }
    }
  }

  method GroupStartIndices(rows: seq<Row>) returns (starts: seq<int>)
    requires rows != []
    ensures starts == [0] + Inner(rows) + [|rows|]
  {
    starts := [0];
    for i := 1 to |rows|
      invariant starts == [0] + InnerStarts(rows, i)
    {
      if rows[i].timestamp != rows[i - 1].timestamp {
        starts := starts + [i];
      }
    }
    starts := starts + [|rows|];
  }

  /** The candidate nearest to the raw cut, the earlier of two equally near ones. */
  function Nearest(candidates: seq<int>, raw: int): (r: int)
    requires candidates != []
    ensures r in candidates
  {
    var n := |candidates| - 1;
    if n == 0 then candidates[0]
    else
      var best := Nearest(candidates[..n], raw);
      var c := candidates[n];
      assert candidates == candidates[..n] + [c];
      if Abs(c - raw) < Abs(best - raw) || (Abs(c - raw) == Abs(best - raw) && c < best) then c else best
  }

  function After(candidates: seq<int>, b: int): seq<int> {
    if candidates == [] then []
    else
      var last := candidates[|candidates| - 1];
      After(candidates[..|candidates| - 1], b) + if last > b then [last] else []
  }

  lemma {:induction false} AfterMembers(candidates: seq<int>, b: int, c: int)
    ensures c in After(candidates, b) <==> c in candidates && c > b
  {
    if candidates != [] {
      AfterMembers(candidates[..|candidates| - 1], b, c);
      assert candidates == candidates[..|candidates| - 1] + [candidates[|candidates| - 1]];
    }
  }

  // ---- labels ----

  /** The label of row i of the sorted frame; None is purged. */
  function Label(rows: seq<Row>, b1: int, b2: int, gap: int, i: nat): Option<Split>
    requires i < |rows| && 0 <= b1 < |rows| && 0 <= b2 < |rows|
  {
    var ts, t1, t2 := rows[i].timestamp, rows[b1].timestamp, rows[b2].timestamp;
    if i < b1 then
      if gap > 0 && t1 - ts <= gap then None else Some(Train)
    else if i < b2 then
      if gap > 0 && (ts - t1 < gap || t2 - ts <= gap) then None else Some(Calibration)
    else
      if gap > 0 && ts - t2 < gap then None else Some(Test)
  }

  function Labels(rows: seq<Row>, b1: int, b2: int, gap: int): (labels: seq<Option<Split>>)
    requires 0 <= b1 < |rows| && 0 <= b2 < |rows|
    ensures |labels| == |rows|
    ensures forall i :: 0 <= i < |rows| ==> labels[i] == Label(rows, b1, b2, gap, i)
  {
    seq(|rows|, i requires 0 <= i < |rows| => Label(rows, b1, b2, gap, i))
  }

  /** The labelled rows. */
  function Kept(rows: seq<Row>, labels: seq<Option<Split>>): seq<Labeled>
    requires |rows| == |labels|
  {
    if rows == [] then []
    else
      var n := |rows| - 1;
      Kept(rows[..n], labels[..n]) + if labels[n].Some? then [Labeled(rows[n], labels[n].value)] else []
  }

  /** The rows inside the purge gaps. */
  function Purged(rows: seq<Row>, labels: seq<Option<Split>>): seq<Row>
    requires |rows| == |labels|
  {
    if rows == [] then []
    else
      var n := |rows| - 1;
      Purged(rows[..n], labels[..n]) + if labels[n].None? then [rows[n]] else []
  }

  predicate Has(frame: seq<Labeled>, split: Split) { exists i :: 0 <= i < |frame| && frame[i].split == split }

  // ---- the split as a function ----

  /** The two raw cuts, before they move to group starts. */
  datatype Cuts = Cuts(first: int, second: int)

  function CutsOf(n: nat, f: Fractions): Cuts {
    Cuts(Round(n as real * f.train), Round(n as real * (f.train + f.calibration)))
  }

  function Boundary1(rows: seq<Row>, c: Cuts): int
    requires Inner(rows) != []
  {
    Nearest(Inner(rows), c.first)
  }

  function Boundary2(rows: seq<Row>, c: Cuts): int
    requires Inner(rows) != [] && After(Inner(rows), Boundary1(rows, c)) != []
  {
    Nearest(After(Inner(rows), Boundary1(rows, c)), c.second)
  }

  predicate FractionsSum(f: Fractions) { RAbs(f.train + f.calibration + f.test - 1.0) <= 0.000001 }

  predicate FractionsNonNegative(f: Fractions) { f.train >= 0.0 && f.calibration >= 0.0 && f.test >= 0.0 }

  /** Both boundaries exist. */
  predicate Placeable(rows: seq<Row>, c: Cuts) {
    Inner(rows) != [] && After(Inner(rows), Boundary1(rows, c)) != []
  }

  lemma {:induction false} BoundsInside(rows: seq<Row>, c: Cuts)
    requires Placeable(rows, c)
    ensures 0 < Boundary1(rows, c) < Boundary2(rows, c) < |rows|
    ensures IsInnerStart(rows, Boundary1(rows, c)) && IsInnerStart(rows, Boundary2(rows, c))
  {
    InnerStartsMembers(rows, |rows|);
    AfterMembers(Inner(rows), Boundary1(rows, c), Boundary2(rows, c));
  }

  function NonEmptyPartitions(frame: seq<Labeled>): (r: Result<seq<Labeled>, SplitError>)
    ensures r.Failure? ==> r.error.AllPurged? || r.error.EmptyPartition?
    ensures r.Success? ==> r.value == frame && forall s: Split :: Has(frame, s)
  {
    if frame == [] then Failure(AllPurged)
    else if !Has(frame, Train) then Failure(EmptyPartition(Train))
    else if !Has(frame, Calibration) then Failure(EmptyPartition(Calibration))
    else if !Has(frame, Test) then Failure(EmptyPartition(Test))
    else Success(frame)
  }

  /** The split of sorted rows at two raw cuts. */
  function SplitAt(rows: seq<Row>, c: Cuts, gap: int): Result<seq<Labeled>, SplitError> {
    if Inner(rows) == [] then Failure(TooFewGroups)
    else if !Placeable(rows, c) then Failure(NoSecondBoundary)
    else
      BoundsInside(rows, c);
      NonEmptyPartitions(Kept(rows, Labels(rows, Boundary1(rows, c), Boundary2(rows, c), gap)))
  }

  function SplitSorted(rows: seq<Row>, f: Fractions, gap: int): Result<seq<Labeled>, SplitError> {
    if rows == [] then Failure(EmptyFrame)
    else if !FractionsSum(f) then Failure(FractionsDoNotSum)
    else if !FractionsNonNegative(f) then Failure(NegativeFraction)
    else SplitAt(rows, CutsOf(|rows|, f), gap)
  }

  /** The frame of a successful split: the rows outside the gaps around two group starts, none of the
      three partitions empty. */
  ghost predicate IsSplit(frame: seq<Labeled>, rows: seq<Row>, c: Cuts, gap: int) {
    && Placeable(rows, c)
    && var b1, b2 := Boundary1(rows, c), Boundary2(rows, c);
    && 0 < b1 < b2 < |rows| && IsInnerStart(rows, b1) && IsInnerStart(rows, b2)
    && frame == Kept(rows, Labels(rows, b1, b2, gap))
    && Has(frame, Train) && Has(frame, Calibration) && Has(frame, Test)
  }

  /** The split succeeds exactly with such a frame. */
  lemma {:induction false} SucceedsIff(frame: seq<Labeled>, rows: seq<Row>, c: Cuts, gap: int)
    ensures SplitAt(rows, c, gap) == Success(frame) <==> IsSplit(frame, rows, c, gap)
  {
    if Placeable(rows, c) {
      BoundsInside(rows, c);
      var kept := Kept(rows, Labels(rows, Boundary1(rows, c), Boundary2(rows, c), gap));
      assert SplitAt(rows, c, gap) == NonEmptyPartitions(kept);
    }
  }

  method LabelRows(rows: seq<Row>, b1: int, b2: int, gap: int) returns (labels: seq<Option<Split>>)
    requires 0 <= b1 < |rows| && 0 <= b2 < |rows|
    ensures labels == Labels(rows, b1, b2, gap)
  {
    labels := [];
    for i := 0 to |rows|
      invariant |labels| == i
      invariant forall j :: 0 <= j < i ==> labels[j] == Label(rows, b1, b2, gap, j)
    {
      labels := labels + [Label(rows, b1, b2, gap, i)];
    }
  }

  method AssignChronologicalSplit(rows: seq<Row>, f: Fractions, gap: int) returns (r: Result<seq<Labeled>, SplitError>)
    ensures r == SplitSorted(Sort(rows, RowKey), f, gap)
    ensures r.Success? ==> IsSplit(r.value, Sort(rows, RowKey), CutsOf(|rows|, f), gap)
  {
    var sorted := Sort(rows, RowKey);
    if sorted == [] { return Failure(EmptyFrame); }
    if !FractionsSum(f) { return Failure(FractionsDoNotSum); }
    if !FractionsNonNegative(f) { return Failure(NegativeFraction); }
    var starts := GroupStartIndices(sorted);
    var inner := starts[1..|starts| - 1];
    assert inner == Inner(sorted);
    if inner == [] { return Failure(TooFewGroups); }
    var cuts := CutsOf(|sorted|, f);
    var b1 := Nearest(inner, cuts.first);
    var candidates := After(inner, b1);
    if candidates == [] { return Failure(NoSecondBoundary); }
    var b2 := Nearest(candidates, cuts.second);
    BoundsInside(sorted, cuts);
    var labels := LabelRows(sorted, b1, b2, gap);
    r := NonEmptyPartitions(Kept(sorted, labels));
    if r.Success? { SucceedsIff(r.value, sorted, cuts, gap); }
  }
}
