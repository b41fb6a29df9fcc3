/** What every successful chronological split guarantees. */
module SplitFacts {
  import opened Common
  import opened Sorting
  import opened Splits

  ghost predicate TimeOrdered(rows: seq<Row>) {
    forall i, j :: 0 <= i <= j < |rows| ==> rows[i].timestamp <= rows[j].timestamp
  }

  lemma {:induction false} KeyOrderIsTimeOrder(s: seq<Row>, i: nat, j: nat)
    requires Ordered(s, RowKey) && i < j < |s|
    ensures s[i].timestamp <= s[j].timestamp
  {
    assert !KeyLess(RowKey(s[j]), RowKey(s[i]));
  }

  lemma {:induction false} SortedIsTimeOrdered(rows: seq<Row>)
    ensures TimeOrdered(Sort(rows, RowKey))
    ensures multiset(Sort(rows, RowKey)) == multiset(rows)
  {
    SortOrdered(rows, RowKey);
    var s := Sort(rows, RowKey);
    forall i, j | 0 <= i <= j < |s| ensures s[i].timestamp <= s[j].timestamp {
      if i < j { KeyOrderIsTimeOrder(s, i, j); }
    }
  }

  lemma {:induction false} SurvivorHasIndex(rows: seq<Row>, labels: seq<Option<Split>>, x: Labeled) returns (i: nat)
    requires |rows| == |labels| && x in Kept(rows, labels)
    ensures i < |rows| && rows[i] == x.row && labels[i] == Some(x.split)
  {
    var n := |rows| - 1;
    if x in Kept(rows[..n], labels[..n]) {
      i := SurvivorHasIndex(rows[..n], labels[..n], x);
    } else {
      i := n;
    }
  }

  lemma {:induction false} IndexSurvives(rows: seq<Row>, labels: seq<Option<Split>>, i: nat)
    requires |rows| == |labels| && i < |rows| && labels[i].Some?
    ensures Labeled(rows[i], labels[i].value) in Kept(rows, labels)
  {
    var n := |rows| - 1;
    if i < n { IndexSurvives(rows[..n], labels[..n], i); }
  }

  /** How far apart two partitions are kept, in multiples of the gap. */
  function Separation(a: Split, b: Split): int {
    if a == b then 0 else if a == Train && b == Test then 4 else 2
  }

  predicate Before(a: Split, b: Split) { (a == Train && b != Train) || (a == Calibration && b == Test) }

  lemma {:induction false} KeptDistances(rows: seq<Row>, b1: int, b2: int, gap: int, x: Labeled)
    requires gap >= 0 && TimeOrdered(rows) && b1 < b2
    requires IsInnerStart(rows, b1) && IsInnerStart(rows, b2)
    requires x in Kept(rows, Labels(rows, b1, b2, gap))
    ensures var ts, t1, t2 := x.row.timestamp, rows[b1].timestamp, rows[b2].timestamp;
      match x.split
      case Train => t1 - ts > gap
      case Calibration => ts - t1 >= gap && t2 - ts > gap
      case Test => ts - t2 >= gap
  {
    var i := SurvivorHasIndex(rows, Labels(rows, b1, b2, gap), x);
    LabelDistances(rows, b1, b2, gap, i);
  }

  lemma {:induction false} KeptSeparated(rows: seq<Row>, b1: int, b2: int, gap: int, x: Labeled, c: Labeled, y: Labeled)
    requires gap >= 0 && TimeOrdered(rows) && b1 < b2
    requires IsInnerStart(rows, b1) && IsInnerStart(rows, b2)
    requires x in Kept(rows, Labels(rows, b1, b2, gap)) && y in Kept(rows, Labels(rows, b1, b2, gap))
    requires c in Kept(rows, Labels(rows, b1, b2, gap)) && c.split == Calibration
    requires Before(x.split, y.split)
    ensures y.row.timestamp - x.row.timestamp > Separation(x.split, y.split) * gap
  {
    KeptDistances(rows, b1, b2, gap, x);
    KeptDistances(rows, b1, b2, gap, y);
    KeptDistances(rows, b1, b2, gap, c);
  }

  /** Rows of an earlier partition are more than 2 gaps before the next partition, and training
      rows more than 4 gaps before test rows. */
  lemma {:induction false} PartitionsSeparated(
    frame: seq<Labeled>, rows: seq<Row>, c: Cuts, gap: int, x: Labeled, y: Labeled)
    requires gap >= 0 && TimeOrdered(rows) && IsSplit(frame, rows, c, gap)
    requires x in frame && y in frame && Before(x.split, y.split)
    ensures y.row.timestamp - x.row.timestamp > Separation(x.split, y.split) * gap
  {
    var k :| 0 <= k < |frame| && frame[k].split == Calibration;
    KeptSeparated(rows, Boundary1(rows, c), Boundary2(rows, c), gap, x, frame[k], y);
  }

  lemma {:induction false} LabelDistances(rows: seq<Row>, b1: int, b2: int, gap: int, i: nat)
    requires gap >= 0 && TimeOrdered(rows) && i < |rows| && b1 < b2
    requires IsInnerStart(rows, b1) && IsInnerStart(rows, b2)
    requires Label(rows, b1, b2, gap, i).Some?
    ensures var ts, t1, t2 := rows[i].timestamp, rows[b1].timestamp, rows[b2].timestamp;
      match Label(rows, b1, b2, gap, i).value
      case Train => t1 - ts > gap
      case Calibration => ts - t1 >= gap && t2 - ts > gap
      case Test => ts - t2 >= gap
  {
    if i < b1 {
      assert rows[i].timestamp <= rows[b1 - 1].timestamp < rows[b1].timestamp;
    } else if i < b2 {
      assert rows[i].timestamp <= rows[b2 - 1].timestamp < rows[b2].timestamp;
    }
  }

  /** From `gap` before a boundary's time up to, but not including, `gap` after it. */
  predicate Near(ts: int, boundary: int, gap: int) { gap > 0 && -gap <= ts - boundary < gap }

  lemma {:induction false} PurgedIffNear(rows: seq<Row>, b1: int, b2: int, gap: int, i: nat)
    requires TimeOrdered(rows) && i < |rows| && b1 < b2
    requires IsInnerStart(rows, b1) && IsInnerStart(rows, b2)
    ensures Label(rows, b1, b2, gap, i).None? <==>
      Near(rows[i].timestamp, rows[b1].timestamp, gap) || Near(rows[i].timestamp, rows[b2].timestamp, gap)
  {
    SideIsTime(rows, b1, i);
    SideIsTime(rows, b2, i);
    SideIsTime(rows, b2, b1);
  }

  /** A row survives exactly when it is near neither boundary in time: the gap costs no other row. */
  lemma {:induction false} SurvivesIffNotNear(frame: seq<Labeled>, rows: seq<Row>, c: Cuts, gap: int, r: Row)
    requires TimeOrdered(rows) && IsSplit(frame, rows, c, gap) && r in rows
    ensures (exists s: Split :: Labeled(r, s) in frame) <==>
      !Near(r.timestamp, rows[Boundary1(rows, c)].timestamp, gap)
        && !Near(r.timestamp, rows[Boundary2(rows, c)].timestamp, gap)
  {
    var b1, b2 := Boundary1(rows, c), Boundary2(rows, c);
    var labels := Labels(rows, b1, b2, gap);
    var i :| 0 <= i < |rows| && rows[i] == r;
    PurgedIffNear(rows, b1, b2, gap, i);
    if labels[i].Some? { IndexSurvives(rows, labels, i); }
    if s: Split :| Labeled(r, s) in frame {
      var j := SurvivorHasIndex(rows, labels, Labeled(r, s));
      PurgedIffNear(rows, b1, b2, gap, j);
    }
  }

  lemma {:induction false} GroupKept(rows: seq<Row>, b1: int, b2: int, gap: int, x: Labeled, r: Row)
    requires TimeOrdered(rows) && IsInnerStart(rows, b1) && IsInnerStart(rows, b2)
    requires x in Kept(rows, Labels(rows, b1, b2, gap)) && r in rows && r.timestamp == x.row.timestamp
    ensures Labeled(r, x.split) in Kept(rows, Labels(rows, b1, b2, gap))
  {
    var labels := Labels(rows, b1, b2, gap);
    var i := SurvivorHasIndex(rows, labels, x);
    var j :| 0 <= j < |rows| && rows[j] == r;
    SideIsTime(rows, b1, i);
    SideIsTime(rows, b1, j);
    SideIsTime(rows, b2, i);
    SideIsTime(rows, b2, j);
    IndexSurvives(rows, labels, j);
  }

  /** A timestamp group is never divided: whoever shares a survivor's timestamp survives with its label. */
  lemma {:induction false} GroupsStayTogether(
    frame: seq<Labeled>, rows: seq<Row>, c: Cuts, gap: int, x: Labeled, r: Row)
    requires TimeOrdered(rows) && IsSplit(frame, rows, c, gap)
    requires x in frame && r in rows && r.timestamp == x.row.timestamp
    ensures Labeled(r, x.split) in frame
  {
    GroupKept(rows, Boundary1(rows, c), Boundary2(rows, c), gap, x, r);
  }

  lemma {:induction false} SideIsTime(rows: seq<Row>, b: int, i: nat)
    requires TimeOrdered(rows) && IsInnerStart(rows, b) && i < |rows|
    ensures i < b <==> rows[i].timestamp < rows[b].timestamp
  {
    if i < b {
      assert rows[i].timestamp <= rows[b - 1].timestamp;
    }
  }

  /** How often r is among the rows, respectively among the rows of a frame. */
  function Occurs(rows: seq<Row>, r: Row): nat {
    if rows == [] then 0 else Occurs(rows[..|rows| - 1], r) + if rows[|rows| - 1] == r then 1 else 0
  }

  function OccursIn(frame: seq<Labeled>, r: Row): nat {
    if frame == [] then 0 else OccursIn(frame[..|frame| - 1], r) + if frame[|frame| - 1].row == r then 1 else 0
  }

  lemma {:induction false} OccursAppend(rows: seq<Row>, x: Row, r: Row)
    ensures Occurs(rows + [x], r) == Occurs(rows, r) + if x == r then 1 else 0
  {
    assert (rows + [x])[..|rows|] == rows;
  }

  lemma {:induction false} OccursInAppend(frame: seq<Labeled>, x: Labeled, r: Row)
    ensures OccursIn(frame + [x], r) == OccursIn(frame, r) + if x.row == r then 1 else 0
  {
    assert (frame + [x])[..|frame|] == frame;
  }

  lemma {:induction false} EachRowKeptOrPurged(rows: seq<Row>, labels: seq<Option<Split>>, r: Row)
    requires |rows| == |labels|
    ensures OccursIn(Kept(rows, labels), r) + Occurs(Purged(rows, labels), r) == Occurs(rows, r)
  {
    if rows != [] {
      var n := |rows| - 1;
      EachRowKeptOrPurged(rows[..n], labels[..n], r);
      if labels[n].Some? {
        OccursInAppend(Kept(rows[..n], labels[..n]), Labeled(rows[n], labels[n].value), r);
        assert Kept(rows, labels) == Kept(rows[..n], labels[..n]) + [Labeled(rows[n], labels[n].value)];
        assert Purged(rows, labels) == Purged(rows[..n], labels[..n]);
      } else {
        OccursAppend(Purged(rows[..n], labels[..n]), rows[n], r);
        assert Purged(rows, labels) == Purged(rows[..n], labels[..n]) + [rows[n]];
        assert Kept(rows, labels) == Kept(rows[..n], labels[..n]);
      }
    }
  }

  /** Every row occurs among the survivors and the purged rows exactly as often as in the input. */
  lemma {:induction false} NothingLost(frame: seq<Labeled>, rows: seq<Row>, c: Cuts, gap: int, r: Row)
    requires IsSplit(frame, rows, c, gap)
    ensures var purged := Purged(rows, Labels(rows, Boundary1(rows, c), Boundary2(rows, c), gap));
      OccursIn(frame, r) + Occurs(purged, r) == Occurs(rows, r)
  {
    EachRowKeptOrPurged(rows, Labels(rows, Boundary1(rows, c), Boundary2(rows, c), gap), r);
  }

  // ---- how near the boundaries are to the requested cuts ----

  /** No timestamp occurs more than g times. */
  ghost predicate GroupsAtMost(rows: seq<Row>, g: nat) {
    forall i :: 0 <= i && i + g < |rows| ==> rows[i].timestamp != rows[i + g].timestamp
  }

  lemma {:induction false} ChangeBetween(rows: seq<Row>, i: nat, j: nat) returns (s: nat)
    requires i < j < |rows| && rows[i].timestamp != rows[j].timestamp
    ensures i < s <= j && IsInnerStart(rows, s)
    decreases j
  {
    if rows[j - 1].timestamp != rows[j].timestamp { s := j; } else { s := ChangeBetween(rows, i, j - 1); }
  }

  /** Some inner start after `from` lies in every window of g positions. */
  lemma {:induction false} StartInWindow(rows: seq<Row>, g: nat, p: nat) returns (s: nat)
    requires GroupsAtMost(rows, g) && g > 0 && p + g < |rows|
    ensures p < s <= p + g && IsInnerStart(rows, s)
  {
    s := ChangeBetween(rows, p, p + g);
  }

  /** How far past the end a raw cut may lie, when the fractions sum to a little over one. */
  function Overshoot(raw: int, n: nat): nat { if raw > n then raw - n else 0 }

  lemma {:induction false} StartNear(rows: seq<Row>, g: nat, raw: int, after: nat, c: int) returns (s: nat)
    requires GroupsAtMost(rows, g) && g > 0
    requires c > after && IsInnerStart(rows, c)
    requires after <= raw
    ensures s > after && IsInnerStart(rows, s)
    ensures Abs(s - raw) <= g + Overshoot(raw, |rows|)
  {
    var n := |rows|;
    if raw + g < n {
      s := StartInWindow(rows, g, raw);
    } else if n - 1 - g >= after {
      s := StartInWindow(rows, g, n - 1 - g);
    } else {
      s := c;
    }
  }

  lemma {:induction false} TargetsOrdered(n: nat, f: Fractions, x: real, y: real)
    requires f.train >= 0.0 && f.calibration >= 0.0
    requires x == n as real * f.train && y == n as real * (f.train + f.calibration)
    ensures 0.0 <= x <= y
  {
    assert y - x == n as real * f.calibration >= 0.0;
  }

  lemma {:induction false} CutsAreRounds(n: nat, f: Fractions, x: real, y: real)
    requires x == n as real * f.train && y == n as real * (f.train + f.calibration)
    ensures CutsOf(n, f) == Cuts(Round(x), Round(y))
  {
  }

  lemma {:induction false} RoundMonotone(x: real, y: real)
    requires x <= y
    ensures Round(x) <= Round(y)
  {
  }

  lemma {:induction false} NearestBeats(candidates: seq<int>, raw: int, c: int)
    requires c in candidates
    ensures var r := Nearest(candidates, raw);
      Abs(r - raw) < Abs(c - raw) || (Abs(r - raw) == Abs(c - raw) && r <= c)
  {
    var n := |candidates| - 1;
    if n > 0 {
      var best := Nearest(candidates[..n], raw);
      if c in candidates[..n] {
        NearestBeats(candidates[..n], raw, c);
      } else {
        assert c == candidates[n];
      }
    }
  }

  lemma {:induction false} NearestWithin(candidates: seq<int>, raw: int, c: int, d: int)
    requires c in candidates && Abs(c - raw) <= d
    ensures Abs(Nearest(candidates, raw) - raw) <= d
  {
    NearestBeats(candidates, raw, c);
  }

  lemma {:induction false} InnerMember(rows: seq<Row>, i: int)
    ensures i in Inner(rows) <==> IsInnerStart(rows, i)
  {
    InnerStartsMembers(rows, |rows|);
  }

  lemma {:induction false} SomeStartNear(rows: seq<Row>, g: nat, raw: nat) returns (s: int)
    requires Inner(rows) != [] && GroupsAtMost(rows, g) && g > 0
    ensures s in Inner(rows) && Abs(s - raw) <= g + Overshoot(raw, |rows|)
  {
    InnerMember(rows, Inner(rows)[0]);
    s := StartNear(rows, g, raw, 0, Inner(rows)[0]);
    InnerMember(rows, s);
  }

  lemma {:induction false} NearestInnerIsNear(rows: seq<Row>, g: nat, raw: nat)
    requires Inner(rows) != [] && GroupsAtMost(rows, g) && g > 0
    ensures Abs(Nearest(Inner(rows), raw) - raw) <= g + Overshoot(raw, |rows|)
  {
    var s := SomeStartNear(rows, g, raw);
    NearestWithin(Inner(rows), raw, s, g + Overshoot(raw, |rows|));
  }

  lemma {:induction false} NearestLaterIsNear(rows: seq<Row>, g: nat, raw1: nat, raw2: nat, b1: nat)
    requires Inner(rows) != [] && GroupsAtMost(rows, g) && g > 0 && raw1 <= raw2
    requires b1 == Nearest(Inner(rows), raw1) && After(Inner(rows), b1) != []
    ensures Abs(Nearest(After(Inner(rows), b1), raw2) - raw2) <= 2 * g + Overshoot(raw2, |rows|)
  {
    NearestInnerIsNear(rows, g, raw1);
    var c := After(Inner(rows), b1)[0];
    AfterMembers(Inner(rows), b1, c);
    InnerMember(rows, b1);
    InnerMember(rows, c);
    var s := StartPast(rows, g, raw1, raw2, b1, c);
    InnerMember(rows, s);
    AfterMembers(Inner(rows), b1, s);
    NearestWithin(After(Inner(rows), b1), raw2, s, 2 * g + Overshoot(raw2, |rows|));
  }

  /** The first boundary is within one largest group of its raw cut, the second within two. */
  lemma {:induction false} BoundariesNearCuts(rows: seq<Row>, c: Cuts, g: nat)
    requires Placeable(rows, c) && 0 <= c.first <= c.second && GroupsAtMost(rows, g) && g > 0
    ensures Abs(Boundary1(rows, c) - c.first) <= g + Overshoot(c.first, |rows|)
    ensures Abs(Boundary2(rows, c) - c.second) <= 2 * g + Overshoot(c.second, |rows|)
  {
    assert 0 <= Boundary1(rows, c) by { BoundsInside(rows, c); }
    NearestInnerIsNear(rows, g, c.first);
    NearestLaterIsNear(rows, g, c.first, c.second, Boundary1(rows, c));
  }

  lemma {:induction false} StartPast(rows: seq<Row>, g: nat, raw1: nat, raw2: nat, b1: nat, c: int) returns (s: int)
    requires GroupsAtMost(rows, g) && g > 0
    requires c > b1 && IsInnerStart(rows, c)
    requires raw1 <= raw2 && b1 < |rows| && Abs(b1 - raw1) <= g + Overshoot(raw1, |rows|)
    ensures s > b1 && IsInnerStart(rows, s)
    ensures Abs(s - raw2) <= 2 * g + Overshoot(raw2, |rows|)
  {
    s := StartNear(rows, g, Max(raw2, b1), b1, c);
  }

  // ---- a split in terms of its rows, fractions and gap alone ----

  /** r is x rounded: at most a half away, and even when it is exactly a half. */
  ghost predicate IsRounded(r: int, x: real) {
    && -0.5 <= r as real - x <= 0.5
    && (r as real - x == 0.5 || x - r as real == 0.5 ==> r % 2 == 0)
  }

  lemma {:induction false} RoundIsRounded(x: real)
    ensures IsRounded(Round(x), x)
  {
    var rest := x - x.Floor as real;
    assert 0.0 <= rest < 1.0;
  }

  lemma {:induction false} RoundedUnique(r: int, x: real)
    requires IsRounded(r, x)
    ensures r == Round(x)
  {
    var below := x.Floor;
    assert below as real <= x < (below + 1) as real;
    assert r == below || r == below + 1;
  }

  /** The raw cuts are n times the training fraction, and n times the first two fractions, rounded. */
  lemma {:induction false} CutsAreRounded(n: nat, f: Fractions, x: real, y: real)
    requires x == n as real * f.train && y == n as real * (f.train + f.calibration)
    ensures IsRounded(CutsOf(n, f).first, x) && IsRounded(CutsOf(n, f).second, y)
  {
    CutsAreRounds(n, f, x, y);
    RoundIsRounded(x);
    RoundIsRounded(y);
  }

  /** b is the group start after `after` that is nearest to the cut; of two equally near ones the earlier. */
  ghost predicate IsNearestStart(b: int, rows: seq<Row>, after: int, cut: int) {
    && after < b < |rows| && b > 0 && rows[b].timestamp != rows[b - 1].timestamp
    && forall s :: after < s < |rows| && s > 0 && rows[s].timestamp != rows[s - 1].timestamp ==>
        var near, far := (if b >= cut then b - cut else cut - b), (if s >= cut then s - cut else cut - s);
        near < far || (near == far && b <= s)
  }

  /** Where a time belongs, given the two boundary times and the gap; None is purged. */
  function PlaceOf(ts: int, t1: int, t2: int, gap: int): Option<Split> {
    if gap > 0 && ((-gap <= ts - t1 < gap) || (-gap <= ts - t2 < gap)) then None
    else Some(if ts < t1 then Train else if ts < t2 then Calibration else Test)
  }

  /** The group starts nearest to the two cuts, and each row where its time puts it. */
  ghost predicate IsCutBy(
    frame: seq<Labeled>, rows: seq<Row>, gap: int, cut1: int, cut2: int, b1: int, b2: int) {
    && IsNearestStart(b1, rows, 0, cut1) && IsNearestStart(b2, rows, b1, cut2)
    && (forall r :: r in frame <==>
        r.row in rows && PlaceOf(r.row.timestamp, rows[b1].timestamp, rows[b2].timestamp, gap) == Some(r.split))
  }

  lemma {:induction false} NearestStart(rows: seq<Row>, candidates: seq<int>, after: int, cut: int)
    requires 0 <= after && candidates != []
    requires forall s :: s in candidates <==> IsInnerStart(rows, s) && s > after
    ensures IsNearestStart(Nearest(candidates, cut), rows, after, cut)
  {
    var b := Nearest(candidates, cut);
    forall s | after < s < |rows| && s > 0 && rows[s].timestamp != rows[s - 1].timestamp
      ensures Abs(b - cut) < Abs(s - cut) || (Abs(b - cut) == Abs(s - cut) && b <= s)
    {
      assert IsInnerStart(rows, s);
      NearestBeats(candidates, cut, s);
    }
  }

  lemma {:induction false} LabelIsPlace(rows: seq<Row>, b1: int, b2: int, gap: int, i: nat)
    requires TimeOrdered(rows) && i < |rows| && b1 < b2 && IsInnerStart(rows, b1) && IsInnerStart(rows, b2)
    ensures Label(rows, b1, b2, gap, i) == PlaceOf(rows[i].timestamp, rows[b1].timestamp, rows[b2].timestamp, gap)
  {
    PurgedIffNear(rows, b1, b2, gap, i);
    SideIsTime(rows, b1, i);
    SideIsTime(rows, b2, i);
  }

  lemma {:induction false} KeptIsPlaced(rows: seq<Row>, b1: int, b2: int, gap: int, x: Labeled)
    requires TimeOrdered(rows) && b1 < b2 && IsInnerStart(rows, b1) && IsInnerStart(rows, b2)
    ensures x in Kept(rows, Labels(rows, b1, b2, gap)) <==>
      x.row in rows && PlaceOf(x.row.timestamp, rows[b1].timestamp, rows[b2].timestamp, gap) == Some(x.split)
  {
    var labels := Labels(rows, b1, b2, gap);
    if x in Kept(rows, labels) {
      var i := SurvivorHasIndex(rows, labels, x);
      LabelIsPlace(rows, b1, b2, gap, i);
    }
    if x.row in rows && PlaceOf(x.row.timestamp, rows[b1].timestamp, rows[b2].timestamp, gap) == Some(x.split) {
      var i :| 0 <= i < |rows| && rows[i] == x.row;
      LabelIsPlace(rows, b1, b2, gap, i);
      IndexSurvives(rows, labels, i);
    }
  }

  lemma {:induction false} StartsAreNearest(rows: seq<Row>, c: Cuts)
    requires Placeable(rows, c)
    ensures IsNearestStart(Boundary1(rows, c), rows, 0, c.first)
    ensures IsNearestStart(Boundary2(rows, c), rows, Boundary1(rows, c), c.second)
  {
    var b1 := Boundary1(rows, c);
    BoundsInside(rows, c);
    forall s ensures s in Inner(rows) <==> IsInnerStart(rows, s) && s > 0 { InnerMember(rows, s); }
    NearestStart(rows, Inner(rows), 0, c.first);
    forall s ensures s in After(Inner(rows), b1) <==> IsInnerStart(rows, s) && s > b1 {
      AfterMembers(Inner(rows), b1, s);
    }
    NearestStart(rows, After(Inner(rows), b1), b1, c.second);
  }

  /** A successful split of time-ordered rows: they are cut at the group starts nearest to the two raw cuts. */
  lemma {:induction false} SplitMeans(frame: seq<Labeled>, rows: seq<Row>, c: Cuts, gap: int) returns (b1: int, b2: int)
    requires TimeOrdered(rows) && IsSplit(frame, rows, c, gap)
    ensures IsCutBy(frame, rows, gap, c.first, c.second, b1, b2)
  {
    b1, b2 := Boundary1(rows, c), Boundary2(rows, c);
    StartsAreNearest(rows, c);
    forall r ensures r in frame <==>
      r.row in rows && PlaceOf(r.row.timestamp, rows[b1].timestamp, rows[b2].timestamp, gap) == Some(r.split)
    {
      KeptIsPlaced(rows, b1, b2, gap, r);
    }
  }

  lemma {:induction false} RoundsOrdered(x: real, y: real)
    requires 0.0 <= x <= y
    ensures 0 <= Round(x) <= Round(y)
  {
    RoundMonotone(0.0, x);
    RoundMonotone(x, y);
  }

  /** And it leaves no partition empty. */
  lemma {:induction false} SplitHasAll(frame: seq<Labeled>, rows: seq<Row>, c: Cuts, gap: int)
    requires IsSplit(frame, rows, c, gap)
    ensures (exists r :: r in frame && r.split == Train) && (exists r :: r in frame && r.split == Calibration)
    ensures exists r :: r in frame && r.split == Test
  {
    HasSome(frame, Train);
    HasSome(frame, Calibration);
    HasSome(frame, Test);
  }

  lemma {:induction false} HasSome(frame: seq<Labeled>, s: Split)
    requires Has(frame, s)
    ensures exists x :: x in frame && x.split == s
  {
    var i :| 0 <= i < |frame| && frame[i].split == s;
    assert frame[i] in frame;
  }

  /** b is within d and a half of x, and of what the cut overshoots n. */
  predicate NearTarget(b: int, cut: int, x: real, d: int, n: int) {
    var reach := d as real + 0.5 + (if cut > n then cut - n else 0) as real;
    -reach <= b as real - x <= reach
  }

  /** With the raw cuts x and y rounded, the first boundary is within the largest group and a half of x, the second
      within twice the largest group and a half of y; a cut past the end adds its overshoot. */
  lemma {:induction false} BoundariesNearFractions(
    frame: seq<Labeled>, rows: seq<Row>, c: Cuts, gap: int, g: nat, x: real, y: real, b1: int, b2: int)
    requires IsSplit(frame, rows, c, gap) && IsCutBy(frame, rows, gap, c.first, c.second, b1, b2)
    requires GroupsAtMost(rows, g) && g > 0
    requires IsRounded(c.first, x) && IsRounded(c.second, y) && 0.0 <= x <= y
    ensures NearTarget(b1, c.first, x, g, |rows|) && NearTarget(b2, c.second, y, 2 * g, |rows|)
  {
    RoundedUnique(c.first, x);
    RoundedUnique(c.second, y);
    RoundsOrdered(x, y);
    StartsUnique(rows, c, b1, b2);
    BoundariesNearCuts(rows, c, g);
    NearRounded(b1, c.first, x, g, |rows|);
    NearRounded(b2, c.second, y, 2 * g, |rows|);
  }

  lemma {:induction false} NearRounded(b: int, cut: int, x: real, d: int, n: nat)
    requires -0.5 <= cut as real - x <= 0.5 && Abs(b - cut) <= d + Overshoot(cut, n)
    ensures NearTarget(b, cut, x, d, n)
  {
  }

  /** There is only one nearest group start. */
  lemma {:induction false} StartsUnique(rows: seq<Row>, c: Cuts, b1: int, b2: int)
    requires Placeable(rows, c)
    requires IsNearestStart(b1, rows, 0, c.first) && IsNearestStart(b2, rows, b1, c.second)
    ensures b1 == Boundary1(rows, c) && b2 == Boundary2(rows, c)
  {
    StartsAreNearest(rows, c);
  }

  /** Some row's time puts it in the partition. */
  ghost predicate SomePlaced(rows: seq<Row>, b1: int, b2: int, gap: int, s: Split)
    requires 0 <= b1 < |rows| && 0 <= b2 < |rows|
  {
    exists r :: r in rows && PlaceOf(r.timestamp, rows[b1].timestamp, rows[b2].timestamp, gap) == Some(s)
  }

  /** With both boundaries placed, the split is refused exactly for an empty partition, naming the first one, or for
      purging every row. */
  lemma {:induction false} PartitionErrorsMean(rows: seq<Row>, c: Cuts, gap: int)
    requires TimeOrdered(rows) && Placeable(rows, c)
    ensures var b1, b2, r := Boundary1(rows, c), Boundary2(rows, c), SplitAt(rows, c, gap);
      && 0 < b1 < |rows| && 0 < b2 < |rows|
      && var train, calibration := SomePlaced(rows, b1, b2, gap, Train), SomePlaced(rows, b1, b2, gap, Calibration);
         var test := SomePlaced(rows, b1, b2, gap, Test);
      && (r == Failure(AllPurged) <==> !train && !calibration && !test)
      && (r == Failure(EmptyPartition(Train)) <==> !train && (calibration || test))
      && (r == Failure(EmptyPartition(Calibration)) <==> train && !calibration)
      && (r == Failure(EmptyPartition(Test)) <==> train && calibration && !test)
      && (r.Success? <==> train && calibration && test)
  {
    BoundsInside(rows, c);
    var b1, b2 := Boundary1(rows, c), Boundary2(rows, c);
    var kept := Kept(rows, Labels(rows, b1, b2, gap));
    HasIffPlaced(rows, b1, b2, gap, Train);
    HasIffPlaced(rows, b1, b2, gap, Calibration);
    HasIffPlaced(rows, b1, b2, gap, Test);
    assert SplitAt(rows, c, gap) == NonEmptyPartitions(kept);
    assert kept == [] <==> !Has(kept, Train) && !Has(kept, Calibration) && !Has(kept, Test) by {
      if kept != [] {
        assert kept[0].split == Train || kept[0].split == Calibration || kept[0].split == Test;
      }
    }
  }

  lemma {:induction false} HasIffPlaced(rows: seq<Row>, b1: int, b2: int, gap: int, s: Split)
    requires TimeOrdered(rows) && b1 < b2 && IsInnerStart(rows, b1) && IsInnerStart(rows, b2)
    ensures Has(Kept(rows, Labels(rows, b1, b2, gap)), s) <==> SomePlaced(rows, b1, b2, gap, s)
  {
    var kept := Kept(rows, Labels(rows, b1, b2, gap));
    if Has(kept, s) {
      var i :| 0 <= i < |kept| && kept[i].split == s;
      KeptIsPlaced(rows, b1, b2, gap, kept[i]);
      assert kept[i] in kept;
    }
    if SomePlaced(rows, b1, b2, gap, s) {
      var r :| r in rows && PlaceOf(r.timestamp, rows[b1].timestamp, rows[b2].timestamp, gap) == Some(s);
      KeptIsPlaced(rows, b1, b2, gap, Labeled(r, s));
      var i :| 0 <= i < |kept| && kept[i] == Labeled(r, s);
    }
  }

  lemma {:induction false} OneGroupIff(rows: seq<Row>)
    ensures Inner(rows) == [] <==> forall i :: 0 < i < |rows| ==> rows[i].timestamp == rows[i - 1].timestamp
  {
    InnerStartsMembers(rows, |rows|);
    if Inner(rows) == [] {
      forall i | 0 < i < |rows| ensures rows[i].timestamp == rows[i - 1].timestamp { assert i !in Inner(rows); }
    } else {
      assert Inner(rows)[0] in Inner(rows);
    }
  }

  /** The fractions sum to one, up to a millionth, and none is negative. */
  predicate FractionsFine(f: Fractions) {
    -0.000001 <= f.train + f.calibration + f.test - 1.0 <= 0.000001
    && f.train >= 0.0 && f.calibration >= 0.0 && f.test >= 0.0
  }

  /** Which error, in the order the code looks. */
  lemma {:induction false} ErrorsMean(rows: seq<Row>, f: Fractions, gap: int)
    ensures var r, sum := SplitSorted(rows, f, gap), f.train + f.calibration + f.test;
      && (r == Failure(EmptyFrame) <==> rows == [])
      && (r == Failure(FractionsDoNotSum) <==> rows != [] && !(-0.000001 <= sum - 1.0 <= 0.000001))
      && (r == Failure(NegativeFraction) <==>
          rows != [] && -0.000001 <= sum - 1.0 <= 0.000001 && !FractionsFine(f))
      && (r == Failure(TooFewGroups) <==>
          rows != [] && FractionsFine(f) && forall i :: 0 < i < |rows| ==> rows[i].timestamp == rows[i - 1].timestamp)
  {
    OneGroupIff(rows);
  }

  // ---- when the second boundary cannot be placed ----

  ghost predicate Increasing(s: seq<int>) { forall i, j :: 0 <= i < j < |s| ==> s[i] < s[j] }

  lemma {:induction false} NothingAfterLast(inner: seq<int>, b: int)
    requires inner != [] && Increasing(inner) && b in inner
    ensures After(inner, b) == [] <==> b == inner[|inner| - 1]
  {
    var last := inner[|inner| - 1];
    AfterMembers(inner, b, last);
    if After(inner, b) != [] {
      AfterMembers(inner, b, After(inner, b)[0]);
    }
  }

  lemma {:induction false} NearestIsLast(inner: seq<int>, raw: int)
    requires inner != [] && Increasing(inner)
    ensures Nearest(inner, raw) == inner[|inner| - 1] <==>
      |inner| == 1 || 2 * raw > inner[|inner| - 2] + inner[|inner| - 1]
  {
    var b, last := Nearest(inner, raw), inner[|inner| - 1];
    var k :| 0 <= k < |inner| && inner[k] == b;
    if |inner| > 1 {
      var previous := inner[|inner| - 2];
      NearestBeats(inner, raw, previous);
      NearestBeats(inner, raw, last);
      if b != last { assert b <= previous; }
    }
  }

  /** The split is refused for want of a second boundary exactly when there are two groups, or the
      first cut lies beyond the middle of the last two group starts - whatever the number of groups. */
  lemma {:induction false} NoSecondBoundaryIff(rows: seq<Row>, c: Cuts, gap: int)
    requires Inner(rows) != []
    ensures var inner := Inner(rows);
      SplitAt(rows, c, gap) == Failure(NoSecondBoundary)
      <==> |inner| == 1 || 2 * c.first > inner[|inner| - 2] + inner[|inner| - 1]
  {
    InnerStartsMembers(rows, |rows|);
    NothingAfterLast(Inner(rows), Boundary1(rows, c));
    NearestIsLast(Inner(rows), c.first);
  }

  /** Three timestamp groups are not enough to guarantee a split. */
  lemma {:induction false} ThreeGroupsRefused(gap: int)
    ensures var rows := [Row(0, 1), Row(1, 2), Row(2, 3)];
      && |Inner(rows)| == 2
      && SplitSorted(rows, Fractions(0.8, 0.1, 0.1), gap) == Failure(NoSecondBoundary)
  {
    var rows, f := [Row(0, 1), Row(1, 2), Row(2, 3)], Fractions(0.8, 0.1, 0.1);
    assert InnerStarts(rows, 1) == [] && InnerStarts(rows, 2) == [1] && InnerStarts(rows, 3) == [1, 2];
    assert CutsOf(3, f).first == 2;
    NoSecondBoundaryIff(rows, CutsOf(3, f), gap);
  }
}
