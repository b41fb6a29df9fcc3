/** Which row belongs to which partition, and the guard that keeps calibration off the others. */
module Calibration {
  import opened Common
  import opened Splits
  import opened SplitFacts

  datatype SplitManifest = SplitManifest(train: set<nat>, calibration: set<nat>, purge: set<nat>, test: set<nat>)

  predicate PairwiseDisjoint(m: SplitManifest) {
    && m.train !! m.calibration && m.train !! m.purge && m.train !! m.test
    && m.calibration !! m.purge && m.calibration !! m.test && m.purge !! m.test
  }

  /** Construction refuses overlapping partitions. */
  function MakeManifest(m: SplitManifest): Option<SplitManifest> { if PairwiseDisjoint(m) then Some(m) else None }

  function IdsOf(frame: seq<Labeled>, split: Split): set<nat> { set x | x in frame && x.split == split :: x.row.id }

  function AllIds(rows: seq<Row>): set<nat> { set r | r in rows :: r.id }

  /** How training builds the manifest from the split frame: whoever is in no partition was purged. */
  function ManifestFields(frame: seq<Labeled>, allIds: set<nat>): SplitManifest {
    var train, calibration, test := IdsOf(frame, Train), IdsOf(frame, Calibration), IdsOf(frame, Test);
    SplitManifest(train, calibration, allIds - train - calibration - test, test)
  }

  datatype FitOutcome = FitRuns | LengthMismatch | OutsideCalibration(ids: set<nat>) | TouchesForbidden(ids: set<nat>)

  /** The guard in front of calibrator fitting. */
  function FitGuard(rowIds: seq<nat>, probabilities: nat, labels: nat, m: SplitManifest): FitOutcome {
    if |rowIds| != probabilities || |rowIds| != labels then LengthMismatch
    else
      var supplied := ToSet(rowIds);
      if supplied - m.calibration != {} then OutsideCalibration(supplied - m.calibration)
      else if supplied * (m.train + m.purge + m.test) != {} then
        TouchesForbidden(supplied * (m.train + m.purge + m.test))
      else FitRuns
  }

  /** With a constructible manifest, fitting runs exactly on calibration rows; the second check never fires. */
  lemma {:induction false} GuardIsExact(rowIds: seq<nat>, n: nat, m: SplitManifest)
    requires MakeManifest(m).Some? && n == |rowIds|
    ensures FitGuard(rowIds, n, n, m) == FitRuns <==> forall i :: i in rowIds ==> i in m.calibration
    ensures !FitGuard(rowIds, n, n, m).TouchesForbidden?
  {
    if forall i :: i in rowIds ==> i in m.calibration {
      assert ToSet(rowIds) - m.calibration == {};
    }
    if FitGuard(rowIds, n, n, m) == FitRuns {
      assert forall i :: i in ToSet(rowIds) && i !in m.calibration ==> i in ToSet(rowIds) - m.calibration;
      forall i | i in rowIds ensures i in m.calibration {
        assert i in ToSet(rowIds);
      }
    }
  }

  /** Every outcome of the guard, for any manifest: which ids it names, and when it names them. */
  lemma {:induction false} GuardMeans(rowIds: seq<nat>, probabilities: nat, labels: nat, m: SplitManifest, id: nat)
    ensures var r := FitGuard(rowIds, probabilities, labels, m);
      && (r == LengthMismatch <==> |rowIds| != probabilities || |rowIds| != labels)
      && (r.OutsideCalibration? ==> (id in r.ids <==> id in rowIds && id !in m.calibration))
      && (r.OutsideCalibration? <==> r != LengthMismatch && exists i :: i in rowIds && i !in m.calibration)
      && (r.TouchesForbidden? ==>
          (id in r.ids <==> id in rowIds && (id in m.train || id in m.purge || id in m.test)))
      && (r.TouchesForbidden? <==>
          && r != LengthMismatch && (forall i :: i in rowIds ==> i in m.calibration)
          && exists i :: i in rowIds && (i in m.train || i in m.purge || i in m.test))
  {
    var outside, forbidden := ToSet(rowIds) - m.calibration, ToSet(rowIds) * (m.train + m.purge + m.test);
    assert forall i :: i in outside <==> i in rowIds && i !in m.calibration;
    assert forall i :: i in forbidden <==> i in rowIds && (i in m.train || i in m.purge || i in m.test);
  }

  ghost predicate IdsUnique(rows: seq<Row>) {
    forall i, j :: 0 <= i < j < |rows| ==> rows[i].id != rows[j].id
  }

  lemma {:induction false} OneLabelPerId(rows: seq<Row>, labels: seq<Option<Split>>, x: Labeled, y: Labeled)
    requires |rows| == |labels| && IdsUnique(rows)
    requires x in Kept(rows, labels) && y in Kept(rows, labels) && x.row.id == y.row.id
    ensures x == y
  {
    var i := SurvivorHasIndex(rows, labels, x);
    var j := SurvivorHasIndex(rows, labels, y);
    assert i == j;
  }

  lemma {:induction false} SplitsDisjoint(rows: seq<Row>, labels: seq<Option<Split>>, a: Split, b: Split)
    requires |rows| == |labels| && IdsUnique(rows) && a != b
    ensures IdsOf(Kept(rows, labels), a) !! IdsOf(Kept(rows, labels), b)
  {
    forall x, y | x in Kept(rows, labels) && y in Kept(rows, labels) && x.split == a && y.split == b
      ensures x.row.id != y.row.id
    {
      if x.row.id == y.row.id { OneLabelPerId(rows, labels, x, y); }
    }
  }

  lemma {:induction false} SurvivorsAreRows(rows: seq<Row>, labels: seq<Option<Split>>, a: Split)
    requires |rows| == |labels|
    ensures IdsOf(Kept(rows, labels), a) <= AllIds(rows)
  {
    forall x | x in Kept(rows, labels) ensures x.row.id in AllIds(rows) {
      var i := SurvivorHasIndex(rows, labels, x);
    }
  }

  lemma {:induction false} ManifestOfKept(rows: seq<Row>, labels: seq<Option<Split>>)
    requires |rows| == |labels| && IdsUnique(rows)
    ensures var m := ManifestFields(Kept(rows, labels), AllIds(rows));
      MakeManifest(m).Some? && m.train + m.calibration + m.purge + m.test == AllIds(rows)
  {
    SplitsDisjoint(rows, labels, Train, Calibration);
    SplitsDisjoint(rows, labels, Train, Test);
    SplitsDisjoint(rows, labels, Calibration, Test);
    SurvivorsAreRows(rows, labels, Train);
    SurvivorsAreRows(rows, labels, Calibration);
    SurvivorsAreRows(rows, labels, Test);
  }

  /** The manifest of any successful split over unique ids can be constructed, covers exactly the
      input ids, and lets calibration be fitted on the calibration partition and on nothing else. */
  lemma {:induction false} SplitManifestIsSound(frame: seq<Labeled>, rows: seq<Row>, c: Cuts, gap: int, id: nat)
    requires IdsUnique(rows) && IsSplit(frame, rows, c, gap)
    ensures var m := ManifestFields(frame, AllIds(rows));
      && MakeManifest(m).Some?
      && m.train + m.calibration + m.purge + m.test == AllIds(rows)
      && (FitGuard([id], 1, 1, m) == FitRuns <==> id in IdsOf(frame, Calibration))
  {
    ManifestOfKept(rows, Labels(rows, Boundary1(rows, c), Boundary2(rows, c), gap));
    var m := ManifestFields(frame, AllIds(rows));
    GuardIsExact([id], 1, m);
    assert forall i :: i in [id] <==> i == id;
  }

  /** Which id is in which set of the manifest, and whom fitting accepts. */
  lemma {:induction false} ManifestMeans(frame: seq<Labeled>, rows: seq<Row>, id: nat)
    ensures var m := ManifestFields(frame, AllIds(rows));
      && (id in m.train <==> exists x :: x in frame && x.row.id == id && x.split == Train)
      && (id in m.calibration <==> exists x :: x in frame && x.row.id == id && x.split == Calibration)
      && (id in m.test <==> exists x :: x in frame && x.row.id == id && x.split == Test)
      && (id in m.purge <==> (exists r :: r in rows && r.id == id) && !exists x :: x in frame && x.row.id == id)
  {
    var m := ManifestFields(frame, AllIds(rows));
    if x :| x in frame && x.row.id == id { assert x.split == Train || x.split == Calibration || x.split == Test; }
  }

  /** A manifest can be constructed exactly when no id is in two of its sets. */
  lemma {:induction false} ManifestRefusedIff(m: SplitManifest)
    ensures MakeManifest(m) == None <==> exists id ::
      || (id in m.train && (id in m.calibration || id in m.purge || id in m.test))
      || (id in m.calibration && (id in m.purge || id in m.test)) || (id in m.purge && id in m.test)
    ensures MakeManifest(m).Some? ==> MakeManifest(m).value == m
  {
  }

  // ---- realized fractions ----

  function CountSplit(frame: seq<Labeled>, split: Split): nat {
    if frame == [] then 0
    else CountSplit(frame[..|frame| - 1], split) + if frame[|frame| - 1].split == split then 1 else 0
  }

  function RealizedFraction(frame: seq<Labeled>, split: Split): real {
    if frame == [] then 0.0 else CountSplit(frame, split) as real / |frame| as real
  }

  /** The positions of a frame that carry a label. */
  function Positions(frame: seq<Labeled>, split: Split): set<nat> {
    set i | 0 <= i < |frame| && frame[i].split == split
  }

  lemma {:induction false} CountIsPositions(frame: seq<Labeled>, split: Split)
    ensures CountSplit(frame, split) == |Positions(frame, split)|
  {
    if frame != [] {
      var n := |frame| - 1;
      CountIsPositions(frame[..n], split);
      assert Positions(frame, split) == Positions(frame[..n], split) + if frame[n].split == split then {n} else {};
    }
  }

  /** A realised fraction is the share of the surviving rows with that label. */
  lemma {:induction false} FractionMeans(frame: seq<Labeled>, split: Split)
    ensures RealizedFraction(frame, split)
      == if frame == [] then 0.0 else |Positions(frame, split)| as real / |frame| as real
  {
    CountIsPositions(frame, split);
  }

  lemma {:induction false} CountsAddUp(frame: seq<Labeled>)
    ensures CountSplit(frame, Train) + CountSplit(frame, Calibration) + CountSplit(frame, Test) == |frame|
  {
    if frame != [] { CountsAddUp(frame[..|frame| - 1]); }
  }

  lemma {:induction false} SharesOfWhole(a: real, b: real, c: real, n: real)
    requires n > 0.0 && a + b + c == n
    ensures a / n + b / n + c / n == 1.0
  {
    var u := 1.0 / n;
    assert a / n == a * u && b / n == b * u && c / n == c * u;
    assert a * u + b * u + c * u == (a + b + c) * u;
  }

  /** The realized fractions of a non-empty frame sum to one. */
  lemma {:induction false} FractionsAddUp(frame: seq<Labeled>)
    requires frame != []
    ensures RealizedFraction(frame, Train) + RealizedFraction(frame, Calibration) + RealizedFraction(frame, Test) == 1.0
  {
    CountsAddUp(frame);
    SharesOfWhole(
      CountSplit(frame, Train) as real, CountSplit(frame, Calibration) as real, CountSplit(frame, Test) as real,
      |frame| as real);
  }
}
