/** Evaluation of one channel over its resolved source alerts. */
module Evaluation {
  import opened Common
  import opened Sorting
  import opened Ranking

  datatype Outcome = Outcome(
    sourceAlertId: nat, timestamp: int, score: real, baselineScore: real, band: Band, fraud: bool)

  datatype Tally = Tally(alerts: nat, fraud: nat)

  datatype Confusion = Confusion(tp: nat, fp: nat, fn: nat, tn: nat)

  datatype ChannelEvaluation = ChannelEvaluation(
    total: nat, totalFraud: nat, totalLegitimate: nat,
    precision: MetricValue, recall: MetricValue, accuracy: MetricValue,
    confusion: Confusion, perBand: map<Band, Tally>,
    alertsReviewed: nat, fraudCaptured: nat,
    precisionAtCapacity: MetricValue, recallAtCapacity: MetricValue,
    minimumAlerts: Option<nat>, workloadReduction: MetricValue, falsePositiveReduction: MetricValue,
    baselinePrecisionAtCapacity: MetricValue, baselineRecallAtCapacity: MetricValue)

  datatype EvaluationError = BadRecallTarget

  function ModelRow(o: Outcome): ScoredRow { ScoredRow(o.sourceAlertId, o.timestamp, o.score, o.fraud) }

  function BaselineRow(o: Outcome): ScoredRow { ScoredRow(o.sourceAlertId, o.timestamp, o.baselineScore, o.fraud) }

  function ModelRows(outcomes: seq<Outcome>): (rows: seq<ScoredRow>)
    ensures |rows| == |outcomes|
  {
    seq(|outcomes|, i requires 0 <= i < |outcomes| => ModelRow(outcomes[i]))
  }

  function BaselineRows(outcomes: seq<Outcome>): (rows: seq<ScoredRow>)
    ensures |rows| == |outcomes|
  {
    seq(|outcomes|, i requires 0 <= i < |outcomes| => BaselineRow(outcomes[i]))
  }

  function FraudCount(outcomes: seq<Outcome>): nat { FraudIn(ModelRows(outcomes)) }

  /** Rows predicted positive or not - flagged MEDIUM or HIGH - and fraud or not. */
  function Cell(outcomes: seq<Outcome>, flagged: bool, fraud: bool): nat {
    if outcomes == [] then 0
    else
      var o := outcomes[|outcomes| - 1];
      Cell(outcomes[..|outcomes| - 1], flagged, fraud) + if (o.band != LOW) == flagged && o.fraud == fraud then 1 else 0
  }

  function BandTally(outcomes: seq<Outcome>, band: Band): Tally {
    if outcomes == [] then Tally(0, 0)
    else
      var o, t := outcomes[|outcomes| - 1], BandTally(outcomes[..|outcomes| - 1], band);
      if o.band != band then t else Tally(t.alerts + 1, t.fraud + if o.fraud then 1 else 0)
  }

  method PerBandCounts(outcomes: seq<Outcome>) returns (counts: map<Band, Tally>)
    ensures counts.Keys == {LOW, MEDIUM, HIGH}
    ensures forall b :: b in counts ==> counts[b] == BandTally(outcomes, b)
  {
    counts := map[LOW := Tally(0, 0), MEDIUM := Tally(0, 0), HIGH := Tally(0, 0)];
    for i := 0 to |outcomes|
      invariant counts.Keys == {LOW, MEDIUM, HIGH}
      invariant forall b :: b in counts ==> counts[b] == BandTally(outcomes[..i], b)
    {
      TakeNext(outcomes, i);
      var o := outcomes[i];
      assert o.band in counts by { assert o.band == LOW || o.band == MEDIUM || o.band == HIGH; }
      var t := counts[o.band];
      counts := counts[o.band := Tally(t.alerts + 1, if o.fraud then t.fraud + 1 else t.fraud)];
    }
    assert outcomes[..|outcomes|] == outcomes;
  }

  /** The four confusion cells split the population and agree with the per-band counts. */
  lemma {:induction false} CellsAgreeWithBands(outcomes: seq<Outcome>)
    ensures var tp, fp := Cell(outcomes, true, true), Cell(outcomes, true, false);
      var fn, tn := Cell(outcomes, false, true), Cell(outcomes, false, false);
      var low, medium, high := BandTally(outcomes, LOW), BandTally(outcomes, MEDIUM), BandTally(outcomes, HIGH);
      && tp + fp + fn + tn == |outcomes|
      && tp + fn == FraudCount(outcomes)
      && tp == medium.fraud + high.fraud && tp + fp == medium.alerts + high.alerts
      && fn == low.fraud && fn + tn == low.alerts
  {
    if outcomes != [] {
      CellsAgreeWithBands(outcomes[..|outcomes| - 1]);
      assert ModelRows(outcomes)[..|outcomes| - 1] == ModelRows(outcomes[..|outcomes| - 1]);
    }
  }

  lemma {:induction false} RankedFraud(outcomes: seq<Outcome>)
    ensures FraudIn(Rank(ModelRows(outcomes))) == FraudCount(outcomes)
  {
    RankKeepsFraud(ModelRows(outcomes));
  }

  function Ratio(a: nat, b: nat): MetricValue {
    if b == 0 then NonComputable(SingleClass) else Ok(a as real / b as real)
  }

  function OneMinusRatio(a: nat, b: nat): MetricValue {
    if b == 0 then NonComputable(SingleClass) else Ok(1.0 - a as real / b as real)
  }

  /** precision@capacity and recall@capacity of a review that caught `captured` of the fraud. */
  function AtCapacity(total: nat, totalFraud: nat, reviewed: nat, captured: nat): (MetricValue, MetricValue) {
    if total == 0 then (NonComputable(Empty), NonComputable(Empty))
    else if totalFraud == 0 then (if reviewed > 0 then Ok(0.0) else NonComputable(Empty), NonComputable(SingleClass))
    else if reviewed == 0 then (NonComputable(Empty), NonComputable(Empty))
    else (Ok(captured as real / reviewed as real), Ok(captured as real / totalFraud as real))
  }

  /** The confusion part of a result: exact counts on two-class input, all zero otherwise. */
  ghost predicate ConfusionOk(r: ChannelEvaluation, outcomes: seq<Outcome>) {
    var twoClass := 0 < r.totalFraud < r.total;
    var c := r.confusion;
    && (twoClass ==> c == Confusion(Cell(outcomes, true, true), Cell(outcomes, true, false),
                                    Cell(outcomes, false, true), Cell(outcomes, false, false)))
    && (!twoClass ==> c == Confusion(0, 0, 0, 0))
    && (twoClass ==> r.precision == Ratio(c.tp, c.tp + c.fp) && r.recall == Ratio(c.tp, c.tp + c.fn)
                     && r.accuracy == Ratio(c.tp + c.tn, r.total))
    && (!twoClass ==>
        r.precision == r.recall == r.accuracy == NonComputable(if r.total == 0 then Empty else SingleClass))
  }

  /** The per-band counts, and what they promise about the confusion cells. */
  ghost predicate BandsOk(r: ChannelEvaluation, outcomes: seq<Outcome>) {
    && r.perBand.Keys == {LOW, MEDIUM, HIGH}
    && (forall b :: b in r.perBand ==> r.perBand[b] == BandTally(outcomes, b))
  }

  /** The ranked-review part of a result. */
  ghost predicate ReviewOk(r: ChannelEvaluation, outcomes: seq<Outcome>, c: Capacity, target: real) {
    var ranked := Rank(ModelRows(outcomes));
    && r.alertsReviewed == ResolveCapacityCount(c, r.total) <= |ranked|
    && r.fraudCaptured == FraudIn(ranked[..r.alertsReviewed])
    && (r.precisionAtCapacity, r.recallAtCapacity)
        == AtCapacity(r.total, r.totalFraud, r.alertsReviewed, r.fraudCaptured)
    && (r.totalFraud == 0 ==> r.minimumAlerts == None && r.workloadReduction == NonComputable(SingleClass))
    && (r.totalFraud > 0 ==> r.minimumAlerts.Some? && IsMinimum(r.minimumAlerts, ranked, r.totalFraud, target)
                             && r.workloadReduction == OneMinusRatio(r.minimumAlerts.value, r.total))
  }

  /** The same review, ranked by the rules-only score; only two-class input has one. */
  ghost predicate BaselineOk(r: ChannelEvaluation, outcomes: seq<Outcome>) {
    var ranked := Rank(BaselineRows(outcomes));
    var guard := NonComputable(if r.total == 0 then Empty else SingleClass);
    && r.alertsReviewed <= |ranked|
    && (r.baselinePrecisionAtCapacity, r.baselineRecallAtCapacity)
       == if 0 < r.totalFraud < r.total
          then AtCapacity(r.total, r.totalFraud, r.alertsReviewed, FraudIn(ranked[..r.alertsReviewed]))
          else (guard, guard)
  }

  ghost predicate TotalsOk(r: ChannelEvaluation, outcomes: seq<Outcome>) {
    r.total == |outcomes| && r.totalFraud == FraudCount(outcomes) && r.totalLegitimate == r.total - r.totalFraud
  }

  ghost predicate IsEvaluation(r: ChannelEvaluation, outcomes: seq<Outcome>, c: Capacity, target: real) {
    && TotalsOk(r, outcomes)
    && ConfusionOk(r, outcomes) && BandsOk(r, outcomes)
    && ReviewOk(r, outcomes, c, target) && BaselineOk(r, outcomes)
    && r.falsePositiveReduction == OneMinusRatio(Cell(outcomes, true, false), r.totalLegitimate)
  }

  /** The least review volume for the target, which with some fraud always exists. */
  method MinimumReview(outcomes: seq<Outcome>, ranked: seq<ScoredRow>, totalFraud: nat, target: real)
    returns (minimum: Option<nat>, workload: MetricValue)
    requires ranked == Rank(ModelRows(outcomes)) && totalFraud == FraudCount(outcomes) > 0 && target <= 1.0
    ensures minimum.Some? && IsMinimum(minimum, ranked, totalFraud, target)
    ensures workload == OneMinusRatio(minimum.value, |outcomes|)
  {
    minimum := MinimumAlertsForRecallTarget(ranked, totalFraud, target);
    workload := if minimum.None? then NonComputable(UnreachableTarget) else OneMinusRatio(minimum.value, |outcomes|);
    RankedFraud(outcomes);
    TargetIsReachable(ranked, target, minimum);
  }

  method EvaluateChannel(
    outcomes: seq<Outcome>, c: Capacity, target: real) returns (r: Result<ChannelEvaluation, EvaluationError>)
    requires c.Valid()
    ensures r.Success? <==> 0.0 < target <= 1.0
    ensures r.Success? ==> IsEvaluation(r.value, outcomes, c, target)
    ensures r.Success? ==> IsReviewSize(r.value.alertsReviewed, c, |outcomes|)
  {
    ResolvesToReviewSize(c, |outcomes|);
    if !(0.0 < target <= 1.0) { return Failure(BadRecallTarget); }
    var total, totalFraud := |outcomes|, FraudCount(outcomes);
    var twoClass := total > 0 && 0 < totalFraud < total;
    var ranked := Rank(ModelRows(outcomes));
    var reviewed := ResolveCapacityCount(c, total);
    var captured := FraudIn(ranked[..reviewed]);

    var guard := NonComputable(if total == 0 then Empty else SingleClass);
    var precision, recall, accuracy, confusion := guard, guard, guard, Confusion(0, 0, 0, 0);
    var fp := Cell(outcomes, true, false);
    CellsAgreeWithBands(outcomes);
    if twoClass {
      confusion := Confusion(Cell(outcomes, true, true), fp, Cell(outcomes, false, true), Cell(outcomes, false, false));
      precision := Ratio(confusion.tp, confusion.tp + confusion.fp);
      recall := Ratio(confusion.tp, confusion.tp + confusion.fn);
      accuracy := Ratio(confusion.tp + confusion.tn, total);
    }
    var perBand := PerBandCounts(outcomes);
    var atCapacity := AtCapacity(total, totalFraud, reviewed, captured);

    var minimum, workload := None, NonComputable(SingleClass);
    if totalFraud > 0 {
      minimum, workload := MinimumReview(outcomes, ranked, totalFraud, target);
    }
    var fpReduction := OneMinusRatio(fp, total - totalFraud);

    var baseline := (guard, guard);
    if twoClass {
      var baselineRanked := Rank(BaselineRows(outcomes));
      baseline := AtCapacity(total, totalFraud, reviewed, FraudIn(baselineRanked[..reviewed]));
    }
    r := Success(ChannelEvaluation(
      total, totalFraud, total - totalFraud, precision, recall, accuracy, confusion, perBand,
      reviewed, captured, atCapacity.0, atCapacity.1, minimum, workload, fpReduction, baseline.0, baseline.1));
  }

  // ---- what an evaluation tells its reader ----

  /** a / b, where b is known to be positive. */
  predicate IsRate(m: MetricValue, a: int, b: int) { b > 0 && m == Ok(a as real / b as real) }

  predicate IsRestRate(m: MetricValue, a: int, b: int) { b > 0 && m == Ok(1.0 - a as real / b as real) }

  /** On two-class input each rate is the quotient its name says. */
  ghost predicate RatesNamed(r: ChannelEvaluation, baselineCaptured: nat) {
    var m := r.confusion;
    && (if m.tp + m.fp > 0 then IsRate(r.precision, m.tp, m.tp + m.fp) else r.precision == NonComputable(SingleClass))
    && IsRate(r.recall, m.tp, r.totalFraud) && IsRate(r.accuracy, m.tp + m.tn, r.total)
    && IsRate(r.precisionAtCapacity, r.fraudCaptured, r.alertsReviewed)
    && IsRate(r.recallAtCapacity, r.fraudCaptured, r.totalFraud)
    && IsRate(r.baselinePrecisionAtCapacity, baselineCaptured, r.alertsReviewed)
    && IsRate(r.baselineRecallAtCapacity, baselineCaptured, r.totalFraud)
    && r.minimumAlerts.Some? && IsRestRate(r.workloadReduction, r.minimumAlerts.value, r.total)
    && IsRestRate(r.falsePositiveReduction, m.fp, r.totalLegitimate)
  }

  lemma {:induction false} RatesMean(r: ChannelEvaluation, outcomes: seq<Outcome>, c: Capacity, target: real)
    requires c.Valid() && IsEvaluation(r, outcomes, c, target) && 0 < r.totalFraud < r.total
    ensures r.alertsReviewed <= |Rank(BaselineRows(outcomes))|
    ensures RatesNamed(r, FraudIn(Rank(BaselineRows(outcomes))[..r.alertsReviewed]))
  {
    CellsAgreeWithBands(outcomes);
  }

  /** Without fraud, or without anything else, what cannot be computed says why. */
  lemma {:induction false} OneClassMeans(r: ChannelEvaluation, outcomes: seq<Outcome>, c: Capacity, target: real)
    requires c.Valid() && IsEvaluation(r, outcomes, c, target) && !(0 < r.totalFraud < r.total)
    ensures var why := NonComputable(if outcomes == [] then Empty else SingleClass);
      && r.precision == r.recall == r.accuracy == why && r.confusion == Confusion(0, 0, 0, 0)
      && r.baselinePrecisionAtCapacity == r.baselineRecallAtCapacity == why
      && (outcomes == [] ==> r.precisionAtCapacity == r.recallAtCapacity == why)
      && (outcomes != [] && r.totalFraud == 0 ==> r.precisionAtCapacity == Ok(0.0) && r.recallAtCapacity == why)
      && (r.totalFraud == 0 ==> r.minimumAlerts == None && r.workloadReduction == NonComputable(SingleClass))
      && (r.totalLegitimate == 0 ==> r.falsePositiveReduction == NonComputable(SingleClass))
  {
  }

  /** The model's review takes the outcomes with the best scores, the baseline's those with the best rules-only
      scores: who is left out scores less, or as much but later. */
  lemma {:induction false} ReviewTakesBest(outcomes: seq<Outcome>, k: nat, o: Outcome, p: Outcome)
    requires AlertsDistinct(outcomes) && k <= |outcomes| && o in outcomes && p in outcomes
    ensures var top, row, other := Rank(ModelRows(outcomes))[..k],
        ScoredRow(o.sourceAlertId, o.timestamp, o.score, o.fraud),
        ScoredRow(p.sourceAlertId, p.timestamp, p.score, p.fraud);
      row in top && other !in top ==> o.score > p.score || (o.score == p.score && o.timestamp <= p.timestamp)
    ensures var top, row, other := Rank(BaselineRows(outcomes))[..k],
        ScoredRow(o.sourceAlertId, o.timestamp, o.baselineScore, o.fraud),
        ScoredRow(p.sourceAlertId, p.timestamp, p.baselineScore, p.fraud);
      row in top && other !in top ==>
        o.baselineScore > p.baselineScore || (o.baselineScore == p.baselineScore && o.timestamp <= p.timestamp)
  {
    var i :| 0 <= i < |outcomes| && outcomes[i] == o;
    var j :| 0 <= j < |outcomes| && outcomes[j] == p;
    var ms, bs := ModelRows(outcomes), BaselineRows(outcomes);
    assert ms[i] in ms && ms[j] in ms && bs[i] in bs && bs[j] in bs;
    if ms[i] in Rank(ms)[..k] && ms[j] !in Rank(ms)[..k] { ReviewedAreTop(ms, k, ms[i], ms[j]); }
    if bs[i] in Rank(bs)[..k] && bs[j] !in Rank(bs)[..k] { ReviewedAreTop(bs, k, bs[i], bs[j]); }
  }

  /** Who is ranked: every outcome, by its own score. */
  lemma {:induction false} RankedAreOutcomes(outcomes: seq<Outcome>, x: ScoredRow)
    ensures x in Rank(ModelRows(outcomes)) <==>
      exists o :: o in outcomes && x == ScoredRow(o.sourceAlertId, o.timestamp, o.score, o.fraud)
    ensures x in Rank(BaselineRows(outcomes)) <==>
      exists o :: o in outcomes && x == ScoredRow(o.sourceAlertId, o.timestamp, o.baselineScore, o.fraud)
  {
    SortMembers(ModelRows(outcomes), RankKey);
    SortMembers(BaselineRows(outcomes), RankKey);
    if o :| o in outcomes && x == ScoredRow(o.sourceAlertId, o.timestamp, o.score, o.fraud) {
      var i :| 0 <= i < |outcomes| && outcomes[i] == o;
      assert ModelRows(outcomes)[i] == x;
    }
    if o :| o in outcomes && x == ScoredRow(o.sourceAlertId, o.timestamp, o.baselineScore, o.fraud) {
      var i :| 0 <= i < |outcomes| && outcomes[i] == o;
      assert BaselineRows(outcomes)[i] == x;
    }
  }

  /** On two-class input the cells add up, and can be read off the per-band counts. */
  lemma {:induction false} ConfusionMatchesBands(r: ChannelEvaluation, outcomes: seq<Outcome>)
    requires TotalsOk(r, outcomes) && ConfusionOk(r, outcomes) && BandsOk(r, outcomes) && 0 < r.totalFraud < r.total
    ensures var m := r.confusion;
      && m.tp + m.fp + m.fn + m.tn == r.total && m.tp + m.fn == r.totalFraud && m.fp + m.tn == r.totalLegitimate
      && r.perBand.Keys == {LOW, MEDIUM, HIGH}
      && m.tp == r.perBand[MEDIUM].fraud + r.perBand[HIGH].fraud
      && m.tp + m.fp == r.perBand[MEDIUM].alerts + r.perBand[HIGH].alerts
      && m.fn == r.perBand[LOW].fraud && m.fn + m.tn == r.perBand[LOW].alerts
  {
    CellsAgreeWithBands(outcomes);
  }

  /** The capacity suffices for the recall target exactly when it covers the minimum review volume. */
  lemma {:induction false} CapacitySufficesIff(r: ChannelEvaluation, outcomes: seq<Outcome>, c: Capacity, target: real)
    requires TotalsOk(r, outcomes) && ReviewOk(r, outcomes, c, target)
    requires c.Valid() && 0.0 < target && r.totalFraud > 0
    ensures r.recallAtCapacity.Ok? && r.minimumAlerts.Some?
    ensures r.alertsReviewed >= r.minimumAlerts.value <==> r.recallAtCapacity.value >= target
  {
    ReachesTargetIff(Rank(ModelRows(outcomes)), r.totalFraud, target, r.minimumAlerts.value, r.alertsReviewed);
  }

  ghost predicate AlertsDistinct(outcomes: seq<Outcome>) {
    forall i, j :: 0 <= i < j < |outcomes| ==> outcomes[i].sourceAlertId != outcomes[j].sourceAlertId
  }

  lemma {:induction false} ModelRowsDistinct(outcomes: seq<Outcome>)
    requires AlertsDistinct(outcomes)
    ensures IdsDistinct(ModelRows(outcomes))
  {
  }

  lemma {:induction false} SameRowsTogether(a: seq<Outcome>, b: seq<Outcome>)
    requires ToSet(a) <= ToSet(b)
    ensures ToSet(ModelRows(a)) <= ToSet(ModelRows(b))
  {
    forall x | x in ModelRows(a) ensures x in ModelRows(b) {
      var i :| 0 <= i < |a| && ModelRows(a)[i] == x;
      assert a[i] in ToSet(b);
      var j :| 0 <= j < |b| && b[j] == a[i];
      assert ModelRows(b)[j] == x;
    }
  }

  /** The review does not depend on the order the outcomes were listed in. */
  lemma {:induction false} ReviewIgnoresOrder(
    a: seq<Outcome>, b: seq<Outcome>, c: Capacity, target: real, r: ChannelEvaluation, s: ChannelEvaluation)
    requires AlertsDistinct(a) && AlertsDistinct(b) && ToSet(a) == ToSet(b)
    requires TotalsOk(r, a) && ReviewOk(r, a, c, target)
    requires TotalsOk(s, b) && ReviewOk(s, b, c, target)
    ensures r.fraudCaptured == s.fraudCaptured && r.minimumAlerts == s.minimumAlerts
    ensures r.precisionAtCapacity == s.precisionAtCapacity && r.recallAtCapacity == s.recallAtCapacity
  {
    ModelRowsDistinct(a);
    ModelRowsDistinct(b);
    SameRowsTogether(a, b);
    SameRowsTogether(b, a);
    RankIgnoresOrder(ModelRows(a), ModelRows(b));
    RankedFraud(a);
    RankedFraud(b);
    if r.totalFraud > 0 {
      MinimumUnique(r.minimumAlerts, s.minimumAlerts, Rank(ModelRows(a)), r.totalFraud, target);
    }
  }
}
