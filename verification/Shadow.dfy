/** Shadow comparison: an operational bundle's scores against a candidate's over the alerts both scored. */
module Shadow {
  import opened Common
  import opened Sorting
  import opened Ranking

  datatype OperationalOutcome = OperationalOutcome(
    sourceAlertId: nat, channel: string, timestamp: int, score: real, band: Band, fraud: bool)

  datatype CandidateScore = CandidateScore(sourceAlertId: nat, channel: string, timestamp: int, score: real, band: Band)

  /** A source alert both sides scored. */
  datatype Pair = Pair(id: nat, operational: OperationalOutcome, candidate: CandidateScore)

  datatype Metrics = Metrics(
    precision: MetricValue, recall: MetricValue, workload: MetricValue, reviewedIds: set<nat>, captured: nat)

  datatype Comparison = Comparison(
    matched: nat, operationalOnly: nat, candidateOnly: nat,
    precisionDelta: MetricValue, recallDelta: MetricValue, workloadDelta: MetricValue,
    migration: map<Band, map<Band, nat>>, disagreement: MetricValue,
    capturedOperational: nat, capturedCandidate: nat, gained: nat, lost: nat)

  datatype ShadowError = BadRecallTarget | WrongChannel

  // ---- pairing up: the later row of an id wins, as in a dict comprehension ----

  function OperationalById(rows: seq<OperationalOutcome>): map<nat, OperationalOutcome> {
    if rows == [] then map[]
    else OperationalById(rows[..|rows| - 1])[rows[|rows| - 1].sourceAlertId := rows[|rows| - 1]]
  }

  function CandidateById(rows: seq<CandidateScore>): map<nat, CandidateScore> {
    if rows == [] then map[] else CandidateById(rows[..|rows| - 1])[rows[|rows| - 1].sourceAlertId := rows[|rows| - 1]]
  }

  /** `pairs` lists every matched alert once, in some order. */
  ghost predicate ListsMatched(pairs: seq<Pair>, op: map<nat, OperationalOutcome>, cand: map<nat, CandidateScore>) {
    && (forall i, j :: 0 <= i < j < |pairs| ==> pairs[i].id != pairs[j].id)
    && (forall p :: p in pairs ==> p.id in op && p.id in cand && p == Pair(p.id, op[p.id], cand[p.id]))
    && (forall k :: k in op && k in cand ==> Pair(k, op[k], cand[k]) in pairs)
  }

  method MatchedPairs(op: map<nat, OperationalOutcome>, cand: map<nat, CandidateScore>) returns (pairs: seq<Pair>)
    ensures ListsMatched(pairs, op, cand) && |pairs| == |op.Keys * cand.Keys|
  {
    pairs := [];
    var todo := op.Keys * cand.Keys;
    while todo != {}
      invariant todo <= op.Keys * cand.Keys && |pairs| + |todo| == |op.Keys * cand.Keys|
      invariant forall i, j :: 0 <= i < j < |pairs| ==> pairs[i].id != pairs[j].id
      invariant forall p :: p in pairs ==>
        p.id in op && p.id in cand && p.id !in todo && p == Pair(p.id, op[p.id], cand[p.id])
      invariant forall k :: k in op && k in cand && k !in todo ==> Pair(k, op[k], cand[k]) in pairs
      decreases |todo|
    {
      var k :| k in todo;
      todo := todo - {k};
      pairs := pairs + [Pair(k, op[k], cand[k])];
    }
  }

  function OperationalRow(p: Pair): ScoredRow {
    ScoredRow(p.id, p.operational.timestamp, p.operational.score, p.operational.fraud)
  }

  /** The candidate side keeps its own score and time but the operational outcome's label. */
  function CandidateRow(p: Pair): ScoredRow {
    ScoredRow(p.id, p.candidate.timestamp, p.candidate.score, p.operational.fraud)
  }

  function OperationalRows(pairs: seq<Pair>): (rows: seq<ScoredRow>)
    ensures |rows| == |pairs|
  {
    seq(|pairs|, i requires 0 <= i < |pairs| => OperationalRow(pairs[i]))
  }

  function CandidateRows(pairs: seq<Pair>): (rows: seq<ScoredRow>)
    ensures |rows| == |pairs|
  {
    seq(|pairs|, i requires 0 <= i < |pairs| => CandidateRow(pairs[i]))
  }

  function FraudPairs(pairs: seq<Pair>): (n: nat)
    ensures n <= |pairs|
  {
    if pairs == [] then 0 else FraudPairs(pairs[..|pairs| - 1]) + if pairs[|pairs| - 1].operational.fraud then 1 else 0
  }

  // ---- one side's metrics ----

  function IdsOf(rows: seq<ScoredRow>): set<nat> {
    if rows == [] then {} else IdsOf(rows[..|rows| - 1]) + {rows[|rows| - 1].id}
  }

  function FraudIdsOf(rows: seq<ScoredRow>): set<nat> {
    if rows == [] then {}
    else FraudIdsOf(rows[..|rows| - 1]) + if rows[|rows| - 1].fraud then {rows[|rows| - 1].id} else {}
  }

  function Reviewed(rows: seq<ScoredRow>, c: Capacity): seq<ScoredRow> {
    var k := ResolveCapacityCount(c, |rows|);
    if k <= |rows| then Rank(rows)[..k] else Rank(rows)
  }

  /** What one side reviews, and how much fraud that catches. */
  ghost predicate IsReview(m: Metrics, rows: seq<ScoredRow>, c: Capacity) {
    m.reviewedIds == IdsOf(Reviewed(rows, c)) && m.captured == FraudIn(Reviewed(rows, c))
  }

  /** One side's rates. */
  ghost predicate AreRates(m: Metrics, rows: seq<ScoredRow>, totalFraud: nat, c: Capacity, target: real) {
    var k := |Reviewed(rows, c)|;
    && (totalFraud == 0 || totalFraud == |rows| ==> m.precision == m.recall == m.workload == NonComputable(SingleClass))
    && (0 < totalFraud < |rows| ==>
        m.precision == CapacityRatio(m.captured, k, k) && m.recall == CapacityRatio(m.captured, totalFraud, k))
    && (0 < totalFraud < |rows| ==>
        exists least :: IsMinimum(least, Rank(rows), totalFraud, target) && m.workload == Workload(least, |rows|))
  }

  ghost predicate IsMetrics(m: Metrics, rows: seq<ScoredRow>, totalFraud: nat, c: Capacity, target: real) {
    IsReview(m, rows, c) && AreRates(m, rows, totalFraud, c, target)
  }

  function CapacityRatio(a: nat, b: nat, reviewed: nat): MetricValue {
    if reviewed == 0 || b == 0 then NonComputable(Empty) else Ok(a as real / b as real)
  }

  function Workload(least: Option<nat>, total: nat): MetricValue {
    if least.None? || total == 0 then NonComputable(UnreachableTarget)
    else Ok(1.0 - least.value as real / total as real)
  }

  method ScalarMetrics(rows: seq<ScoredRow>, totalFraud: nat, c: Capacity, target: real) returns (m: Metrics)
    requires c.Valid() && rows != [] && totalFraud <= |rows|
    ensures IsMetrics(m, rows, totalFraud, c, target)
  {
    var ranked, k := Rank(rows), ResolveCapacityCount(c, |rows|);
    var reviewed := ranked[..k];
    var captured := FraudIn(reviewed);
    if totalFraud == 0 || totalFraud == |rows| {
      var single := NonComputable(SingleClass);
      return Metrics(single, single, single, IdsOf(reviewed), captured);
    }
    var least := MinimumAlertsForRecallTarget(ranked, totalFraud, target);
    m := Metrics(
      CapacityRatio(captured, k, k), CapacityRatio(captured, totalFraud, k), Workload(least, |rows|),
      IdsOf(reviewed), captured);
  }

  function Delta(candidate: MetricValue, operational: MetricValue): MetricValue {
    if candidate.NonComputable? then candidate
    else if operational.NonComputable? then operational
    else Ok(candidate.value - operational.value)
  }

  // ---- band migration ----

  function Migrated(pairs: seq<Pair>, before: Band, after: Band): nat {
    if pairs == [] then 0
    else
      var p := pairs[|pairs| - 1];
      Migrated(pairs[..|pairs| - 1], before, after)
        + if p.operational.band == before && p.candidate.band == after then 1 else 0
  }

  function Entry(m: map<Band, map<Band, nat>>, before: Band, after: Band): nat {
    if before in m && after in m[before] then m[before][after] else 0
  }

  method MigrationCounts(pairs: seq<Pair>) returns (m: map<Band, map<Band, nat>>)
    ensures forall b, a :: Entry(m, b, a) == Migrated(pairs, b, a)
  {
    m := map[];
    for i := 0 to |pairs|
      invariant forall b, a :: Entry(m, b, a) == Migrated(pairs[..i], b, a)
    {
      TakeNext(pairs, i);
      var b, a := pairs[i].operational.band, pairs[i].candidate.band;
      ghost var before := m;
      if b !in m { m := m[b := map[]]; }
      var row := m[b];
      if a !in row { row := row[a := 0]; }
      m := m[b := row[a := row[a] + 1]];
      forall b', a' ensures Entry(m, b', a') == Migrated(pairs[..i + 1], b', a') {
        assert Entry(before, b', a') == Migrated(pairs[..i], b', a');
      }
    }
    assert pairs[..|pairs|] == pairs;
  }

  /** The nine migration cells add up to the matched alerts. */
  lemma {:induction false} MigrationTotal(pairs: seq<Pair>)
    ensures Migrated(pairs, LOW, LOW) + Migrated(pairs, LOW, MEDIUM) + Migrated(pairs, LOW, HIGH)
          + Migrated(pairs, MEDIUM, LOW) + Migrated(pairs, MEDIUM, MEDIUM) + Migrated(pairs, MEDIUM, HIGH)
          + Migrated(pairs, HIGH, LOW) + Migrated(pairs, HIGH, MEDIUM) + Migrated(pairs, HIGH, HIGH) == |pairs|
  {
    if pairs != [] { MigrationTotal(pairs[..|pairs| - 1]); }
  }

  // ---- the comparison ----

  /** The reviewed fraud alerts. */
  function FraudReviewed(pairs: seq<Pair>, reviewed: set<nat>): set<nat> {
    if pairs == [] then {}
    else
      var p := pairs[|pairs| - 1];
      FraudReviewed(pairs[..|pairs| - 1], reviewed) + if p.operational.fraud && p.id in reviewed then {p.id} else {}
  }

  function Disagreement(a: set<nat>, b: set<nat>): MetricValue {
    if a == {} && b == {} then NonComputable(Empty) else Ok(1.0 - |a * b| as real / |a + b| as real)
  }

  /** The two sides' metrics over one listing of the matched alerts. */
  ghost predicate AreSides(pairs: seq<Pair>, op: Metrics, cand: Metrics, c: Capacity, target: real) {
    && IsMetrics(op, OperationalRows(pairs), FraudPairs(pairs), c, target)
    && IsMetrics(cand, CandidateRows(pairs), FraudPairs(pairs), c, target)
  }

  /** What the comparison reports about a listing and the two sides' metrics. */
  ghost predicate Reports(r: Comparison, pairs: seq<Pair>, op: Metrics, cand: Metrics) {
    && r.matched == |pairs|
    && r.precisionDelta == Delta(cand.precision, op.precision)
    && r.recallDelta == Delta(cand.recall, op.recall)
    && r.workloadDelta == Delta(cand.workload, op.workload)
    && (forall b, a :: Entry(r.migration, b, a) == Migrated(pairs, b, a))
    && r.disagreement == Disagreement(op.reviewedIds, cand.reviewedIds)
    && Tallies(r, pairs, op, cand)
  }

  /** The fraud captured by each side, and by one side only. */
  ghost predicate Tallies(r: Comparison, pairs: seq<Pair>, op: Metrics, cand: Metrics) {
    && r.capturedOperational == op.captured && r.capturedCandidate == cand.captured
    && r.gained == |FraudReviewed(pairs, cand.reviewedIds) - FraudReviewed(pairs, op.reviewedIds)|
    && r.lost == |FraudReviewed(pairs, op.reviewedIds) - FraudReviewed(pairs, cand.reviewedIds)|
  }

  function EmptyComparison(operationalOnly: nat, candidateOnly: nat): Comparison {
    var e := NonComputable(Empty);
    Comparison(0, operationalOnly, candidateOnly, e, e, e, map[], e, 0, 0, 0, 0)
  }

  method CompareMatched(matched: seq<Pair>, operationalOnly: nat, candidateOnly: nat, c: Capacity, target: real)
    returns (r: Comparison, ghost op: Metrics, ghost cand: Metrics)
    requires c.Valid() && matched != []
    ensures AreSides(matched, op, cand, c, target) && Reports(r, matched, op, cand)
    ensures r.operationalOnly == operationalOnly && r.candidateOnly == candidateOnly
  {
    var totalFraud := FraudPairs(matched);
    var a := ScalarMetrics(OperationalRows(matched), totalFraud, c, target);
    var b := ScalarMetrics(CandidateRows(matched), totalFraud, c, target);
    op, cand := a, b;
    var migration := MigrationCounts(matched);
    var fraudA, fraudB := FraudReviewed(matched, a.reviewedIds), FraudReviewed(matched, b.reviewedIds);
    r := Comparison(
      |matched|, operationalOnly, candidateOnly,
      Delta(b.precision, a.precision), Delta(b.recall, a.recall), Delta(b.workload, a.workload),
      migration, Disagreement(a.reviewedIds, b.reviewedIds), a.captured, b.captured,
      |fraudB - fraudA|, |fraudA - fraudB|);
  }

  predicate ValidRequest(
    channel: string, outcomes: seq<OperationalOutcome>, scores: seq<CandidateScore>, target: real) {
    && 0.0 < target <= 1.0
    && (forall o :: o in outcomes ==> o.channel == channel)
    && (forall s :: s in scores ==> s.channel == channel)
  }

  method CompareOperationalVsCandidate(
    channel: string, outcomes: seq<OperationalOutcome>, scores: seq<CandidateScore>, c: Capacity, target: real)
    returns (r: Result<Comparison, ShadowError>, ghost pairs: seq<Pair>, ghost op: Metrics, ghost cand: Metrics)
    requires c.Valid()
    ensures r.Success? <==> ValidRequest(channel, outcomes, scores, target)
    ensures r.Success? ==>
      ListsMatched(pairs, OperationalById(outcomes), CandidateById(scores)) && r.value.matched == |pairs|
    ensures r.Success? && pairs != [] ==> AreSides(pairs, op, cand, c, target) && Reports(r.value, pairs, op, cand)
    ensures r.Success? && pairs != [] ==>
      IsReviewSize(|op.reviewedIds|, c, |pairs|) && IsReviewSize(|cand.reviewedIds|, c, |pairs|)
    ensures r.Success? && pairs == [] ==>
      var e, v := NonComputable(Empty), r.value;
      && v.precisionDelta == v.recallDelta == v.workloadDelta == v.disagreement == e && v.migration == map[]
      && v.matched == v.capturedOperational == v.capturedCandidate == v.gained == v.lost == 0
    ensures r.Success? ==> r.value.operationalOnly == |OperationalById(outcomes).Keys - CandidateById(scores).Keys|
    ensures r.Success? ==> r.value.candidateOnly == |CandidateById(scores).Keys - OperationalById(outcomes).Keys|
  {
    var none := NonComputable(Empty);
    pairs, op, cand := [], Metrics(none, none, none, {}, 0), Metrics(none, none, none, {}, 0);
    if !(0.0 < target <= 1.0) { return Failure(BadRecallTarget), pairs, op, cand; }
    if exists o :: o in outcomes && o.channel != channel { return Failure(WrongChannel), pairs, op, cand; }
    if exists s :: s in scores && s.channel != channel { return Failure(WrongChannel), pairs, op, cand; }
    var operational, candidates := OperationalById(outcomes), CandidateById(scores);
    var matched := MatchedPairs(operational, candidates);
    pairs := matched;
    var operationalOnly, candidateOnly := |operational.Keys - candidates.Keys|, |candidates.Keys - operational.Keys|;
    if matched == [] { return Success(EmptyComparison(operationalOnly, candidateOnly)), pairs, op, cand; }
    var compared;
    compared, op, cand := CompareMatched(matched, operationalOnly, candidateOnly, c, target);
    SidesReviewSize(matched, op, cand, c);
    r := Success(compared);
  }

  // ---- what is reviewed ----

  ghost predicate PairIdsDistinct(pairs: seq<Pair>) {
    forall i, j :: 0 <= i < j < |pairs| ==> pairs[i].id != pairs[j].id
  }

  lemma {:induction false} HasIdIff(rows: seq<ScoredRow>, id: nat)
    ensures id in IdsOf(rows) <==> exists r :: r in rows && r.id == id
    ensures id in FraudIdsOf(rows) <==> exists r :: r in rows && r.id == id && r.fraud
  {
    if rows != [] {
      HasIdIff(rows[..|rows| - 1], id);
      assert rows == rows[..|rows| - 1] + [rows[|rows| - 1]];
    }
  }

  lemma {:induction false} FraudReviewedIff(pairs: seq<Pair>, reviewed: set<nat>, id: nat)
    ensures id in FraudReviewed(pairs, reviewed) <==>
      exists p :: p in pairs && p.id == id && p.operational.fraud && id in reviewed
  {
    if pairs != [] {
      FraudReviewedIff(pairs[..|pairs| - 1], reviewed, id);
      assert pairs == pairs[..|pairs| - 1] + [pairs[|pairs| - 1]];
    }
  }

  lemma {:induction false} NewId(rows: seq<ScoredRow>)
    requires IdsDistinct(rows) && rows != []
    ensures rows[|rows| - 1].id !in IdsOf(rows[..|rows| - 1]) && rows[|rows| - 1].id !in FraudIdsOf(rows[..|rows| - 1])
  {
    HasIdIff(rows[..|rows| - 1], rows[|rows| - 1].id);
  }

  /** Rows with distinct ids: as many ids as rows, and as many fraud ids as fraud rows. */
  lemma {:induction false} IdCounts(rows: seq<ScoredRow>)
    requires IdsDistinct(rows)
    ensures |IdsOf(rows)| == |rows| && |FraudIdsOf(rows)| == FraudIn(rows)
  {
    if rows != [] {
      IdCounts(rows[..|rows| - 1]);
      NewId(rows);
    }
  }

  /** The reviewed rows are a capacity's worth of the matched rows, each once. */
  lemma {:induction false} ReviewedRows(rows: seq<ScoredRow>, c: Capacity)
    requires IdsDistinct(rows) && c.Valid() && rows != []
    ensures IdsDistinct(Reviewed(rows, c)) && |Reviewed(rows, c)| == ResolveCapacityCount(c, |rows|)
    ensures forall r :: r in Reviewed(rows, c) ==> r in rows
  {
    RankedIdsDistinct(rows);
  }

  ghost predicate RowsOf(rows: seq<ScoredRow>, pairs: seq<Pair>) {
    |rows| == |pairs| && forall i :: 0 <= i < |pairs| ==>
      rows[i].id == pairs[i].id && rows[i].fraud == pairs[i].operational.fraud
  }

  /** Among the reviewed rows, fraud is what the matched alerts say is fraud. */
  lemma {:induction false} ReviewedFraudIff(pairs: seq<Pair>, rows: seq<ScoredRow>, reviewed: seq<ScoredRow>, id: nat)
    requires PairIdsDistinct(pairs) && RowsOf(rows, pairs) && forall r :: r in reviewed ==> r in rows
    ensures id in FraudReviewed(pairs, IdsOf(reviewed)) <==> id in FraudIdsOf(reviewed)
  {
    HasIdIff(reviewed, id);
    FraudReviewedIff(pairs, IdsOf(reviewed), id);
    if r :| r in reviewed && r.id == id {
      var i :| 0 <= i < |rows| && rows[i] == r;
      assert pairs[i] in pairs;
      if p :| p in pairs && p.id == id {
        var j :| 0 <= j < |pairs| && pairs[j] == p;
        assert i == j;
      }
    }
  }

  /** One side reviews exactly a capacity's worth of alerts, and captures one fraud per reviewed fraud alert. */
  lemma {:induction false} SideCounts(pairs: seq<Pair>, rows: seq<ScoredRow>, m: Metrics, c: Capacity)
    requires PairIdsDistinct(pairs) && pairs != [] && c.Valid() && RowsOf(rows, pairs) && IsReview(m, rows, c)
    ensures |m.reviewedIds| == ResolveCapacityCount(c, |pairs|)
    ensures m.captured == |FraudReviewed(pairs, m.reviewedIds)|
  {
    var reviewed := Reviewed(rows, c);
    ReviewedRows(rows, c);
    IdCounts(reviewed);
    forall id ensures id in FraudReviewed(pairs, m.reviewedIds) <==> id in FraudIdsOf(reviewed) {
      ReviewedFraudIff(pairs, rows, reviewed, id);
    }
    assert FraudReviewed(pairs, m.reviewedIds) == FraudIdsOf(reviewed);
  }

  lemma {:induction false} SetDifference<T>(a: set<T>, b: set<T>)
    ensures |a - b| == |a| - |a * b| && |a + b| == |a| + |b| - |a * b|
  {
    assert a == (a - b) + (a * b);
    assert a + b == (a - b) + b;
  }

  lemma {:induction false} GainLessLoss<T>(a: set<T>, b: set<T>)
    ensures |b - a| - |a - b| == |b| - |a|
  {
    SetDifference(a, b);
    SetDifference(b, a);
    assert a * b == b * a;
  }

  lemma {:induction false} OverlapDisagreement(a: set<nat>, b: set<nat>, k: nat)
    requires |a| == |b| == k > 0
    ensures |a * b| <= k && Disagreement(a, b) == Ok(1.0 - |a * b| as real / (2 * k - |a * b|) as real)
  {
    SetDifference(a, b);
    SubsetSize(a * b, a);
  }

  lemma {:induction false} BothSides(pairs: seq<Pair>, op: Metrics, cand: Metrics, c: Capacity)
    requires PairIdsDistinct(pairs) && pairs != [] && c.Valid()
    requires IsReview(op, OperationalRows(pairs), c) && IsReview(cand, CandidateRows(pairs), c)
    ensures |op.reviewedIds| == |cand.reviewedIds| == ResolveCapacityCount(c, |pairs|)
    ensures op.captured == |FraudReviewed(pairs, op.reviewedIds)|
    ensures cand.captured == |FraudReviewed(pairs, cand.reviewedIds)|
  {
    SideCounts(pairs, OperationalRows(pairs), op, c);
    SideCounts(pairs, CandidateRows(pairs), cand, c);
  }

  /** Each side reviews what the capacity says. */
  lemma {:induction false} SidesReviewSize(pairs: seq<Pair>, op: Metrics, cand: Metrics, c: Capacity)
    requires PairIdsDistinct(pairs) && pairs != [] && c.Valid()
    requires IsReview(op, OperationalRows(pairs), c) && IsReview(cand, CandidateRows(pairs), c)
    ensures IsReviewSize(|op.reviewedIds|, c, |pairs|) && IsReviewSize(|cand.reviewedIds|, c, |pairs|)
  {
    BothSides(pairs, op, cand, c);
    ResolvesToReviewSize(c, |pairs|);
  }

  /** Both sides review the same number of alerts, between one and all of them, and the disagreement
      follows from how many they share. */
  lemma {:induction false} DisagreementFromOverlap(
    r: Comparison, pairs: seq<Pair>, op: Metrics, cand: Metrics, c: Capacity)
    requires PairIdsDistinct(pairs) && pairs != [] && c.Valid()
    requires IsReview(op, OperationalRows(pairs), c) && IsReview(cand, CandidateRows(pairs), c)
    requires r.disagreement == Disagreement(op.reviewedIds, cand.reviewedIds)
    ensures var k, i := |op.reviewedIds|, |op.reviewedIds * cand.reviewedIds|;
      && 1 <= k <= |pairs| && |cand.reviewedIds| == k && i <= k
      && r.disagreement == Ok(1.0 - i as real / (2 * k - i) as real)
  {
    BothSides(pairs, op, cand, c);
    OverlapDisagreement(op.reviewedIds, cand.reviewedIds, ResolveCapacityCount(c, |pairs|));
  }

  /** The fraud gained less the fraud lost is the change in fraud captured. */
  lemma {:induction false} GainedLessLost(r: Comparison, pairs: seq<Pair>, op: Metrics, cand: Metrics, c: Capacity)
    requires PairIdsDistinct(pairs) && pairs != [] && c.Valid()
    requires IsReview(op, OperationalRows(pairs), c) && IsReview(cand, CandidateRows(pairs), c)
    requires Tallies(r, pairs, op, cand)
    ensures r.gained - r.lost == r.capturedCandidate - r.capturedOperational
  {
    BothSides(pairs, op, cand, c);
    GainLessLoss(FraudReviewed(pairs, op.reviewedIds), FraudReviewed(pairs, cand.reviewedIds));
  }

  lemma {:induction false} MigrationCoversMatched(r: Comparison, pairs: seq<Pair>, op: Metrics, cand: Metrics)
    requires Reports(r, pairs, op, cand)
    ensures var m := r.migration;
      Entry(m, LOW, LOW) + Entry(m, LOW, MEDIUM) + Entry(m, LOW, HIGH)
      + Entry(m, MEDIUM, LOW) + Entry(m, MEDIUM, MEDIUM) + Entry(m, MEDIUM, HIGH)
      + Entry(m, HIGH, LOW) + Entry(m, HIGH, MEDIUM) + Entry(m, HIGH, HIGH) == r.matched
  {
    MigrationTotal(pairs);
  }

  lemma {:induction false} RowsKeepFraud(pairs: seq<Pair>, rows: seq<ScoredRow>)
    requires RowsOf(rows, pairs)
    ensures FraudIn(rows) == FraudPairs(pairs)
  {
    if pairs != [] { RowsKeepFraud(pairs[..|pairs| - 1], rows[..|rows| - 1]); }
  }

  lemma {:induction false} SideComputableIff(
    pairs: seq<Pair>, rows: seq<ScoredRow>, m: Metrics, c: Capacity, target: real)
    requires pairs != [] && c.Valid() && target <= 1.0 && RowsOf(rows, pairs)
    requires IsMetrics(m, rows, FraudPairs(pairs), c, target)
    ensures var twoClass := 0 < FraudPairs(pairs) < |pairs|;
      m.precision.Ok? == twoClass && m.recall.Ok? == twoClass && m.workload.Ok? == twoClass
  {
    RowsKeepFraud(pairs, rows);
    RankKeepsFraud(rows);
    if 0 < FraudPairs(pairs) < |pairs| {
      var least :| IsMinimum(least, Rank(rows), FraudPairs(pairs), target) && m.workload == Workload(least, |rows|);
      TargetIsReachable(Rank(rows), target, least);
    }
  }

  /** The deltas can be computed exactly when the matched alerts hold both classes; the target is always reachable. */
  lemma {:induction false} DeltasComputableIff(
    r: Comparison, pairs: seq<Pair>, op: Metrics, cand: Metrics, c: Capacity, target: real)
    requires pairs != [] && c.Valid() && target <= 1.0
    requires AreSides(pairs, op, cand, c, target) && Reports(r, pairs, op, cand)
    ensures var twoClass := 0 < FraudPairs(pairs) < |pairs|;
      r.precisionDelta.Ok? == twoClass && r.recallDelta.Ok? == twoClass && r.workloadDelta.Ok? == twoClass
  {
    SideComputableIff(pairs, OperationalRows(pairs), op, c, target);
    SideComputableIff(pairs, CandidateRows(pairs), cand, c, target);
  }

  lemma {:induction false} DifferenceOfQuotients(a: real, b: real, d: real)
    requires d > 0.0
    ensures a / d - b / d == (a - b) / d
  {
  }

  lemma {:induction false} DeltasInCounts(
    r: Comparison, pairs: seq<Pair>, op: Metrics, cand: Metrics, c: Capacity, target: real)
    requires PairIdsDistinct(pairs) && c.Valid() && 0 < FraudPairs(pairs) < |pairs|
    requires AreSides(pairs, op, cand, c, target) && Reports(r, pairs, op, cand)
    ensures var k, gain := ResolveCapacityCount(c, |pairs|), (r.gained - r.lost) as real;
      && 1 <= k
      && r.precisionDelta == Ok(gain / k as real)
      && r.recallDelta == Ok(gain / FraudPairs(pairs) as real)
  {
    var k := ResolveCapacityCount(c, |pairs|);
    GainedLessLost(r, pairs, op, cand, c);
    DifferenceOfQuotients(cand.captured as real, op.captured as real, k as real);
    DifferenceOfQuotients(cand.captured as real, op.captured as real, FraudPairs(pairs) as real);
  }

  /** The fraud alerts among the matched ones, as a set. */
  function FraudAlerts(pairs: seq<Pair>): set<Pair> { set p | p in pairs && p.operational.fraud }

  lemma {:induction false} FraudPairsAreAlerts(pairs: seq<Pair>)
    requires PairIdsDistinct(pairs)
    ensures FraudPairs(pairs) == |FraudAlerts(pairs)|
  {
    CountIsSetSize(pairs, LOW, LOW);
    assert Selected(pairs, (p: Pair) => p.operational.fraud) == FraudAlerts(pairs);
  }

  /** On two-class input both capacity deltas are the net fraud gained, over the reviews and over all fraud. */
  lemma {:induction false} DeltasAreNetGain(
    r: Comparison, pairs: seq<Pair>, op: Metrics, cand: Metrics, c: Capacity, target: real)
    requires PairIdsDistinct(pairs) && c.Valid() && 0 < |FraudAlerts(pairs)| < |pairs|
    requires AreSides(pairs, op, cand, c, target) && Reports(r, pairs, op, cand)
    ensures var k, gain := |op.reviewedIds|, (r.gained - r.lost) as real;
      && 1 <= k
      && r.precisionDelta == Ok(gain / k as real)
      && r.recallDelta == Ok(gain / |FraudAlerts(pairs)| as real)
  {
    FraudPairsAreAlerts(pairs);
    DeltasInCounts(r, pairs, op, cand, c, target);
    BothSides(pairs, op, cand, c);
  }

  lemma {:induction false} ReviewedIff(rows: seq<ScoredRow>, m: Metrics, c: Capacity, x: ScoredRow)
    requires IdsDistinct(rows) && c.Valid() && rows != [] && IsReview(m, rows, c) && x in rows
    ensures x.id in m.reviewedIds <==> x in Reviewed(rows, c)
  {
    ReviewedRows(rows, c);
    HasIdIff(Reviewed(rows, c), x.id);
    if r :| r in Reviewed(rows, c) && r.id == x.id {
      var i :| 0 <= i < |rows| && rows[i] == r;
      var j :| 0 <= j < |rows| && rows[j] == x;
    }
  }

  /** Each side reviews the matched alerts that its own score ranks highest, and nothing else. */
  lemma {:induction false} SidesReviewBest(
    pairs: seq<Pair>, op: Metrics, cand: Metrics, c: Capacity, p: Pair, q: Pair)
    requires PairIdsDistinct(pairs) && c.Valid() && p in pairs && q in pairs
    requires IsReview(op, OperationalRows(pairs), c) && IsReview(cand, CandidateRows(pairs), c)
    ensures p.id in op.reviewedIds && q.id !in op.reviewedIds ==>
      p.operational.score > q.operational.score
      || (p.operational.score == q.operational.score && p.operational.timestamp <= q.operational.timestamp)
    ensures p.id in cand.reviewedIds && q.id !in cand.reviewedIds ==>
      p.candidate.score > q.candidate.score
      || (p.candidate.score == q.candidate.score && p.candidate.timestamp <= q.candidate.timestamp)
  {
    var i :| 0 <= i < |pairs| && pairs[i] == p;
    var j :| 0 <= j < |pairs| && pairs[j] == q;
    if p.id in op.reviewedIds && q.id !in op.reviewedIds { RowReviewedBest(OperationalRows(pairs), op, c, i, j); }
    if p.id in cand.reviewedIds && q.id !in cand.reviewedIds { RowReviewedBest(CandidateRows(pairs), cand, c, i, j); }
  }

  lemma {:induction false} RowReviewedBest(rows: seq<ScoredRow>, m: Metrics, c: Capacity, i: nat, j: nat)
    requires IdsDistinct(rows) && c.Valid() && IsReview(m, rows, c) && i < |rows| && j < |rows|
    requires rows[i].id in m.reviewedIds && rows[j].id !in m.reviewedIds
    ensures rows[i].score > rows[j].score
      || (rows[i].score == rows[j].score && rows[i].timestamp <= rows[j].timestamp)
  {
    ReviewedIff(rows, m, c, rows[i]);
    ReviewedIff(rows, m, c, rows[j]);
    ReviewedAreTop(rows, ResolveCapacityCount(c, |rows|), rows[i], rows[j]);
  }

  /** On two-class input the workload delta is the difference of the two minimum review volumes over the population. */
  lemma {:induction false} WorkloadDeltaMeans(
    r: Comparison, pairs: seq<Pair>, op: Metrics, cand: Metrics, c: Capacity, target: real, m: nat, n: nat)
    requires 0 < FraudPairs(pairs) < |pairs|
    requires AreSides(pairs, op, cand, c, target) && Reports(r, pairs, op, cand)
    requires IsMinimum(Some(m), Rank(OperationalRows(pairs)), FraudPairs(pairs), target)
    requires IsMinimum(Some(n), Rank(CandidateRows(pairs)), FraudPairs(pairs), target)
    ensures r.workloadDelta == Ok((m - n) as real / |pairs| as real)
  {
    SideWorkload(OperationalRows(pairs), op, FraudPairs(pairs), c, target, m);
    SideWorkload(CandidateRows(pairs), cand, FraudPairs(pairs), c, target, n);
    DifferenceOfRests(m as real, n as real, |pairs| as real);
  }

  lemma {:induction false} SideWorkload(
    rows: seq<ScoredRow>, m: Metrics, fraud: nat, c: Capacity, target: real, least: nat)
    requires 0 < fraud < |rows| && AreRates(m, rows, fraud, c, target)
    requires IsMinimum(Some(least), Rank(rows), fraud, target)
    ensures m.workload == Ok(1.0 - least as real / |rows| as real)
  {
    var a :| IsMinimum(a, Rank(rows), fraud, target) && m.workload == Workload(a, |rows|);
    MinimumUnique(a, Some(least), Rank(rows), fraud, target);
  }

  lemma {:induction false} DifferenceOfRests(m: real, n: real, d: real)
    requires d > 0.0
    ensures (1.0 - n / d) - (1.0 - m / d) == (m - n) / d
  {
  }

  // ---- the order the matched alerts are listed in ----

  lemma {:induction false} RowsTogether(a: seq<Pair>, b: seq<Pair>)
    requires ToSet(a) <= ToSet(b)
    ensures ToSet(OperationalRows(a)) <= ToSet(OperationalRows(b))
    ensures ToSet(CandidateRows(a)) <= ToSet(CandidateRows(b))
  {
    forall x | x in OperationalRows(a) ensures x in OperationalRows(b) {
      var i :| 0 <= i < |a| && OperationalRows(a)[i] == x;
      assert a[i] in ToSet(b);
      var j :| 0 <= j < |b| && b[j] == a[i];
      assert OperationalRows(b)[j] == x;
    }
    forall x | x in CandidateRows(a) ensures x in CandidateRows(b) {
      var i :| 0 <= i < |a| && CandidateRows(a)[i] == x;
      assert a[i] in ToSet(b);
      var j :| 0 <= j < |b| && b[j] == a[i];
      assert CandidateRows(b)[j] == x;
    }
  }

  /** Pairs that satisfy `p`, counted as a set: the bridge from a count to the listing's members. */
  function Selected(pairs: seq<Pair>, p: Pair -> bool): set<Pair> { set x | x in pairs && p(x) }

  lemma {:induction false} CountIsSetSize(pairs: seq<Pair>, before: Band, after: Band)
    requires PairIdsDistinct(pairs)
    ensures FraudPairs(pairs) == |Selected(pairs, (p: Pair) => p.operational.fraud)|
    ensures Migrated(pairs, before, after)
         == |Selected(pairs, (p: Pair) => p.operational.band == before && p.candidate.band == after)|
  {
    if pairs != [] {
      var n := |pairs| - 1;
      CountIsSetSize(pairs[..n], before, after);
      SelectedNext(pairs, (p: Pair) => p.operational.fraud);
      SelectedNext(pairs, (p: Pair) => p.operational.band == before && p.candidate.band == after);
    }
  }

  lemma {:induction false} SelectedNext(pairs: seq<Pair>, p: Pair -> bool)
    requires PairIdsDistinct(pairs) && pairs != []
    ensures var n := |pairs| - 1;
      |Selected(pairs, p)| == |Selected(pairs[..n], p)| + if p(pairs[n]) then 1 else 0
  {
    var n := |pairs| - 1;
    assert pairs == pairs[..n] + [pairs[n]];
    assert Selected(pairs, p) == Selected(pairs[..n], p) + if p(pairs[n]) then {pairs[n]} else {};
  }

  lemma {:induction false} SameMetrics(
    rows: seq<ScoredRow>, others: seq<ScoredRow>, m: Metrics, n: Metrics, totalFraud: nat, c: Capacity, target: real)
    requires IdsDistinct(rows) && IdsDistinct(others) && ToSet(rows) == ToSet(others)
    requires IsMetrics(m, rows, totalFraud, c, target) && IsMetrics(n, others, totalFraud, c, target)
    requires totalFraud <= |rows|
    ensures m == n
  {
    DistinctIdsIdentify(rows);
    DistinctIdsIdentify(others);
    SameRowsSameMultiset(rows, others);
    assert |rows| == |multiset(rows)| == |multiset(others)| == |others|;
    RankIgnoresOrder(rows, others);
    if 0 < totalFraud < |rows| {
      var a :| IsMinimum(a, Rank(rows), totalFraud, target) && m.workload == Workload(a, |rows|);
      var b :| IsMinimum(b, Rank(rows), totalFraud, target) && n.workload == Workload(b, |rows|);
      MinimumUnique(a, b, Rank(rows), totalFraud, target);
    }
  }

  lemma {:induction false} SelectedTogether(a: seq<Pair>, b: seq<Pair>, p: Pair -> bool)
    requires ToSet(a) == ToSet(b)
    ensures Selected(a, p) == Selected(b, p)
  {
    assert forall x :: x in a <==> x in ToSet(a);
    assert forall x :: x in b <==> x in ToSet(b);
  }

  lemma {:induction false} FraudReviewedTogether(a: seq<Pair>, b: seq<Pair>, reviewed: set<nat>)
    requires ToSet(a) == ToSet(b)
    ensures FraudReviewed(a, reviewed) == FraudReviewed(b, reviewed)
  {
    assert forall x :: x in a <==> x in ToSet(a);
    assert forall x :: x in b <==> x in ToSet(b);
    forall id ensures id in FraudReviewed(a, reviewed) <==> id in FraudReviewed(b, reviewed) {
      FraudReviewedIff(a, reviewed, id);
      FraudReviewedIff(b, reviewed, id);
    }
  }

  lemma {:induction false} CountsTogether(a: seq<Pair>, b: seq<Pair>, before: Band, after: Band)
    requires PairIdsDistinct(a) && PairIdsDistinct(b) && ToSet(a) == ToSet(b)
    ensures FraudPairs(a) == FraudPairs(b) && Migrated(a, before, after) == Migrated(b, before, after)
  {
    CountIsSetSize(a, before, after);
    CountIsSetSize(b, before, after);
    SelectedTogether(a, b, (p: Pair) => p.operational.fraud);
    SelectedTogether(a, b, (p: Pair) => p.operational.band == before && p.candidate.band == after);
  }

  lemma {:induction false} OperationalTogether(
    a: seq<Pair>, b: seq<Pair>, m: Metrics, n: Metrics, c: Capacity, target: real)
    requires PairIdsDistinct(a) && PairIdsDistinct(b) && ToSet(a) == ToSet(b)
    requires IsMetrics(m, OperationalRows(a), FraudPairs(a), c, target)
    requires IsMetrics(n, OperationalRows(b), FraudPairs(b), c, target)
    ensures m == n
  {
    RowsTogether(a, b);
    RowsTogether(b, a);
    CountsTogether(a, b, LOW, LOW);
    SameMetrics(OperationalRows(a), OperationalRows(b), m, n, FraudPairs(a), c, target);
  }

  lemma {:induction false} CandidateTogether(
    a: seq<Pair>, b: seq<Pair>, m: Metrics, n: Metrics, c: Capacity, target: real)
    requires PairIdsDistinct(a) && PairIdsDistinct(b) && ToSet(a) == ToSet(b)
    requires IsMetrics(m, CandidateRows(a), FraudPairs(a), c, target)
    requires IsMetrics(n, CandidateRows(b), FraudPairs(b), c, target)
    ensures m == n
  {
    RowsTogether(a, b);
    RowsTogether(b, a);
    CountsTogether(a, b, LOW, LOW);
    SameMetrics(CandidateRows(a), CandidateRows(b), m, n, FraudPairs(a), c, target);
  }

  lemma {:induction false} ListingsAgree(
    a: seq<Pair>, b: seq<Pair>, op: map<nat, OperationalOutcome>, cand: map<nat, CandidateScore>)
    requires ListsMatched(a, op, cand) && ListsMatched(b, op, cand)
    ensures PairIdsDistinct(a) && PairIdsDistinct(b) && ToSet(a) == ToSet(b)
  {
  }

  /** Iterating the matched ids in another order changes no count, no reviewed set and no delta. */
  lemma {:induction false} ComparisonIgnoresOrder(
    a: seq<Pair>, b: seq<Pair>, op: map<nat, OperationalOutcome>, cand: map<nat, CandidateScore>,
    r: Comparison, s: Comparison,
    opA: Metrics, candA: Metrics, opB: Metrics, candB: Metrics, c: Capacity, target: real)
    requires ListsMatched(a, op, cand) && ListsMatched(b, op, cand)
    requires AreSides(a, opA, candA, c, target) && AreSides(b, opB, candB, c, target)
    requires Reports(r, a, opA, candA) && Reports(s, b, opB, candB)
    ensures opA == opB && candA == candB
    ensures r.precisionDelta == s.precisionDelta && r.recallDelta == s.recallDelta && r.workloadDelta == s.workloadDelta
    ensures r.gained == s.gained && r.lost == s.lost && r.disagreement == s.disagreement
    ensures forall x, y :: Entry(r.migration, x, y) == Entry(s.migration, x, y)
  {
    ListingsAgree(a, b, op, cand);
    OperationalTogether(a, b, opA, opB, c, target);
    CandidateTogether(a, b, candA, candB, c, target);
    FraudReviewedTogether(a, b, opA.reviewedIds);
    FraudReviewedTogether(a, b, candA.reviewedIds);
    forall x, y ensures Entry(r.migration, x, y) == Entry(s.migration, x, y) {
      CountsTogether(a, b, x, y);
    }
  }

  // ---- a population against itself ----

  predicate IsZeroOrNot(delta: MetricValue) { delta.Ok? ==> delta.value == 0.0 }

  /** The candidate scored every alert exactly as the operational bundle did. */
  lemma {:induction false} SelfComparisonIsNeutral(
    r: Comparison, pairs: seq<Pair>, op: Metrics, cand: Metrics, c: Capacity, target: real)
    requires PairIdsDistinct(pairs) && pairs != [] && c.Valid()
    requires forall p :: p in pairs ==>
      p.candidate.timestamp == p.operational.timestamp && p.candidate.score == p.operational.score
    requires AreSides(pairs, op, cand, c, target) && Reports(r, pairs, op, cand)
    ensures IsZeroOrNot(r.precisionDelta) && IsZeroOrNot(r.recallDelta) && IsZeroOrNot(r.workloadDelta)
    ensures r.gained == r.lost == 0 && r.capturedCandidate == r.capturedOperational
    ensures r.disagreement == Ok(0.0)
  {
    assert OperationalRows(pairs) == CandidateRows(pairs);
    SameMetrics(OperationalRows(pairs), CandidateRows(pairs), op, cand, FraudPairs(pairs), c, target);
    DisagreementFromOverlap(r, pairs, op, cand, c);
    assert op.reviewedIds * cand.reviewedIds == op.reviewedIds;
    WholeOverItself(|op.reviewedIds| as real);
  }
}
