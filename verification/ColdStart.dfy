/** Channel model bundles as values, and the cold-start evidence a first promotion needs. */
module ColdStart {
  import opened Common

  datatype BundleStatus = CANDIDATE | OPERATIONAL | RETIRED

  /** The nine components an OPERATIONAL bundle must name. */
  datatype Components = Components(
    gbm: Option<string>, lr: Option<string>, anomaly: Option<string>,
    preprocessing: Option<string>, featureSchema: Option<string>, ruleSet: Option<string>,
    graphPolicy: Option<string>, ensemblePolicy: Option<string>, reasonCode: Option<string>)
  {
    predicate Complete() {
      && gbm.Some? && lr.Some? && anomaly.Some? && preprocessing.Some? && featureSchema.Some?
      && ruleSet.Some? && graphPolicy.Some? && ensemblePolicy.Some? && reasonCode.Some?
    }
  }

  /** The parts of the training report that a gate decision reads. */
  datatype TrainingReport = TrainingReport(
    channel: string,
    trainingRunId: int,
    datasetVersion: string,
    featureSchemaVersion: string,
    gbmModelVersion: string,
    lrModelVersion: string,
    anomalyModelVersion: string,
    preprocessingArtifactVersion: string,
    splitClassCounts: map<string, map<string, int>>,
    gbmPrAuc: Option<real>)

  /** The report text of a bundle row together with what parsing it gives. */
  datatype ReportRef = NoReport | Unparsable(text: string) | Parsed(report: TrainingReport)

  datatype Bundle = Bundle(
    bundleId: nat,
    channel: string,
    version: nat,
    components: Components,
    trainingRunId: Option<int>,
    datasetVersion: Option<string>,
    report: ReportRef,
    status: BundleStatus,
    createdAt: int,
    promotedAt: Option<int>,
    promotedBy: Option<string>)

  // ---- the report against its own row ----

  datatype CrossField = ChannelField | TrainingRunField | DatasetField | FeatureSchemaField
                      | GbmField | LrField | AnomalyField | PreprocessingField

  const CROSS_CHECK_FIELDS := [ChannelField, TrainingRunField, DatasetField, FeatureSchemaField,
                               GbmField, LrField, AnomalyField, PreprocessingField]

  predicate FieldAgrees(f: CrossField, r: TrainingReport, b: Bundle) {
    match f
    case ChannelField => r.channel == b.channel
    case TrainingRunField => Some(r.trainingRunId) == b.trainingRunId
    case DatasetField => Some(r.datasetVersion) == b.datasetVersion
    case FeatureSchemaField => Some(r.featureSchemaVersion) == b.components.featureSchema
    case GbmField => Some(r.gbmModelVersion) == b.components.gbm
    case LrField => Some(r.lrModelVersion) == b.components.lr
    case AnomalyField => Some(r.anomalyModelVersion) == b.components.anomaly
    case PreprocessingField => Some(r.preprocessingArtifactVersion) == b.components.preprocessing
  }

  const REQUIRED_SPLITS := ["train", "calibration", "test"]

  /** The row carries a readable report about this very row, with all three splits. */
  ghost predicate ReportMatches(b: Bundle) {
    && b.report.Parsed?
    && var r := b.report.report;
    && r.channel == b.channel && Some(r.trainingRunId) == b.trainingRunId && Some(r.datasetVersion) == b.datasetVersion
    && Some(r.featureSchemaVersion) == b.components.featureSchema
    && Some(r.gbmModelVersion) == b.components.gbm && Some(r.lrModelVersion) == b.components.lr
    && Some(r.anomalyModelVersion) == b.components.anomaly
    && Some(r.preprocessingArtifactVersion) == b.components.preprocessing
    && "train" in r.splitClassCounts && "calibration" in r.splitClassCounts && "test" in r.splitClassCounts
  }

  /** Each field is listed exactly when the report's value is not the row's. */
  ghost predicate ListsMismatches(fields: seq<CrossField>, r: TrainingReport, b: Bundle) {
    && (ChannelField in fields <==> r.channel != b.channel)
    && (TrainingRunField in fields <==> Some(r.trainingRunId) != b.trainingRunId)
    && (DatasetField in fields <==> Some(r.datasetVersion) != b.datasetVersion)
    && (FeatureSchemaField in fields <==> Some(r.featureSchemaVersion) != b.components.featureSchema)
    && (GbmField in fields <==> Some(r.gbmModelVersion) != b.components.gbm)
    && (LrField in fields <==> Some(r.lrModelVersion) != b.components.lr)
    && (AnomalyField in fields <==> Some(r.anomalyModelVersion) != b.components.anomaly)
    && (PreprocessingField in fields <==> Some(r.preprocessingArtifactVersion) != b.components.preprocessing)
  }

  datatype ReportError =
    MissingReport | MalformedReport | Mismatch(fields: seq<CrossField>) | MissingSplits(names: seq<string>)

  method LoadAndValidateReport(b: Bundle) returns (r: Result<TrainingReport, ReportError>)
    ensures r.Success? <==> ReportMatches(b)
    ensures r.Success? ==> b.report == Parsed(r.value)
    ensures r == Failure(MissingReport) <==> b.report.NoReport?
    ensures r == Failure(MalformedReport) <==> b.report.Unparsable?
    ensures r.Failure? && r.error.Mismatch? ==>
      b.report.Parsed? && r.error.fields != [] && ListsMismatches(r.error.fields, b.report.report, b)
    ensures r.Failure? && r.error.MissingSplits? ==>
      && b.report.Parsed? && ListsMismatches([], b.report.report, b) && r.error.names != []
      && forall s :: s in r.error.names <==>
          (s == "train" || s == "calibration" || s == "test") && s !in b.report.report.splitClassCounts
  {
    match b.report {
      case NoReport => return Failure(MissingReport);
      case Unparsable(_) => return Failure(MalformedReport);
      case Parsed(_) =>
    }
    var report := b.report.report;
    var mismatches: seq<CrossField> := [];
    for i := 0 to |CROSS_CHECK_FIELDS|
      invariant forall f :: f in mismatches <==> f in CROSS_CHECK_FIELDS[..i] && !FieldAgrees(f, report, b)
    {
      if !FieldAgrees(CROSS_CHECK_FIELDS[i], report, b) {
        mismatches := mismatches + [CROSS_CHECK_FIELDS[i]];
      }
    }
    EveryCrossFieldListed();
    if mismatches != [] {
      assert mismatches[0] in mismatches;
      return Failure(Mismatch(mismatches));
    }
    assert ListsMismatches(mismatches, report, b);
    var missing: seq<string> := [];
    for i := 0 to |REQUIRED_SPLITS|
      invariant forall s :: s in missing <==> s in REQUIRED_SPLITS[..i] && s !in report.splitClassCounts
    {
      if REQUIRED_SPLITS[i] !in report.splitClassCounts {
        missing := missing + [REQUIRED_SPLITS[i]];
      }
    }
    assert REQUIRED_SPLITS[..|REQUIRED_SPLITS|] == REQUIRED_SPLITS;
    assert forall s :: s in REQUIRED_SPLITS <==> s == "train" || s == "calibration" || s == "test" by {
      assert REQUIRED_SPLITS[0] == "train" && REQUIRED_SPLITS[1] == "calibration" && REQUIRED_SPLITS[2] == "test";
    }
    if missing != [] {
      assert missing[0] in missing;
      return Failure(MissingSplits(missing));
    }
    r := Success(report);
  }

  lemma {:induction false} EveryCrossFieldListed()
    ensures forall f: CrossField :: f in CROSS_CHECK_FIELDS[..|CROSS_CHECK_FIELDS|]
  {
    forall f: CrossField ensures f in CROSS_CHECK_FIELDS[..|CROSS_CHECK_FIELDS|] {
      var c := CROSS_CHECK_FIELDS;
      match f {
        case ChannelField => assert c[0] == f;
        case TrainingRunField => assert c[1] == f;
        case DatasetField => assert c[2] == f;
        case FeatureSchemaField => assert c[3] == f;
        case GbmField => assert c[4] == f;
        case LrField => assert c[5] == f;
        case AnomalyField => assert c[6] == f;
        case PreprocessingField => assert c[7] == f;
      }
    }
  }

  // ---- the promotion gate ----

  const MIN_CLASS_COUNT := 5

  datatype GateReason =
    | TooFewFraud(split: string, count: int)
    | TooFewLegitimate(split: string, count: int)
    | NotComputable
    | NotAboveBaseline(prAuc: real, prevalence: real)

  function ClassCount(r: TrainingReport, split: string, class_: string): int {
    if split in r.splitClassCounts && class_ in r.splitClassCounts[split] then r.splitClassCounts[split][class_] else 0
  }

  function Prevalence(r: TrainingReport): Option<real> {
    var fraud := ClassCount(r, "test", "fraud");
    var total := fraud + ClassCount(r, "test", "legitimate");
    if total > 0 then Some(fraud as real / total as real) else None
  }

  /** The split lists at least n rows of the class. */
  predicate AtLeast(r: TrainingReport, split: string, class_: string, n: int) {
    split in r.splitClassCounts && class_ in r.splitClassCounts[split] && r.splitClassCounts[split][class_] >= n
  }

  /** At least five rows of both classes in every split, and a PR-AUC above the base rate of the test split. */
  ghost predicate GatePasses(r: TrainingReport) {
    && AtLeast(r, "train", "fraud", 5) && AtLeast(r, "train", "legitimate", 5)
    && AtLeast(r, "calibration", "fraud", 5) && AtLeast(r, "calibration", "legitimate", 5)
    && AtLeast(r, "test", "fraud", 5) && AtLeast(r, "test", "legitimate", 5)
    && r.gbmPrAuc.Some?
    && var test := r.splitClassCounts["test"];
       test["fraud"] as real < r.gbmPrAuc.value * (test["fraud"] + test["legitimate"]) as real
  }

  /** Enough rows everywhere, in the code's own terms. */
  ghost predicate CountsSuffice(r: TrainingReport) {
    forall s :: s in REQUIRED_SPLITS ==>
      ClassCount(r, s, "fraud") >= MIN_CLASS_COUNT && ClassCount(r, s, "legitimate") >= MIN_CLASS_COUNT
  }

  lemma {:induction false} GateInCounts(r: TrainingReport)
    ensures GatePasses(r) <==>
      && CountsSuffice(r) && r.gbmPrAuc.Some?
      && ClassCount(r, "test", "fraud") as real
         < r.gbmPrAuc.value * (ClassCount(r, "test", "fraud") + ClassCount(r, "test", "legitimate")) as real
  {
    assert REQUIRED_SPLITS[0] == "train" && REQUIRED_SPLITS[1] == "calibration" && REQUIRED_SPLITS[2] == "test";
    forall s, c ensures AtLeast(r, s, c, 5) <==> ClassCount(r, s, c) >= MIN_CLASS_COUNT {
    }
  }

  lemma {:induction false} AboveBaseline(x: real, a: real, b: real)
    requires b > 0.0
    ensures x > a / b <==> a < x * b
  {
    assert a == (a / b) * b;
    if x > a / b { assert (x - a / b) * b > 0.0; } else { assert (a / b - x) * b >= 0.0; }
  }

  method EvaluateGate(r: TrainingReport) returns (passed: bool, reasons: seq<GateReason>)
    ensures passed <==> GatePasses(r)
    ensures passed <==> reasons == []
    ensures forall s :: s in REQUIRED_SPLITS ==>
      (TooFewFraud(s, ClassCount(r, s, "fraud")) in reasons <==> ClassCount(r, s, "fraud") < MIN_CLASS_COUNT)
    ensures forall s :: s in REQUIRED_SPLITS ==>
      (TooFewLegitimate(s, ClassCount(r, s, "legitimate")) in reasons <==>
        ClassCount(r, s, "legitimate") < MIN_CLASS_COUNT)
    ensures NotComputable in reasons <==> Prevalence(r).None? || r.gbmPrAuc.None?
    ensures forall p, b :: NotAboveBaseline(p, b) in reasons <==>
      Prevalence(r) == Some(b) && r.gbmPrAuc == Some(p) && p <= b
  {
    reasons := [];
    for i := 0 to |REQUIRED_SPLITS|
      invariant forall x :: x in reasons ==> !x.NotComputable? && !x.NotAboveBaseline?
      invariant forall s, n :: TooFewFraud(s, n) in reasons <==>
        s in REQUIRED_SPLITS[..i] && n == ClassCount(r, s, "fraud") < MIN_CLASS_COUNT
      invariant forall s, n :: TooFewLegitimate(s, n) in reasons <==>
        s in REQUIRED_SPLITS[..i] && n == ClassCount(r, s, "legitimate") < MIN_CLASS_COUNT
    {
      var split := REQUIRED_SPLITS[i];
      assert REQUIRED_SPLITS[..i + 1] == REQUIRED_SPLITS[..i] + [split];
      var fraud, legitimate := ClassCount(r, split, "fraud"), ClassCount(r, split, "legitimate");
      if fraud < MIN_CLASS_COUNT {
        reasons := reasons + [TooFewFraud(split, fraud)];
      }
      if legitimate < MIN_CLASS_COUNT {
        reasons := reasons + [TooFewLegitimate(split, legitimate)];
      }
    }
    assert REQUIRED_SPLITS[..|REQUIRED_SPLITS|] == REQUIRED_SPLITS;
    ghost var counts := reasons;
    assert counts == [] <==> CountsSuffice(r) by { NoCountReasons(r, counts); }
    GateInCounts(r);
    assert REQUIRED_SPLITS[2] == "test";
    var prevalence := Prevalence(r);
    if prevalence.None? || r.gbmPrAuc.None? {
      reasons := reasons + [NotComputable];
    } else {
      AboveBaseline(r.gbmPrAuc.value, ClassCount(r, "test", "fraud") as real,
                    (ClassCount(r, "test", "fraud") + ClassCount(r, "test", "legitimate")) as real);
      if !(r.gbmPrAuc.value > prevalence.value) {
        reasons := reasons + [NotAboveBaseline(r.gbmPrAuc.value, prevalence.value)];
      }
    }
    passed := |reasons| == 0;
  }

  lemma {:induction false} NoCountReasons(r: TrainingReport, reasons: seq<GateReason>)
    requires forall x :: x in reasons ==> !x.NotComputable? && !x.NotAboveBaseline?
    requires forall s, n :: TooFewFraud(s, n) in reasons <==>
      s in REQUIRED_SPLITS && n == ClassCount(r, s, "fraud") < MIN_CLASS_COUNT
    requires forall s, n :: TooFewLegitimate(s, n) in reasons <==>
      s in REQUIRED_SPLITS && n == ClassCount(r, s, "legitimate") < MIN_CLASS_COUNT
    ensures reasons == [] <==> CountsSuffice(r)
  {
    if reasons == [] {
      forall s | s in REQUIRED_SPLITS
        ensures ClassCount(r, s, "fraud") >= MIN_CLASS_COUNT && ClassCount(r, s, "legitimate") >= MIN_CLASS_COUNT
      {
        assert TooFewFraud(s, ClassCount(r, s, "fraud")) !in reasons;
        assert TooFewLegitimate(s, ClassCount(r, s, "legitimate")) !in reasons;
      }
    } else {
      assert reasons[0] in reasons;
    }
  }

  /** The bundle row itself proves it may be a channel's first. */
  ghost predicate GateCleared(b: Bundle) { ReportMatches(b) && GatePasses(b.report.report) }

  /** Promotion changes nothing that the gate decision depends on. */
  lemma {:induction false} GateReadsNoPromotionField(
    b: Bundle, status: BundleStatus, at: Option<int>, who: Option<string>)
    ensures GateCleared(b.(status := status, promotedAt := at, promotedBy := who)) <==> GateCleared(b)
  {
  }
}
