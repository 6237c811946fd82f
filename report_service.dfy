/** `ReportService` (`scan2mesh_gui.services.report_service`): turns the
    sessions of a scan into a quality report. It reads each stage's metrics
    into a summary, evaluates the quality gates against the configured
    thresholds, recommends an action for every failing or warning gate and
    derives the overall status and its message. The service only reads
    its thresholds, so they are passed to every operation. */
module ReportService {
  import opened Common
  import opened Format
  import opened Timestamps
  import opened ScanObjects
  import opened ReportSessions
  import CaptureSessions
  import PreprocessSessions
  import ReconstructSessions
  import OptimizeSessions
  import PackageSessions

  /** `QualityThresholds` of the application configuration. */
  datatype QualityThresholds = QualityThresholds(
    depthValidRatioWarn: real,
    depthValidRatioFail: real,
    blurScoreWarn: real,
    blurScoreFail: real,
    coverageWarn: real,
    coverageFail: real,
    minKeyframes: int)

  /** `QualityThresholds()`: each warn level lies above its fail level. */
  function DefaultThresholds(): (t: QualityThresholds)
    ensures t.depthValidRatioFail < t.depthValidRatioWarn && t.blurScoreFail < t.blurScoreWarn
    ensures t.coverageFail < t.coverageWarn && t.minKeyframes == 10
    ensures t.depthValidRatioWarn == 0.7 && t.depthValidRatioFail == 0.5
    ensures t.blurScoreWarn == 0.6 && t.blurScoreFail == 0.4
    ensures t.coverageWarn == 0.7 && t.coverageFail == 0.5
  {
    QualityThresholds(0.7, 0.5, 0.6, 0.4, 0.7, 0.5, 10)
  }

  // ---------------------------------------------------------------------
  // Threshold evaluation
  // ---------------------------------------------------------------------

  /** `_evaluate_threshold`: lower is worse, and a value equal to a
      threshold is not below it. */
  function EvaluateThreshold(value: real, warn: real, fail: real): (s: QualityStatus)
    ensures s == Fail <==> value < fail
    ensures s == Warn <==> fail <= value < warn
    ensures s == Pass <==> fail <= value && warn <= value
    ensures s != Pending
  {
    if value < fail then Fail
    else if value < warn then Warn
    else Pass
  }

  /** Pass above Warn above Fail; a pending status ranks with Fail. */
  function Goodness(s: QualityStatus): nat
  {
    match s
    case Pass => 2
    case Warn => 1
    case Fail => 0
    case Pending => 0
  }

  /** A larger metric never earns a worse status. */
  lemma EvaluateThresholdMonotone(v1: real, v2: real, warn: real, fail: real)
    requires v1 <= v2
    ensures Goodness(EvaluateThreshold(v1, warn, fail)) <= Goodness(EvaluateThreshold(v2, warn, fail))
  {
  }

  /** With the warn level at or below the fail level no value warns. */
  lemma EvaluateThresholdNoWarnBand(value: real, warn: real, fail: real)
    requires warn <= fail
    ensures EvaluateThreshold(value, warn, fail) != Warn
  {
  }

  /** A gate's reason for each status it can take. */
  datatype Reasons = Reasons(pass: string, warn: string, fail: string)

  function ReasonFor(rs: Reasons, s: QualityStatus): string
  {
    if s == Pass then rs.pass else if s == Warn then rs.warn else rs.fail
  }

  const DepthReasons := Reasons("Depth data quality is good", "Some depth data quality issues",
                                "Significant depth data quality problems")

  const BlurReasons := Reasons("Images are sharp", "Some blurry images detected", "Many blurry images detected")

  const CoverageReasons := Reasons("Good coverage of object surface", "Some areas may be under-scanned",
                                   "Insufficient coverage of object surface")

  /** The two-way reasons give every status but PASS the second text. */
  const KeyframesReasons := Reasons("Sufficient keyframes captured", "Insufficient keyframes for quality reconstruction",
                                    "Insufficient keyframes for quality reconstruction")

  const MaskReasons := Reasons("Most frames have valid masks", "Some frames have invalid masks",
                               "Many frames have invalid masks")

  const WatertightReasons := Reasons("Mesh is watertight", "Mesh has open boundaries", "Mesh has open boundaries")

  const TrackingReasons := Reasons("Tracking was stable", "Some tracking issues detected",
                                   "Significant tracking problems")

  const LodReasons := Reasons("All LOD levels generated", "Some LOD levels missing", "Some LOD levels missing")

  // ---------------------------------------------------------------------
  // Quality gates
  // ---------------------------------------------------------------------

  /** The gate names, which are also the keys of the action table. */
  const KeyframesName := "Minimum Keyframes"
  const DepthName := "Depth Valid Ratio"
  const BlurName := "Blur Score"
  const CoverageName := "Coverage"
  const MaskName := "Mask Validity"
  const WatertightName := "Mesh Watertight"
  const TrackingName := "Tracking Quality"
  const LodName := "LOD Generation"

  const CaptureGateNames: seq<string> := [KeyframesName, DepthName, BlurName, CoverageName]

  predicate IsCaptureGate(name: string)
  {
    name == KeyframesName || name == DepthName || name == BlurName || name == CoverageName
  }

  /** A name `evaluate_quality_gates` can produce. */
  predicate IsKnownGate(name: string)
  {
    IsCaptureGate(name) || name == MaskName || name == WatertightName || name == TrackingName || name == LodName
  }

  /** The keyframe count is checked against a minimum and never warns. */
  function KeyframesGate(t: QualityThresholds, numKeyframes: nat): (g: QualityGateResult)
    ensures g.gateName == KeyframesName
    ensures g.status == Pass <==> numKeyframes >= t.minKeyframes
    ensures g.status == Fail <==> numKeyframes < t.minKeyframes
    ensures g.value == IntValue(numKeyframes) && g.threshold == ">= " + IntToString(t.minKeyframes)
  {
    var status := if numKeyframes >= t.minKeyframes then Pass else Fail;
    QualityGateResult(KeyframesName, status, IntValue(numKeyframes), ">= " + IntToString(t.minKeyframes),
                      ReasonFor(KeyframesReasons, status))
  }

  /** A ratio gate: evaluated by `_evaluate_threshold`, shown with two
      decimals, its threshold the fail level. */
  function RatioGate(name: string, value: real, warn: real, fail: real, reasons: Reasons)
    : (g: QualityGateResult)
    ensures g.gateName == name && g.status == EvaluateThreshold(value, warn, fail)
    ensures g.value == TextValue(Fixed(value, 2)) && g.threshold == ">= " + FloatRepr(fail)
    ensures g.reason == ReasonFor(reasons, g.status)
  {
    var status := EvaluateThreshold(value, warn, fail);
    QualityGateResult(name, status, TextValue(Fixed(value, 2)), ">= " + FloatRepr(fail), ReasonFor(reasons, status))
  }

  function DepthGate(t: QualityThresholds, c: CaptureMetricsSummary): (g: QualityGateResult)
    ensures g.gateName == DepthName
    ensures g.status == EvaluateThreshold(c.depthValidRatio, t.depthValidRatioWarn, t.depthValidRatioFail)
  {
    RatioGate(DepthName, c.depthValidRatio, t.depthValidRatioWarn, t.depthValidRatioFail, DepthReasons)
  }

  function BlurGate(t: QualityThresholds, c: CaptureMetricsSummary): (g: QualityGateResult)
    ensures g.gateName == BlurName
    ensures g.status == EvaluateThreshold(c.blurScore, t.blurScoreWarn, t.blurScoreFail)
  {
    RatioGate(BlurName, c.blurScore, t.blurScoreWarn, t.blurScoreFail, BlurReasons)
  }

  function CoverageGate(t: QualityThresholds, c: CaptureMetricsSummary): (g: QualityGateResult)
    ensures g.gateName == CoverageName
    ensures g.status == EvaluateThreshold(c.coverage, t.coverageWarn, t.coverageFail)
  {
    RatioGate(CoverageName, c.coverage, t.coverageWarn, t.coverageFail, CoverageReasons)
  }

  /** The four capture gates, in the order they are appended. */
  function CaptureGates(t: QualityThresholds, c: CaptureMetricsSummary): (gates: seq<QualityGateResult>)
    ensures |gates| == 4
    ensures gates[0].gateName == KeyframesName && gates[1].gateName == DepthName
    ensures gates[2].gateName == BlurName && gates[3].gateName == CoverageName
  {
    [KeyframesGate(t, c.numKeyframes), DepthGate(t, c), BlurGate(t, c), CoverageGate(t, c)]
  }

  /** `a / b >= c` for a positive `b`, without the division. */
  lemma QuotientAtLeast(a: real, b: real, c: real)
    requires b > 0.0
    ensures a / b >= c <==> a >= c * b
  {
    assert a / b * b == a;
    if a / b >= c {
      assert (a / b - c) * b >= 0.0;
    } else {
      assert (c - a / b) * b > 0.0;
    }
  }

  /** `a / b <= c` for a positive `b`, without the division. */
  lemma QuotientAtMost(a: real, b: real, c: real)
    requires b > 0.0
    ensures a / b <= c <==> a <= c * b
  {
    assert a / b * b == a;
    if a / b <= c {
      assert (c - a / b) * b >= 0.0;
    } else {
      assert (a / b - c) * b > 0.0;
    }
  }

  /** `num_valid_masks / num_frames_processed`, or 0 with no frames. */
  function MaskRatio(p: PreprocessMetricsSummary): (r: real)
    ensures r >= 0.0
    ensures p.numFramesProcessed > 0 ==> r * p.numFramesProcessed as real == p.numValidMasks as real
    ensures p.numFramesProcessed == 0 ==> r == 0.0
  {
    if p.numFramesProcessed > 0 then p.numValidMasks as real / p.numFramesProcessed as real else 0.0
  }

  /** The mask ratio's bands in whole numbers of frames. */
  lemma MaskRatioBands(p: PreprocessMetricsSummary)
    ensures MaskRatio(p) >= 0.9 <==> p.numFramesProcessed > 0 && 10 * p.numValidMasks >= 9 * p.numFramesProcessed
    ensures MaskRatio(p) >= 0.7 <==> p.numFramesProcessed > 0 && 10 * p.numValidMasks >= 7 * p.numFramesProcessed
  {
    if p.numFramesProcessed > 0 {
      QuotientAtLeast(p.numValidMasks as real, p.numFramesProcessed as real, 0.9);
      QuotientAtLeast(p.numValidMasks as real, p.numFramesProcessed as real, 0.7);
    }
  }

  /** Mask Validity passes from nine valid masks in ten, warns from seven in
      ten, and fails otherwise, in particular when no frame was processed. */
  function MaskGate(p: PreprocessMetricsSummary): (g: QualityGateResult)
    ensures g.gateName == MaskName && g.threshold == ">= 0.9"
    ensures g.value == TextValue(Fixed(MaskRatio(p), 2))
    ensures g.status == Pass <==> p.numFramesProcessed > 0 && 10 * p.numValidMasks >= 9 * p.numFramesProcessed
    ensures g.status == Warn <==> 10 * p.numValidMasks < 9 * p.numFramesProcessed
                                  && 10 * p.numValidMasks >= 7 * p.numFramesProcessed
    ensures g.status == Fail <==> p.numFramesProcessed == 0 || 10 * p.numValidMasks < 7 * p.numFramesProcessed
  {
    var ratio := MaskRatio(p);
    MaskRatioBands(p);
    var status := if ratio >= 0.9 then Pass else if ratio >= 0.7 then Warn else Fail;
    QualityGateResult(MaskName, status, TextValue(Fixed(ratio, 2)), ">= 0.9",
                      ReasonFor(MaskReasons, status))
  }

  /** An open mesh only warns. */
  function WatertightGate(r: ReconstructMetricsSummary): (g: QualityGateResult)
    ensures g.gateName == WatertightName && g.threshold == "Yes"
    ensures g.status == Pass <==> r.isWatertight
    ensures g.status == Warn <==> !r.isWatertight
    ensures g.value == TextValue(if r.isWatertight then "Yes" else "No")
  {
    var status := if r.isWatertight then Pass else Warn;
    QualityGateResult(WatertightName, status, TextValue(if r.isWatertight then "Yes" else "No"), "Yes",
                      ReasonFor(WatertightReasons, status))
  }

  /** `tracking_loss_frames / keyframes_used`, or 0 with no keyframes. */
  function TrackingLossRatio(r: ReconstructMetricsSummary): (x: real)
    ensures x >= 0.0
    ensures r.keyframesUsed > 0 ==> x * r.keyframesUsed as real == r.trackingLossFrames as real
    ensures r.keyframesUsed == 0 ==> x == 0.0
  {
    if r.keyframesUsed > 0 then r.trackingLossFrames as real / r.keyframesUsed as real else 0.0
  }

  /** The tracking-loss ratio's bands in whole numbers of frames. */
  lemma TrackingLossBands(r: ReconstructMetricsSummary)
    ensures TrackingLossRatio(r) <= 0.05 <==> r.keyframesUsed == 0 || 20 * r.trackingLossFrames <= r.keyframesUsed
    ensures TrackingLossRatio(r) <= 0.15 <==> r.keyframesUsed == 0 || 20 * r.trackingLossFrames <= 3 * r.keyframesUsed
  {
    if r.keyframesUsed > 0 {
      QuotientAtMost(r.trackingLossFrames as real, r.keyframesUsed as real, 0.05);
      QuotientAtMost(r.trackingLossFrames as real, r.keyframesUsed as real, 0.15);
    }
  }

  /** Tracking passes up to one lost frame in twenty keyframes (5%), warns
      up to three in twenty (15%), and fails beyond that. */
  function TrackingGate(r: ReconstructMetricsSummary): (g: QualityGateResult)
    ensures g.gateName == TrackingName && g.threshold == "<= 5% loss"
    ensures g.value == TextValue(NatToString(r.trackingLossFrames) + " frames")
    ensures g.status == Pass <==> r.keyframesUsed == 0 || 20 * r.trackingLossFrames <= r.keyframesUsed
    ensures g.status == Warn <==> r.keyframesUsed < 20 * r.trackingLossFrames <= 3 * r.keyframesUsed
    ensures g.status == Fail <==> r.keyframesUsed > 0 && 20 * r.trackingLossFrames > 3 * r.keyframesUsed
  {
    var ratio := TrackingLossRatio(r);
    TrackingLossBands(r);
    var status := if ratio <= 0.05 then Pass else if ratio <= 0.15 then Warn else Fail;
    QualityGateResult(TrackingName, status, TextValue(NatToString(r.trackingLossFrames) + " frames"),
                      "<= 5% loss",
                      ReasonFor(TrackingReasons, status))
  }

  /** The two reconstruction gates, in the order they are appended. */
  function ReconstructGates(r: ReconstructMetricsSummary): (gates: seq<QualityGateResult>)
    ensures |gates| == 2 && gates[0].gateName == WatertightName && gates[1].gateName == TrackingName
    ensures gates[0].status != Fail
  {
    [WatertightGate(r), TrackingGate(r)]
  }

  /** LOD Generation passes iff every level has triangles; it never warns. */
  function LodGate(o: OptimizeMetricsSummary): (g: QualityGateResult)
    ensures g.gateName == LodName
    ensures g.status == Pass <==> o.lod0Triangles > 0 && o.lod1Triangles > 0 && o.lod2Triangles > 0
    ensures g.status == Fail <==> o.lod0Triangles == 0 || o.lod1Triangles == 0 || o.lod2Triangles == 0
    ensures g.value == TextValue("3 levels") && g.threshold == "3 levels"
  {
    var status := if o.lod0Triangles > 0 && o.lod1Triangles > 0 && o.lod2Triangles > 0 then Pass else Fail;
    QualityGateResult(LodName, status, TextValue("3 levels"), "3 levels",
                      ReasonFor(LodReasons, status))
  }

  // ---------------------------------------------------------------------
  // evaluate_quality_gates
  // ---------------------------------------------------------------------

  /** Every gate is a known gate with a settled status. */
  predicate KnownAndSettled(gates: seq<QualityGateResult>)
  {
    forall i :: 0 <= i < |gates| ==> IsKnownGate(gates[i].gateName) && gates[i].status != Pending
  }

  lemma KnownAndSettledAppend(a: seq<QualityGateResult>, b: seq<QualityGateResult>)
    requires KnownAndSettled(a) && KnownAndSettled(b)
    ensures KnownAndSettled(a + b)
  {
    forall i | 0 <= i < |a + b|
      ensures IsKnownGate((a + b)[i].gateName) && (a + b)[i].status != Pending
    {
      if i >= |a| {
        assert (a + b)[i] == b[i - |a|];
      }
    }
  }

  predicate KnownAndSettledGate(g: QualityGateResult)
  {
    IsKnownGate(g.gateName) && g.status != Pending
  }

  lemma KnownAndSettledFour(a: QualityGateResult, b: QualityGateResult, c: QualityGateResult, d: QualityGateResult)
    requires KnownAndSettledGate(a) && KnownAndSettledGate(b) && KnownAndSettledGate(c) && KnownAndSettledGate(d)
    ensures KnownAndSettled([a, b, c, d])
  {
  }

  lemma KnownAndSettledTwo(a: QualityGateResult, b: QualityGateResult)
    requires KnownAndSettledGate(a) && KnownAndSettledGate(b)
    ensures KnownAndSettled([a, b])
  {
  }

  /** The gate names in order. */
  function Names(gates: seq<QualityGateResult>): (names: seq<string>)
    ensures |names| == |gates|
    ensures forall i :: 0 <= i < |gates| ==> names[i] == gates[i].gateName
  {
    if gates == [] then [] else Names(gates[..|gates| - 1]) + [gates[|gates| - 1].gateName]
  }

  lemma NamesAppend(a: seq<QualityGateResult>, b: seq<QualityGateResult>)
    ensures Names(a + b) == Names(a) + Names(b)
  {
    assert |Names(a + b)| == |Names(a) + Names(b)|;
    forall i | 0 <= i < |a + b| ensures Names(a + b)[i] == (Names(a) + Names(b))[i] {
      if i >= |a| {
        assert (a + b)[i] == b[i - |a|];
      }
    }
  }

  /** The capture section: four gates when the summary is present. */
  function CaptureSection(t: QualityThresholds, c: Option<CaptureMetricsSummary>): (gates: seq<QualityGateResult>)
    ensures |gates| == if c.Some? then 4 else 0
  {
    if c.Some? then CaptureGates(t, c.value) else []
  }

  /** The preprocess section: the mask gate when the summary is present. */
  function PreprocessSection(p: Option<PreprocessMetricsSummary>): (gates: seq<QualityGateResult>)
    ensures |gates| == if p.Some? then 1 else 0
  {
    if p.Some? then [MaskGate(p.value)] else []
  }

  /** The reconstruction section: two gates when the summary is present. */
  function ReconstructSection(r: Option<ReconstructMetricsSummary>): (gates: seq<QualityGateResult>)
    ensures |gates| == if r.Some? then 2 else 0
  {
    if r.Some? then ReconstructGates(r.value) else []
  }

  /** The optimisation section: the LOD gate when the summary is present. */
  function OptimizeSection(o: Option<OptimizeMetricsSummary>): (gates: seq<QualityGateResult>)
    ensures |gates| == if o.Some? then 1 else 0
  {
    if o.Some? then [LodGate(o.value)] else []
  }

  /** Each section holds known, settled gates under its own names. */
  lemma CaptureSectionNamed(t: QualityThresholds, c: Option<CaptureMetricsSummary>)
    ensures KnownAndSettled(CaptureSection(t, c))
    ensures Names(CaptureSection(t, c)) == if c.Some? then CaptureGateNames else []
  {
    if c.Some? {
      var gs := CaptureGates(t, c.value);
      KnownAndSettledFour(gs[0], gs[1], gs[2], gs[3]);
      NamesFour(gs[0], gs[1], gs[2], gs[3]);
      assert gs == [gs[0], gs[1], gs[2], gs[3]];
    }
  }

  lemma PreprocessSectionNamed(p: Option<PreprocessMetricsSummary>)
    ensures KnownAndSettled(PreprocessSection(p))
    ensures Names(PreprocessSection(p)) == if p.Some? then [MaskName] else []
  {
  }

  lemma ReconstructSectionNamed(r: Option<ReconstructMetricsSummary>)
    ensures KnownAndSettled(ReconstructSection(r))
    ensures Names(ReconstructSection(r)) == if r.Some? then [WatertightName, TrackingName] else []
  {
    if r.Some? {
      var gs := ReconstructGates(r.value);
      KnownAndSettledTwo(gs[0], gs[1]);
      NamesTwo(gs[0], gs[1]);
      assert gs == [gs[0], gs[1]];
    }
  }

  lemma OptimizeSectionNamed(o: Option<OptimizeMetricsSummary>)
    ensures KnownAndSettled(OptimizeSection(o))
    ensures Names(OptimizeSection(o)) == if o.Some? then [LodName] else []
  {
  }

  /** The gates of a report, section by section: capture, preprocess,
      reconstruction, optimisation. An absent summary adds no gate. */
  function ExpectedGates(t: QualityThresholds, c: Option<CaptureMetricsSummary>,
                         p: Option<PreprocessMetricsSummary>, r: Option<ReconstructMetricsSummary>,
                         o: Option<OptimizeMetricsSummary>): (gates: seq<QualityGateResult>)
    ensures |gates| == (if c.Some? then 4 else 0) + (if p.Some? then 1 else 0)
                       + (if r.Some? then 2 else 0) + (if o.Some? then 1 else 0)
    ensures |gates| <= 8
  {
    CaptureSection(t, c) + PreprocessSection(p) + ReconstructSection(r) + OptimizeSection(o)
  }

  /** Appending four gates one at a time appends the four of them. */
  lemma AppendFour<T>(s: seq<T>, a: T, b: T, c: T, d: T)
    ensures s + [a] + [b] + [c] + [d] == s + [a, b, c, d]
  {
  }

  lemma AppendTwo<T>(s: seq<T>, a: T, b: T)
    ensures s + [a] + [b] == s + [a, b]
  {
  }

  method AppendCaptureGates(gates: seq<QualityGateResult>, t: QualityThresholds, c: Option<CaptureMetricsSummary>)
    returns (out: seq<QualityGateResult>)
    ensures out == gates + CaptureSection(t, c)
  {
    out := gates;
    if c.Some? {
      var k, d, b, v := KeyframesGate(t, c.value.numKeyframes), DepthGate(t, c.value), BlurGate(t, c.value),
                        CoverageGate(t, c.value);
      out := out + [k];
      out := out + [d];
      out := out + [b];
      out := out + [v];
      AppendFour(gates, k, d, b, v);
    }
  }

  method AppendPreprocessGate(gates: seq<QualityGateResult>, p: Option<PreprocessMetricsSummary>)
    returns (out: seq<QualityGateResult>)
    ensures out == gates + PreprocessSection(p)
  {
    out := gates;
    if p.Some? {
      out := out + [MaskGate(p.value)];
    }
  }

  method AppendReconstructGates(gates: seq<QualityGateResult>, r: Option<ReconstructMetricsSummary>)
    returns (out: seq<QualityGateResult>)
    ensures out == gates + ReconstructSection(r)
  {
    out := gates;
    if r.Some? {
      var w, k := WatertightGate(r.value), TrackingGate(r.value);
      out := out + [w];
      out := out + [k];
      AppendTwo(gates, w, k);
    }
  }

  method AppendOptimizeGate(gates: seq<QualityGateResult>, o: Option<OptimizeMetricsSummary>)
    returns (out: seq<QualityGateResult>)
    ensures out == gates + OptimizeSection(o)
  {
    out := gates;
    if o.Some? {
      out := out + [LodGate(o.value)];
    }
  }

  /** `evaluate_quality_gates`: appends the gates of each present summary,
      section by section. */
  method EvaluateQualityGates(t: QualityThresholds, c: Option<CaptureMetricsSummary>,
                              p: Option<PreprocessMetricsSummary>, r: Option<ReconstructMetricsSummary>,
                              o: Option<OptimizeMetricsSummary>) returns (gates: seq<QualityGateResult>)
    ensures gates == ExpectedGates(t, c, p, r, o)
  {
    gates := AppendCaptureGates([], t, c);
    assert gates == CaptureSection(t, c);
    gates := AppendPreprocessGate(gates, p);
    gates := AppendReconstructGates(gates, r);
    gates := AppendOptimizeGate(gates, o);
  }

  lemma NamesFour(a: QualityGateResult, b: QualityGateResult, c: QualityGateResult, d: QualityGateResult)
    ensures Names([a, b, c, d]) == [a.gateName, b.gateName, c.gateName, d.gateName]
  {
    assert [a, b, c, d][..3] == [a, b, c];
    assert [a, b, c][..2] == [a, b];
    assert [a, b][..1] == [a];
  }

  lemma NamesTwo(a: QualityGateResult, b: QualityGateResult)
    ensures Names([a, b]) == [a.gateName, b.gateName]
  {
    assert [a, b][..1] == [a];
  }

  /** Every gate of a report is a known gate with a PASS, WARN or FAIL
      status. */
  lemma ExpectedGatesSettled(t: QualityThresholds, c: Option<CaptureMetricsSummary>,
                             p: Option<PreprocessMetricsSummary>,
                             r: Option<ReconstructMetricsSummary>, o: Option<OptimizeMetricsSummary>)
    ensures KnownAndSettled(ExpectedGates(t, c, p, r, o))
  {
    var cg, pg, rg, og := CaptureSection(t, c), PreprocessSection(p), ReconstructSection(r), OptimizeSection(o);
    CaptureSectionNamed(t, c);
    PreprocessSectionNamed(p);
    ReconstructSectionNamed(r);
    OptimizeSectionNamed(o);
    KnownAndSettledAppend(cg, pg);
    KnownAndSettledAppend(cg + pg, rg);
    KnownAndSettledAppend(cg + pg + rg, og);
  }

  /** The gates come in the fixed section order: capture, preprocess,
      reconstruction, optimisation. */
  lemma ExpectedGateNames(t: QualityThresholds, c: Option<CaptureMetricsSummary>,
                          p: Option<PreprocessMetricsSummary>,
                          r: Option<ReconstructMetricsSummary>, o: Option<OptimizeMetricsSummary>)
    ensures Names(ExpectedGates(t, c, p, r, o))
            == (if c.Some? then CaptureGateNames else []) + (if p.Some? then [MaskName] else [])
               + (if r.Some? then [WatertightName, TrackingName] else []) + (if o.Some? then [LodName] else [])
  {
    var cg, pg, rg, og := CaptureSection(t, c), PreprocessSection(p), ReconstructSection(r), OptimizeSection(o);
    CaptureSectionNamed(t, c);
    PreprocessSectionNamed(p);
    ReconstructSectionNamed(r);
    OptimizeSectionNamed(o);
    NamesAppend(cg, pg);
    NamesAppend(cg + pg, rg);
    NamesAppend(cg + pg + rg, og);
  }

  // ---------------------------------------------------------------------
  // Recommended actions
  // ---------------------------------------------------------------------

  /** One row of the action table: the texts and priorities for a failing
      and for a warning gate. */
  datatype GateActions = GateActions(failAction: string, warnAction: string,
                                     failPriority: ActionPriority, warnPriority: ActionPriority)

  /** How urgent a priority is: HIGH above MEDIUM above LOW. */
  function Urgency(p: ActionPriority): nat
  {
    match p
    case High => 2
    case Medium => 1
    case Low => 0
  }

  /** The eight gates by kind. */
  datatype GateKind =
    | MinimumKeyframes | DepthValidRatio | BlurScore | CoverageKind
    | MaskValidity | MeshWatertight | TrackingQuality | LodGeneration

  function KindName(k: GateKind): string
  {
    match k
    case MinimumKeyframes => KeyframesName
    case DepthValidRatio => DepthName
    case BlurScore => BlurName
    case CoverageKind => CoverageName
    case MaskValidity => MaskName
    case MeshWatertight => WatertightName
    case TrackingQuality => TrackingName
    case LodGeneration => LodName
  }

  /** The kind of a gate name; unknown names have none. */
  function GateKindOf(name: string): (k: Option<GateKind>)
    ensures k.Some? <==> IsKnownGate(name)
    ensures k.Some? ==> KindName(k.value) == name
  {
    if name == KeyframesName then Some(MinimumKeyframes)
    else if name == DepthName then Some(DepthValidRatio)
    else if name == BlurName then Some(BlurScore)
    else if name == CoverageName then Some(CoverageKind)
    else if name == MaskName then Some(MaskValidity)
    else if name == WatertightName then Some(MeshWatertight)
    else if name == TrackingName then Some(TrackingQuality)
    else if name == LodName then Some(LodGeneration)
    else None
  }

  /** The failing and warning priorities of a gate: failing is always
      more urgent, a warning is never HIGH, and only the mask and
      watertight gates fail at MEDIUM. */
  function KindPriorities(k: GateKind): (p: (ActionPriority, ActionPriority))
    ensures Urgency(p.0) > Urgency(p.1)
    ensures p.1 != High
    ensures p.0 == High <==> k != MaskValidity && k != MeshWatertight
  {
    match k
    case MinimumKeyframes => (High, Medium)
    case DepthValidRatio => (High, Low)
    case BlurScore => (High, Low)
    case CoverageKind => (High, Medium)
    case MaskValidity => (Medium, Low)
    case MeshWatertight => (Medium, Low)
    case TrackingQuality => (High, Medium)
    case LodGeneration => (High, Medium)
  }

  /** The failing and warning action texts of a gate. */
  function KindTexts(k: GateKind): (string, string)
  {
    match k
    case MinimumKeyframes => ("Capture more frames from different angles", "Consider capturing additional frames")
    case DepthValidRatio => ("Improve lighting and reduce reflective surfaces", "Check lighting conditions")
    case BlurScore => ("Slow down camera movement and ensure stable capture", "Try to capture with steadier hands")
    case CoverageKind => ("Capture from more angles to improve surface coverage", "Consider capturing more angles")
    case MaskValidity => ("Improve background contrast or adjust masking parameters", "Review masking settings")
    case MeshWatertight => ("Review mesh for holes and consider manual fixes", "Minor mesh issues may be acceptable")
    case TrackingQuality => ("Re-scan with slower, more deliberate movements", "Consider re-scanning problematic areas")
    case LodGeneration => ("Check mesh quality and re-run optimization", "Review optimization settings")
  }

  /** A row of the action table of `_get_action_for_gate`. */
  function KindActions(k: GateKind): GateActions
  {
    GateActions(KindTexts(k).0, KindTexts(k).1, KindPriorities(k).0, KindPriorities(k).1)
  }

  /** The action table looked up by gate name. */
  function ActionTable(name: string): (row: Option<GateActions>)
    ensures row.Some? <==> IsKnownGate(name)
  {
    match GateKindOf(name)
    case None => None
    case Some(k) => Some(KindActions(k))
  }

  /** `stage_map.get(gate_name, "Unknown")`. */
  function TargetStage(name: string): (stage: string)
    ensures stage == "Capture" <==> IsCaptureGate(name)
    ensures stage == "Preprocess" <==> name == MaskName
    ensures stage == "Reconstruct" <==> name == WatertightName || name == TrackingName
    ensures stage == "Optimize" <==> name == LodName
    ensures stage == "Unknown" <==> !IsKnownGate(name)
  {
    if IsCaptureGate(name) then "Capture"
    else if name == MaskName then "Preprocess"
    else if name == WatertightName || name == TrackingName then "Reconstruct"
    else if name == LodName then "Optimize"
    else "Unknown"
  }

  /** `_get_action_for_gate`: no action for an unknown gate; otherwise the
      failing or the warning text and priority, aimed at the gate's stage. */
  function ActionForGate(name: string, isFail: bool): (a: Option<RecommendedAction>)
    ensures a.None? <==> !IsKnownGate(name)
    ensures a.Some? ==> a.value.targetStage == TargetStage(name) && a.value.targetStage != "Unknown"
    ensures a.Some? ==> a.value.action == (if isFail then ActionTable(name).value.failAction
                                           else ActionTable(name).value.warnAction)
    ensures a.Some? ==> a.value.priority == (if isFail then ActionTable(name).value.failPriority
                                             else ActionTable(name).value.warnPriority)
  {
    match ActionTable(name)
    case None => None
    case Some(row) =>
      Some(RecommendedAction(if isFail then row.failAction else row.warnAction,
                             if isFail then row.failPriority else row.warnPriority,
                             TargetStage(name)))
  }

  /** A failing gate's action is more urgent than a warning one; a warning
      is never HIGH; a failure is HIGH except for the mask and watertight
      gates, whose failures are MEDIUM. */
  lemma PriorityBands(name: string)
    requires IsKnownGate(name)
    ensures Urgency(ActionForGate(name, true).value.priority) > Urgency(ActionForGate(name, false).value.priority)
    ensures ActionForGate(name, false).value.priority != High
    ensures ActionForGate(name, true).value.priority == High <==> name != MaskName && name != WatertightName
  {
    var k := GateKindOf(name).value;
    assert k == MaskValidity <==> name == MaskName;
    assert k == MeshWatertight <==> name == WatertightName;
  }

  /** The action one gate contributes: FAIL and WARN gates look theirs up,
      PASS and PENDING gates contribute none. */
  function GateRecommendation(g: QualityGateResult): (a: Option<RecommendedAction>)
    ensures a.Some? <==> (g.status == Fail || g.status == Warn) && IsKnownGate(g.gateName)
    ensures a.Some? ==> a == ActionForGate(g.gateName, g.status == Fail)
  {
    if g.status == Fail then ActionForGate(g.gateName, true)
    else if g.status == Warn then ActionForGate(g.gateName, false)
    else None
  }

  function OptionToSeq<T>(o: Option<T>): (s: seq<T>)
    ensures |s| == if o.Some? then 1 else 0
  {
    if o.Some? then [o.value] else []
  }

  /** The actions of the gates, in gate order. */
  function Recommendations(gates: seq<QualityGateResult>): (recs: seq<RecommendedAction>)
    ensures |recs| <= |gates|
  {
    if gates == [] then []
    else Recommendations(gates[..|gates| - 1]) + OptionToSeq(GateRecommendation(gates[|gates| - 1]))
  }

  /** `generate_recommendations`: one pass over the gates, appending each
      action found. */
  method GenerateRecommendations(gates: seq<QualityGateResult>) returns (recs: seq<RecommendedAction>)
    ensures recs == Recommendations(gates)
  {
    recs := [];
    var i := 0;
    while i < |gates|
      invariant 0 <= i <= |gates|
      invariant recs == Recommendations(gates[..i])
    {
      RecommendationsStep(gates, i);
      var action := GateRecommendation(gates[i]);
      if action.Some? {
        recs := recs + [action.value];
      }
      i := i + 1;
    }
    assert gates[..|gates|] == gates;
  }

  /** One more gate adds its own action, if any, at the end. */
  lemma RecommendationsStep(gates: seq<QualityGateResult>, i: nat)
    requires i < |gates|
    ensures Recommendations(gates[..i + 1]) == Recommendations(gates[..i]) + OptionToSeq(GateRecommendation(gates[i]))
  {
    assert gates[..i + 1][..i] == gates[..i];
  }

  /** Recommending over two lists of gates recommends over each in turn, so
      the actions keep the order of their gates. */
  lemma {:induction false} RecommendationsAppend(a: seq<QualityGateResult>, b: seq<QualityGateResult>)
    ensures Recommendations(a + b) == Recommendations(a) + Recommendations(b)
    decreases |b|
  {
    if b == [] {
      assert a + b == a;
    } else {
      var b' := b[..|b| - 1];
      assert (a + b)[..|a + b| - 1] == a + b';
      assert (a + b)[|a + b| - 1] == b[|b| - 1];
      RecommendationsAppend(a, b');
    }
  }

  /** `sum(1 for g in gates if g.status == s)`. */
  function CountStatus(gates: seq<QualityGateResult>, s: QualityStatus): (n: nat)
    ensures n <= |gates|
  {
    if gates == [] then 0
    else CountStatus(gates[..|gates| - 1], s) + (if gates[|gates| - 1].status == s then 1 else 0)
  }

  /** `any(g.status == s for g in gates)`. */
  predicate HasStatus(gates: seq<QualityGateResult>, s: QualityStatus)
  {
    exists i :: 0 <= i < |gates| && gates[i].status == s
  }

  /** The count is positive exactly when some gate has the status. */
  lemma {:induction false} CountStatusPositive(gates: seq<QualityGateResult>, s: QualityStatus)
    ensures CountStatus(gates, s) > 0 <==> HasStatus(gates, s)
    decreases |gates|
  {
    if gates != [] {
      var init := gates[..|gates| - 1];
      CountStatusPositive(init, s);
      if HasStatus(init, s) {
        var i :| 0 <= i < |init| && init[i].status == s;
        assert gates[i].status == s;
      }
      if HasStatus(gates, s) && gates[|gates| - 1].status != s {
        var i :| 0 <= i < |gates| && gates[i].status == s;
        assert init[i].status == s;
      }
    }
  }

  /** When every gate names a known gate, each FAIL and each WARN gate
      yields exactly one action. */
  lemma {:induction false} RecommendationsCount(gates: seq<QualityGateResult>)
    requires forall i :: 0 <= i < |gates| ==> IsKnownGate(gates[i].gateName)
    ensures |Recommendations(gates)| == CountStatus(gates, Fail) + CountStatus(gates, Warn)
    decreases |gates|
  {
    if gates != [] {
      RecommendationsCount(gates[..|gates| - 1]);
    }
  }

  // ---------------------------------------------------------------------
  // Overall status
  // ---------------------------------------------------------------------

  /** `calculate_overall_status`: PENDING without gates, FAIL when a gate
      fails, WARN when a gate warns, PASS otherwise; the message counts the
      failing or the warning gates. */
  /** `_calculate_overall_status`, in both directions: PENDING iff there is
      no gate, FAIL iff some gate fails, WARN iff none fails and some warns,
      PASS iff there are gates and none fails or warns. A non-empty list of
      only PENDING gates therefore counts as PASS. A FAIL or WARN message
      carries a positive count. */
  function CalculateOverallStatus(gates: seq<QualityGateResult>): (r: (QualityStatus, string))
    ensures r.0 == Pending <==> gates == []
    ensures r.0 == Fail <==> CountStatus(gates, Fail) > 0
    ensures r.0 == Warn <==> CountStatus(gates, Fail) == 0 && CountStatus(gates, Warn) > 0
    ensures r.0 == Pass <==> gates != [] && CountStatus(gates, Fail) == 0 && CountStatus(gates, Warn) == 0
    ensures r.0 == Fail ==>
              r.1 == "Asset requires re-scanning (" + NatToString(CountStatus(gates, Fail)) + " quality gates failed)"
    ensures r.0 == Warn ==>
              r.1 == "Asset has minor issues but is usable (" + NatToString(CountStatus(gates, Warn)) + " warnings)"
  {
    CountStatusPositive(gates, Fail);
    CountStatusPositive(gates, Warn);
    if gates == [] then (Pending, "Quality evaluation pending")
    else if HasStatus(gates, Fail) then
      (Fail, "Asset requires re-scanning (" + NatToString(CountStatus(gates, Fail)) + " quality gates failed)")
    else if HasStatus(gates, Warn) then
      (Warn, "Asset has minor issues but is usable (" + NatToString(CountStatus(gates, Warn)) + " warnings)")
    else (Pass, "Asset is ready for distribution")
  }

  // ---------------------------------------------------------------------
  // Metric extraction
  // ---------------------------------------------------------------------

  /** `extract_capture_metrics`: the session's means and counts. */
  function ExtractCaptureMetrics(session: Option<CaptureSessions.CaptureSession>)
    : (m: Option<CaptureMetricsSummary>)
    ensures m.None? <==> session.None?
    ensures m.Some? ==> m.value.numKeyframes == session.value.metrics.numKeyframes
                        && m.value.depthValidRatio == session.value.metrics.depthValidRatioMean
                        && m.value.blurScore == session.value.metrics.blurScoreMean
                        && m.value.coverage == session.value.metrics.coverageScore
  {
    match session
    case None => None
    case Some(s) =>
      Some(CaptureMetricsSummary(s.metrics.numKeyframes, s.metrics.depthValidRatioMean, s.metrics.blurScoreMean,
                                 s.metrics.coverageScore))
  }

  /** `extract_preprocess_metrics`. */
  function ExtractPreprocessMetrics(session: Option<PreprocessSessions.PreprocessSession>)
    : (m: Option<PreprocessMetricsSummary>)
    ensures m.None? <==> session.None?
    ensures m.Some? ==> m.value.numFramesProcessed == session.value.metrics.numProcessed
                        && m.value.numValidMasks == session.value.metrics.numValid
                        && m.value.maskAreaRatioMean == session.value.metrics.maskAreaRatioMean
                        && m.value.edgeQualityMean == session.value.metrics.edgeQualityMean
  {
    match session
    case None => None
    case Some(s) =>
      Some(PreprocessMetricsSummary(s.metrics.numProcessed, s.metrics.numValid, s.metrics.maskAreaRatioMean,
                                    s.metrics.edgeQualityMean))
  }

  /** `extract_reconstruct_metrics`: the session's figures, field by field. */
  function ExtractReconstructMetrics(session: Option<ReconstructSessions.ReconstructSession>)
    : (m: Option<ReconstructMetricsSummary>)
    ensures m.None? <==> session.None?
    ensures m.Some? ==> m.value.numVertices == session.value.metrics.numVertices
                        && m.value.numTriangles == session.value.metrics.numTriangles
                        && m.value.isWatertight == session.value.metrics.isWatertight
                        && m.value.numHoles == session.value.metrics.numHoles
                        && m.value.surfaceCoverage == session.value.metrics.surfaceCoverage
    ensures m.Some? ==> m.value.keyframesUsed == session.value.metrics.keyframesUsed
                        && m.value.trackingLossFrames == session.value.metrics.trackingLossFrames
                        && m.value.textureResolution == session.value.metrics.textureResolution
  {
    match session
    case None => None
    case Some(s) =>
      var x := s.metrics;
      Some(ReconstructMetricsSummary(x.numVertices, x.numTriangles, x.isWatertight, x.numHoles, x.surfaceCoverage,
                                     x.keyframesUsed, x.trackingLossFrames, x.textureResolution))
  }

  /** `extract_optimize_metrics`: the session's figures, field by field. */
  function ExtractOptimizeMetrics(session: Option<OptimizeSessions.OptimizeSession>)
    : (m: Option<OptimizeMetricsSummary>)
    ensures m.None? <==> session.None?
    ensures m.Some? ==> m.value.scaleFactor == session.value.metrics.scaleFactor
                        && m.value.holesFilled == session.value.metrics.holesFilled
                        && m.value.componentsRemoved == session.value.metrics.componentsRemoved
    ensures m.Some? ==> m.value.lod0Triangles == session.value.metrics.lod0Triangles
                        && m.value.lod1Triangles == session.value.metrics.lod1Triangles
                        && m.value.lod2Triangles == session.value.metrics.lod2Triangles
                        && m.value.collisionTriangles == session.value.metrics.collisionTriangles
    ensures m.Some? ==> m.value.textureResolution == session.value.metrics.textureResolution
                        && m.value.boundingBox == session.value.metrics.boundingBox
  {
    match session
    case None => None
    case Some(s) =>
      var x := s.metrics;
      Some(OptimizeMetricsSummary(x.scaleFactor, x.holesFilled, x.componentsRemoved, x.lod0Triangles,
                                  x.lod1Triangles, x.lod2Triangles, x.collisionTriangles, x.textureResolution,
                                  x.boundingBox))
  }

  /** `extract_package_metrics`: sizes in mebibytes (1024 * 1024 bytes), the compressed size
      only when the archive reported one. */
  function ExtractPackageMetrics(session: Option<PackageSessions.PackageSession>)
    : (m: Option<PackageMetricsSummary>)
    ensures m.None? <==> session.None?
    ensures m.Some? ==> (m.value.compressedSizeMb.None? <==> session.value.metrics.compressedSizeBytes.None?)
    ensures m.Some? ==> m.value.filesCount == session.value.metrics.filesCount
                        && m.value.outputPath == session.value.metrics.outputPath
  {
    match session
    case None => None
    case Some(s) =>
      var compressed := match s.metrics.compressedSizeBytes
        case None => None
        case Some(b) => Some(b as real / 1048576.0);
      Some(PackageMetricsSummary(s.metrics.filesCount, s.metrics.totalSizeBytes as real / 1048576.0,
                                 compressed, s.metrics.outputPath))
  }

  /** The package summary's sizes convert back to the session's byte
      counts. */
  lemma PackageSizesInMb(session: PackageSessions.PackageSession)
    ensures ExtractPackageMetrics(Some(session)).value.totalSizeMb * 1048576.0 == session.metrics.totalSizeBytes as real
    ensures ExtractPackageMetrics(Some(session)).value.compressedSizeMb.Some? ==>
              ExtractPackageMetrics(Some(session)).value.compressedSizeMb.value * 1048576.0
              == session.metrics.compressedSizeBytes.value as real
  {
  }

  // ---------------------------------------------------------------------
  // generate_report
  // ---------------------------------------------------------------------

  /** `generate_report`: extract, evaluate, recommend and summarise.
      `sessionId` and `now` stand for the uuid and the clock. */
  method GenerateReport(t: QualityThresholds, scanObject: ScanObject,
                        captureSession: Option<CaptureSessions.CaptureSession>,
                        preprocessSession: Option<PreprocessSessions.PreprocessSession>,
                        reconstructSession: Option<ReconstructSessions.ReconstructSession>,
                        optimizeSession: Option<OptimizeSessions.OptimizeSession>,
                        packageSession: Option<PackageSessions.PackageSession>,
                        sessionId: string, now: DateTime) returns (report: ReportSession)
    ensures report.sessionId == sessionId && report.generatedAt == now
    ensures report.objectId == scanObject.id && report.objectName == scanObject.name
    ensures report.displayName == scanObject.displayName
    ensures report.captureMetrics == ExtractCaptureMetrics(captureSession)
    ensures report.preprocessMetrics == ExtractPreprocessMetrics(preprocessSession)
    ensures report.reconstructMetrics == ExtractReconstructMetrics(reconstructSession)
    ensures report.optimizeMetrics == ExtractOptimizeMetrics(optimizeSession)
    ensures report.packageMetrics == ExtractPackageMetrics(packageSession)
    ensures report.qualityGates == ExpectedGates(t, report.captureMetrics, report.preprocessMetrics,
                                                 report.reconstructMetrics, report.optimizeMetrics)
    ensures report.recommendations == Recommendations(report.qualityGates)
    ensures (report.overallStatus, report.statusMessage) == CalculateOverallStatus(report.qualityGates)
  {
    var c := ExtractCaptureMetrics(captureSession);
    var p := ExtractPreprocessMetrics(preprocessSession);
    var r := ExtractReconstructMetrics(reconstructSession);
    var o := ExtractOptimizeMetrics(optimizeSession);
    var pk := ExtractPackageMetrics(packageSession);
    var gates, recommendations, overall := AssessQuality(t, c, p, r, o);
    report := ReportSession(sessionId, scanObject.id, scanObject.name, scanObject.displayName, overall.0, overall.1,
                            c, p, r, o, pk, gates, recommendations, now);
  }

  /** The quality part of `generate_report`: the gates, the actions they
      call for and the overall status they add up to. */
  method AssessQuality(t: QualityThresholds, c: Option<CaptureMetricsSummary>, p: Option<PreprocessMetricsSummary>,
                       r: Option<ReconstructMetricsSummary>, o: Option<OptimizeMetricsSummary>)
    returns (gates: seq<QualityGateResult>, recommendations: seq<RecommendedAction>, overall: (QualityStatus, string))
    ensures gates == ExpectedGates(t, c, p, r, o)
    ensures recommendations == Recommendations(gates)
    ensures overall == CalculateOverallStatus(gates)
  {
    gates := EvaluateQualityGates(t, c, p, r, o);
    recommendations := GenerateRecommendations(gates);
    overall := CalculateOverallStatus(gates);
  }

  /** A report stays PENDING exactly when none of the capture, preprocess,
      reconstruction and optimisation summaries is present; a package
      summary alone adds no gate. */
  lemma ReportPendingIff(t: QualityThresholds, c: Option<CaptureMetricsSummary>,
                         p: Option<PreprocessMetricsSummary>, r: Option<ReconstructMetricsSummary>,
                         o: Option<OptimizeMetricsSummary>)
    ensures CalculateOverallStatus(ExpectedGates(t, c, p, r, o)).0 == Pending
            <==> c.None? && p.None? && r.None? && o.None?
  {
  }

  /** Without PENDING gates, no failing and no warning gate means every
      gate passed, and then nothing is recommended. */
  lemma {:induction false} NoIssuesMeansAllPass(gates: seq<QualityGateResult>)
    requires KnownAndSettled(gates) && CountStatus(gates, Fail) == 0 && CountStatus(gates, Warn) == 0
    ensures forall i :: 0 <= i < |gates| ==> gates[i].status == Pass
    ensures Recommendations(gates) == []
  {
    KnownGatesActionCount(gates);
    CountStatusPositive(gates, Fail);
    CountStatusPositive(gates, Warn);
    forall i | 0 <= i < |gates| ensures gates[i].status == Pass {
      assert gates[i].status != Pending;
    }
  }

  /** Every gate of a PASS report passed, and it recommends nothing. */
  lemma ReportPassHasNoActions(t: QualityThresholds, c: Option<CaptureMetricsSummary>,
                               p: Option<PreprocessMetricsSummary>, r: Option<ReconstructMetricsSummary>,
                               o: Option<OptimizeMetricsSummary>)
    requires CalculateOverallStatus(ExpectedGates(t, c, p, r, o)).0 == Pass
    ensures forall i :: 0 <= i < |ExpectedGates(t, c, p, r, o)| ==> ExpectedGates(t, c, p, r, o)[i].status == Pass
    ensures Recommendations(ExpectedGates(t, c, p, r, o)) == []
  {
    ExpectedGatesSettled(t, c, p, r, o);
    NoIssuesMeansAllPass(ExpectedGates(t, c, p, r, o));
  }

  /** A FAIL or WARN report recommends one action per failing or warning
      gate, so at least one. */
  lemma ReportActionsMatchIssues(t: QualityThresholds, c: Option<CaptureMetricsSummary>,
                                 p: Option<PreprocessMetricsSummary>, r: Option<ReconstructMetricsSummary>,
                                 o: Option<OptimizeMetricsSummary>)
    ensures |Recommendations(ExpectedGates(t, c, p, r, o))|
            == CountStatus(ExpectedGates(t, c, p, r, o), Fail) + CountStatus(ExpectedGates(t, c, p, r, o), Warn)
    ensures CalculateOverallStatus(ExpectedGates(t, c, p, r, o)).0 in {Fail, Warn}
            ==> |Recommendations(ExpectedGates(t, c, p, r, o))| > 0
  {
    var gates := ExpectedGates(t, c, p, r, o);
    ExpectedGatesSettled(t, c, p, r, o);
    KnownGatesActionCount(gates);
  }

  lemma KnownGatesActionCount(gates: seq<QualityGateResult>)
    requires KnownAndSettled(gates)
    ensures |Recommendations(gates)| == CountStatus(gates, Fail) + CountStatus(gates, Warn)
  {
    RecommendationsCount(gates);
  }
}
