/** The quality report of the GUI (`scan2mesh_gui.models.report_session`):
    the gate results, the recommended actions, the per-stage metric
    summaries, and the report's Markdown and JSON renderings. */
module ReportSessions {
  import opened Common
  import opened Format
  import opened Timestamps
  import opened ScanObjects
  import Json
  import CaptureModels

  type Ratio = CaptureModels.Ratio

  datatype ActionPriority = High | Medium | Low

  /** The enum's string value. */
  function PriorityValue(p: ActionPriority): (v: string)
    ensures v in {"high", "medium", "low"}
  {
    match p
    case High => "high"
    case Medium => "medium"
    case Low => "low"
  }

  /** A gate's `value: float | int | str`. */
  datatype GateValue = IntValue(i: int) | RealValue(r: real) | TextValue(s: string)

  /** `f"{value}"`. */
  function GateValueText(v: GateValue): string
  {
    match v
    case IntValue(i) => IntToString(i)
    case RealValue(r) => FloatRepr(r)
    case TextValue(s) => s
  }

  function GateValueJson(v: GateValue): Json.Value
  {
    match v
    case IntValue(i) => Json.Int(i)
    case RealValue(r) => Json.Real(r)
    case TextValue(s) => Json.Str(s)
  }

  datatype QualityGateResult = QualityGateResult(
    gateName: string,
    status: QualityStatus,
    value: GateValue,
    threshold: string,
    reason: string)

  datatype RecommendedAction = RecommendedAction(
    action: string,
    priority: ActionPriority,
    targetStage: string)

  datatype CaptureMetricsSummary = CaptureMetricsSummary(
    numKeyframes: nat,
    depthValidRatio: Ratio,
    blurScore: Ratio,
    coverage: Ratio)

  datatype PreprocessMetricsSummary = PreprocessMetricsSummary(
    numFramesProcessed: nat,
    numValidMasks: nat,
    maskAreaRatioMean: Ratio,
    edgeQualityMean: Ratio)

  datatype ReconstructMetricsSummary = ReconstructMetricsSummary(
    numVertices: nat,
    numTriangles: nat,
    isWatertight: bool,
    numHoles: nat,
    surfaceCoverage: real,
    keyframesUsed: nat,
    trackingLossFrames: nat,
    textureResolution: (int, int))

  datatype OptimizeMetricsSummary = OptimizeMetricsSummary(
    scaleFactor: real,
    holesFilled: nat,
    componentsRemoved: nat,
    lod0Triangles: nat,
    lod1Triangles: nat,
    lod2Triangles: nat,
    collisionTriangles: nat,
    textureResolution: (int, int),
    boundingBox: (real, real, real))

  datatype PackageMetricsSummary = PackageMetricsSummary(
    filesCount: nat,
    totalSizeMb: real,
    compressedSizeMb: Option<real>,
    outputPath: string)

  /** The upper-case status word used in the heading and in the gate table. */
  function StatusLabel(s: QualityStatus): (word: string)
    ensures word in {"PASS", "WARN", "FAIL", "PENDING"}
  {
    match s
    case Pass => "PASS"
    case Warn => "WARN"
    case Fail => "FAIL"
    case Pending => "PENDING"
  }

  function PriorityMarker(p: ActionPriority): (m: string)
    ensures m in {"[HIGH]", "[MEDIUM]", "[LOW]"}
  {
    match p
    case High => "[HIGH]"
    case Medium => "[MEDIUM]"
    case Low => "[LOW]"
  }

  /** `f"{w}x{h}"`. */
  function Resolution(r: (int, int)): string
  {
    IntToString(r.0) + "x" + IntToString(r.1)
  }

  const Footer: seq<string> := ["---", "", "*Generated by scan2mesh GUI*"]

  const GateTableHeader: seq<string> :=
    ["## Quality Gate Results", "", "| Gate | Status | Value | Threshold | Reason |",
     "|------|--------|-------|-----------|--------|"]

  function GateRow(g: QualityGateResult): string
  {
    "| " + g.gateName + " | " + StatusLabel(g.status) + " | " + GateValueText(g.value) + " | "
    + g.threshold + " | " + g.reason + " |"
  }

  function RecommendationLine(r: RecommendedAction): string
  {
    "- " + PriorityMarker(r.priority) + " **" + r.targetStage + "**: " + r.action
  }

  function CaptureLines(c: Option<CaptureMetricsSummary>): (lines: seq<string>)
    ensures lines == [] <==> c.None?
  {
    match c
    case None => []
    case Some(m) =>
      ["## Capture Metrics", "",
       "- **Keyframes:** " + NatToString(m.numKeyframes),
       "- **Depth Valid Ratio:** " + Fixed(m.depthValidRatio, 2),
       "- **Blur Score:** " + Fixed(m.blurScore, 2),
       "- **Coverage:** " + Fixed(m.coverage, 2),
       ""]
  }

  function PreprocessLines(p: Option<PreprocessMetricsSummary>): (lines: seq<string>)
    ensures lines == [] <==> p.None?
  {
    match p
    case None => []
    case Some(m) =>
      ["## Preprocess Metrics", "",
       "- **Frames Processed:** " + NatToString(m.numFramesProcessed),
       "- **Valid Masks:** " + NatToString(m.numValidMasks),
       "- **Mask Area Ratio:** " + Fixed(m.maskAreaRatioMean, 2),
       "- **Edge Quality:** " + Fixed(m.edgeQualityMean, 2),
       ""]
  }

  function ReconstructLines(r: Option<ReconstructMetricsSummary>): (lines: seq<string>)
    ensures lines == [] <==> r.None?
  {
    match r
    case None => []
    case Some(m) =>
      ["## Reconstruction Metrics", "",
       "- **Vertices:** " + Grouped(m.numVertices),
       "- **Triangles:** " + Grouped(m.numTriangles),
       "- **Watertight:** " + (if m.isWatertight then "Yes" else "No"),
       "- **Holes:** " + NatToString(m.numHoles),
       "- **Surface Coverage:** " + Fixed(m.surfaceCoverage, 2),
       "- **Keyframes Used:** " + NatToString(m.keyframesUsed),
       "- **Tracking Loss Frames:** " + NatToString(m.trackingLossFrames),
       "- **Texture Resolution:** " + Resolution(m.textureResolution),
       ""]
  }

  function OptimizeLines(o: Option<OptimizeMetricsSummary>): (lines: seq<string>)
    ensures lines == [] <==> o.None?
  {
    match o
    case None => []
    case Some(m) =>
      ["## Optimization Metrics", "",
       "- **Scale Factor:** " + Fixed(m.scaleFactor, 4),
       "- **Holes Filled:** " + NatToString(m.holesFilled),
       "- **Components Removed:** " + NatToString(m.componentsRemoved),
       "- **LOD0 Triangles:** " + Grouped(m.lod0Triangles),
       "- **LOD1 Triangles:** " + Grouped(m.lod1Triangles),
       "- **LOD2 Triangles:** " + Grouped(m.lod2Triangles),
       "- **Collision Triangles:** " + Grouped(m.collisionTriangles),
       "- **Texture Resolution:** " + Resolution(m.textureResolution),
       "- **Bounding Box:** " + Fixed(m.boundingBox.0, 3) + "m x " + Fixed(m.boundingBox.1, 3) + "m x "
       + Fixed(m.boundingBox.2, 3) + "m",
       ""]
  }

  /** The "Compressed Size" line is there exactly when a compressed size is. */
  function PackageLines(p: Option<PackageMetricsSummary>): (lines: seq<string>)
    ensures lines == [] <==> p.None?
    ensures p.Some? ==> |lines| == if p.value.compressedSizeMb.Some? then 7 else 6
    ensures p.Some? && p.value.compressedSizeMb.Some? ==>
              lines[4] == "- **Compressed Size:** " + Fixed(p.value.compressedSizeMb.value, 1) + " MB"
  {
    match p
    case None => []
    case Some(m) =>
      ["## Package Metrics", "",
       "- **Files Count:** " + NatToString(m.filesCount),
       "- **Total Size:** " + Fixed(m.totalSizeMb, 1) + " MB"]
      + (if m.compressedSizeMb.Some? then ["- **Compressed Size:** " + Fixed(m.compressedSizeMb.value, 1) + " MB"]
         else [])
      + ["- **Output Path:** `" + m.outputPath + "`", ""]
  }

  /** One table row per gate, in order. */
  function GateRows(gates: seq<QualityGateResult>): (rows: seq<string>)
    ensures |rows| == |gates|
  {
    if gates == [] then [] else GateRows(gates[..|gates| - 1]) + [GateRow(gates[|gates| - 1])]
  }

  lemma {:induction false} GateRowsAt(gates: seq<QualityGateResult>, i: nat)
    requires i < |gates|
    ensures GateRows(gates)[i] == GateRow(gates[i])
  {
    if i < |gates| - 1 {
      GateRowsAt(gates[..|gates| - 1], i);
    }
  }

  /** The gate section: nothing without gates, otherwise the table header,
      the rows, and a blank line. */
  function GateLines(gates: seq<QualityGateResult>): seq<string>
  {
    if gates == [] then [] else GateTableHeader + GateRows(gates) + [""]
  }

  /** The table is there exactly when gates are, with exactly one row per
      gate, in gate order. */
  lemma {:induction false} GateLinesShape(gates: seq<QualityGateResult>)
    ensures GateLines(gates) == [] <==> gates == []
    ensures gates != [] ==> |GateLines(gates)| == |gates| + 5 && GateLines(gates)[..4] == GateTableHeader
                            && GateLines(gates)[|gates| + 4] == ""
    ensures gates != [] ==> forall i :: 0 <= i < |gates| ==> GateLines(gates)[4 + i] == GateRow(gates[i])
  {
    if gates != [] {
      var rows := GateRows(gates);
      SectionParts(GateTableHeader, rows, "");
      forall i | 0 <= i < |gates| ensures rows[i] == GateRow(gates[i]) {
        GateRowsAt(gates, i);
      }
    }
  }

  /** One marked line per recommendation, in order. */
  function ActionLines(recs: seq<RecommendedAction>): (lines: seq<string>)
    ensures |lines| == |recs|
  {
    if recs == [] then [] else ActionLines(recs[..|recs| - 1]) + [RecommendationLine(recs[|recs| - 1])]
  }

  lemma {:induction false} ActionLinesAt(recs: seq<RecommendedAction>, i: nat)
    requires i < |recs|
    ensures ActionLines(recs)[i] == RecommendationLine(recs[i])
  {
    if i < |recs| - 1 {
      ActionLinesAt(recs[..|recs| - 1], i);
    }
  }

  const ActionsHeader: seq<string> := ["## Recommended Actions", ""]

  /** The recommendation section: nothing without recommendations,
      otherwise a heading, the marked lines, and a blank line. */
  function RecommendationLines(recs: seq<RecommendedAction>): seq<string>
  {
    if recs == [] then [] else ActionsHeader + ActionLines(recs) + [""]
  }

  /** Each recommendation line opens with its priority's marker. */
  lemma RecommendationLineMarker(r: RecommendedAction)
    ensures StartsWith(RecommendationLine(r), "- " + PriorityMarker(r.priority) + " **")
  {
    var pre := "- " + PriorityMarker(r.priority) + " **";
    assert RecommendationLine(r)[..|pre|] == pre;
  }

  /** The section is there exactly when recommendations are; line `i`
      carries the marker of recommendation `i`'s priority. */
  lemma {:induction false} RecommendationLinesShape(recs: seq<RecommendedAction>)
    ensures RecommendationLines(recs) == [] <==> recs == []
    ensures recs != [] ==> |RecommendationLines(recs)| == |recs| + 3
                           && RecommendationLines(recs)[..2] == ActionsHeader
    ensures recs != [] ==> forall i :: 0 <= i < |recs| ==>
              RecommendationLines(recs)[2 + i] == RecommendationLine(recs[i])
              && StartsWith(RecommendationLines(recs)[2 + i], "- " + PriorityMarker(recs[i].priority) + " **")
  {
    if recs != [] {
      var lines := ActionLines(recs);
      SectionParts(ActionsHeader, lines, "");
      forall i | 0 <= i < |recs|
        ensures lines[i] == RecommendationLine(recs[i])
        ensures StartsWith(lines[i], "- " + PriorityMarker(recs[i].priority) + " **")
      {
        ActionLinesAt(recs, i);
        RecommendationLineMarker(recs[i]);
      }
    }
  }

  /** Where the parts of a section `header + body + [last]` sit. */
  lemma SectionParts<T>(header: seq<T>, body: seq<T>, last: T)
    ensures |header + body + [last]| == |header| + |body| + 1
    ensures (header + body + [last])[..|header|] == header
    ensures (header + body + [last])[|header| + |body|] == last
    ensures forall i :: 0 <= i < |body| ==> (header + body + [last])[|header| + i] == body[i]
  {
    assert (header + body + [last])[..|header|] == header;
  }

  lemma Associative<T>(a: seq<T>, b: seq<T>, c: seq<T>)
    ensures a + (b + c) == a + b + c
  {
  }

  lemma Regroup<T>(a: seq<T>, b: seq<T>, c: seq<T>, d: seq<T>)
    ensures a + b + c + d == a + (b + c + d)
  {
  }

  /** The gate part of `to_markdown`: the header, then one appended row per
      gate, then a blank line; nothing when there are no gates. */
  method AppendGateSection(lines: seq<string>, gates: seq<QualityGateResult>) returns (out: seq<string>)
    ensures out == lines + GateLines(gates)
  {
    out := lines;
    if gates != [] {
      out := out + GateTableHeader;
      ghost var prefix := out;
      var i := 0;
      while i < |gates|
        invariant 0 <= i <= |gates|
        invariant out == prefix + GateRows(gates[..i])
      {
        assert gates[..i + 1][..i] == gates[..i];
        out := out + [GateRow(gates[i])];
        i := i + 1;
      }
      assert gates[..i] == gates;
      out := out + [""];
      Regroup(lines, GateTableHeader, GateRows(gates), [""]);
    }
  }

  /** The recommendation part of `to_markdown`. */
  method AppendRecommendationSection(lines: seq<string>, recs: seq<RecommendedAction>) returns (out: seq<string>)
    ensures out == lines + RecommendationLines(recs)
  {
    out := lines;
    if recs != [] {
      out := out + ActionsHeader;
      ghost var prefix := out;
      var i := 0;
      while i < |recs|
        invariant 0 <= i <= |recs|
        invariant out == prefix + ActionLines(recs[..i])
      {
        assert recs[..i + 1][..i] == recs[..i];
        out := out + [RecommendationLine(recs[i])];
        i := i + 1;
      }
      assert recs[..i] == recs;
      out := out + [""];
      Regroup(lines, ActionsHeader, ActionLines(recs), [""]);
    }
  }

  /** `"\n".join(lines)`. */
  function JoinLines(lines: seq<string>): string
  {
    if |lines| == 0 then ""
    else if |lines| == 1 then lines[0]
    else JoinLines(lines[..|lines| - 1]) + "\n" + lines[|lines| - 1]
  }

  /** The number of newline characters in a piece of text. */
  function Newlines(text: string): nat
  {
    multiset(text)['\n']
  }

  /** Total length and total newlines of a sequence of lines. */
  function TotalLength(lines: seq<string>): nat
  {
    if |lines| == 0 then 0 else TotalLength(lines[..|lines| - 1]) + |lines[|lines| - 1]|
  }

  function TotalNewlines(lines: seq<string>): nat
  {
    if |lines| == 0 then 0 else TotalNewlines(lines[..|lines| - 1]) + Newlines(lines[|lines| - 1])
  }

  /** Joining adds exactly one newline between consecutive lines and nothing
      else: the text is as long as the lines plus `|lines| - 1`, and its
      newlines are the lines' own plus `|lines| - 1`. So lines without
      newlines give a text with `|lines| - 1` of them. */
  lemma {:induction false} JoinLinesCounts(lines: seq<string>)
    requires |lines| > 0
    ensures |JoinLines(lines)| == TotalLength(lines) + |lines| - 1
    ensures Newlines(JoinLines(lines)) == TotalNewlines(lines) + |lines| - 1
  {
    if |lines| > 1 {
      var init := lines[..|lines| - 1];
      var last := lines[|lines| - 1];
      assert JoinLines(lines) == JoinLines(init) + "\n" + last;
      assert init[..|init| - 1] == lines[..|lines| - 2];
      JoinLinesCounts(init);
      assert multiset(JoinLines(lines)) == multiset(JoinLines(init)) + multiset("\n") + multiset(last);
    } else {
      assert lines[..0] == [];
    }
  }

  /** The joined text ends with the last line. */
  lemma {:induction false} JoinLinesEndsWithLast(lines: seq<string>)
    requires |lines| > 0
    ensures EndsWith(JoinLines(lines), lines[|lines| - 1])
  {
    var s := JoinLines(lines);
    var last := lines[|lines| - 1];
    assert s[|s| - |last|..] == last;
  }

  datatype ReportSession = ReportSession(
    sessionId: string,
    objectId: string,
    objectName: string,
    displayName: string,
    overallStatus: QualityStatus,
    statusMessage: string,
    captureMetrics: Option<CaptureMetricsSummary>,
    preprocessMetrics: Option<PreprocessMetricsSummary>,
    reconstructMetrics: Option<ReconstructMetricsSummary>,
    optimizeMetrics: Option<OptimizeMetricsSummary>,
    packageMetrics: Option<PackageMetricsSummary>,
    qualityGates: seq<QualityGateResult>,
    recommendations: seq<RecommendedAction>,
    generatedAt: DateTime)
  {
    function HeadLines(): (lines: seq<string>)
      ensures |lines| == 11 && lines[0] == "# Quality Report: " + displayName
    {
      ["# Quality Report: " + displayName, "",
       "**Object Name:** " + objectName,
       "**Generated:** " + ReportStamp(generatedAt),
       "", "---", "",
       "## Overall Status: " + StatusLabel(overallStatus),
       "",
       statusMessage,
       ""]
    }

    /** The report's lines, section by section, in the order `to_markdown`
        writes them. */
    function MarkdownLines(): (lines: seq<string>)
      ensures |lines| >= 14 && lines[0] == "# Quality Report: " + displayName
      ensures lines[|lines| - 3..] == Footer
    {
      HeadLines() + CaptureLines(captureMetrics) + PreprocessLines(preprocessMetrics)
      + ReconstructLines(reconstructMetrics) + OptimizeLines(optimizeMetrics) + PackageLines(packageMetrics)
      + GateLines(qualityGates) + RecommendationLines(recommendations) + Footer
    }

    /** `to_markdown`: grows the line list section by section and joins it. */
    method ToMarkdown() returns (md: string)
      ensures md == JoinLines(MarkdownLines())
      ensures StartsWith(md, "# Quality Report: " + displayName)
      ensures EndsWith(md, "*Generated by scan2mesh GUI*")
    {
      var lines := HeadLines();
      lines := lines + CaptureLines(captureMetrics);
      lines := lines + PreprocessLines(preprocessMetrics);
      lines := lines + ReconstructLines(reconstructMetrics);
      lines := lines + OptimizeLines(optimizeMetrics);
      lines := lines + PackageLines(packageMetrics);
      lines := AppendGateSection(lines, qualityGates);
      lines := AppendRecommendationSection(lines, recommendations);
      lines := lines + Footer;
      assert lines == MarkdownLines();
      md := JoinLines(lines);
      JoinLinesEndsWithLast(lines);
      JoinLinesStartsWithFirst(lines);
    }

    /** `to_json_dict`: the seven fixed keys, then a `*_metrics` key for
        each summary that is present, then the gate and recommendation
        lists. Every key it inserts is new to the dict, so each insertion
        appends an entry. */
    method ToJsonDict() returns (r: seq<Json.Entry>)
      ensures r == JsonEntries()
      ensures Json.DistinctKeys(r)
      ensures Json.Keys(r) == BaseKeys + PresentMetricKeys() + ListKeys
      ensures "capture_metrics" in Json.Keys(r) <==> captureMetrics.Some?
      ensures "preprocess_metrics" in Json.Keys(r) <==> preprocessMetrics.Some?
      ensures "reconstruct_metrics" in Json.Keys(r) <==> reconstructMetrics.Some?
      ensures "optimize_metrics" in Json.Keys(r) <==> optimizeMetrics.Some?
      ensures "package_metrics" in Json.Keys(r) <==> packageMetrics.Some?
      ensures Json.Get(r, "quality_gates") == Some(Json.List(GateDicts(qualityGates)))
      ensures Json.Get(r, "recommendations") == Some(Json.List(RecommendationDicts(recommendations)))
    {
      r := BaseEntries();
      r := AppendPresent(r, "capture_metrics", CaptureJson());
      r := AppendPresent(r, "preprocess_metrics", PreprocessJson());
      r := AppendPresent(r, "reconstruct_metrics", ReconstructJson());
      r := AppendPresent(r, "optimize_metrics", OptimizeJson());
      r := AppendPresent(r, "package_metrics", PackageJson());
      r := r + [Json.Entry("quality_gates", Json.List(GateDicts(qualityGates)))];
      r := r + [Json.Entry("recommendations", Json.List(RecommendationDicts(recommendations)))];
      EntriesRegroup(BaseEntries(), OptionalEntry("capture_metrics", CaptureJson()),
                     OptionalEntry("preprocess_metrics", PreprocessJson()),
                     OptionalEntry("reconstruct_metrics", ReconstructJson()),
                     OptionalEntry("optimize_metrics", OptimizeJson()),
                     OptionalEntry("package_metrics", PackageJson()),
                     Json.Entry("quality_gates", Json.List(GateDicts(qualityGates))),
                     Json.Entry("recommendations", Json.List(RecommendationDicts(recommendations))));
      assert r == JsonEntries();
      JsonEntriesKeys();
      MetricKeyPresence();
      JsonEntriesLists();
    }

    /** The report dict's entries in insertion order. */
    function JsonEntries(): seq<Json.Entry>
    {
      BaseEntries() + MetricEntries() + ListEntries()
    }

    function BaseEntries(): seq<Json.Entry>
    {
      [Json.Entry("session_id", Json.Str(sessionId)),
       Json.Entry("object_id", Json.Str(objectId)),
       Json.Entry("object_name", Json.Str(objectName)),
       Json.Entry("display_name", Json.Str(displayName)),
       Json.Entry("overall_status", Json.Str(StatusValue(overallStatus))),
       Json.Entry("status_message", Json.Str(statusMessage)),
       Json.Entry("generated_at", Json.Str(IsoFormat(generatedAt)))]
    }

    function MetricEntries(): seq<Json.Entry>
    {
      OptionalEntry("capture_metrics", CaptureJson()) + OptionalEntry("preprocess_metrics", PreprocessJson())
      + OptionalEntry("reconstruct_metrics", ReconstructJson()) + OptionalEntry("optimize_metrics", OptimizeJson())
      + OptionalEntry("package_metrics", PackageJson())
    }

    /** Each summary's `model_dump()`, when the summary is present. */
    function CaptureJson(): Option<Json.Value>
    {
      if captureMetrics.Some? then Some(Json.Dict(CaptureDump(captureMetrics.value))) else None
    }

    function PreprocessJson(): Option<Json.Value>
    {
      if preprocessMetrics.Some? then Some(Json.Dict(PreprocessDump(preprocessMetrics.value))) else None
    }

    function ReconstructJson(): Option<Json.Value>
    {
      if reconstructMetrics.Some? then Some(Json.Dict(ReconstructDump(reconstructMetrics.value))) else None
    }

    function OptimizeJson(): Option<Json.Value>
    {
      if optimizeMetrics.Some? then Some(Json.Dict(OptimizeDump(optimizeMetrics.value))) else None
    }

    function PackageJson(): Option<Json.Value>
    {
      if packageMetrics.Some? then Some(Json.Dict(PackageDump(packageMetrics.value))) else None
    }

    function ListEntries(): seq<Json.Entry>
    {
      [Json.Entry("quality_gates", Json.List(GateDicts(qualityGates))),
       Json.Entry("recommendations", Json.List(RecommendationDicts(recommendations)))]
    }

    /** The `*_metrics` keys of the summaries that are present. */
    function PresentMetricKeys(): (ks: set<string>)
      ensures ks <= MetricKeys
    {
      KeyIf("capture_metrics", CaptureJson()) + KeyIf("preprocess_metrics", PreprocessJson())
      + KeyIf("reconstruct_metrics", ReconstructJson()) + KeyIf("optimize_metrics", OptimizeJson())
      + KeyIf("package_metrics", PackageJson())
    }

    /** Each `*_metrics` key is in the dict exactly when its summary is present. */
    lemma MetricKeyPresence()
      ensures "capture_metrics" in BaseKeys + PresentMetricKeys() + ListKeys <==> captureMetrics.Some?
      ensures "preprocess_metrics" in BaseKeys + PresentMetricKeys() + ListKeys <==> preprocessMetrics.Some?
      ensures "reconstruct_metrics" in BaseKeys + PresentMetricKeys() + ListKeys <==> reconstructMetrics.Some?
      ensures "optimize_metrics" in BaseKeys + PresentMetricKeys() + ListKeys <==> optimizeMetrics.Some?
      ensures "package_metrics" in BaseKeys + PresentMetricKeys() + ListKeys <==> packageMetrics.Some?
    {
      KeySetsDisjoint();
      KeyIfMembership("capture_metrics", "preprocess_metrics", "reconstruct_metrics", "optimize_metrics",
                      "package_metrics", CaptureJson(), PreprocessJson(), ReconstructJson(), OptimizeJson(),
                      PackageJson(), BaseKeys, ListKeys);
    }

    lemma MetricEntriesKeys()
      ensures Json.DistinctKeys(MetricEntries()) && Json.Keys(MetricEntries()) == PresentMetricKeys()
    {
      OptionalEntriesKeys("capture_metrics", "preprocess_metrics", "reconstruct_metrics", "optimize_metrics",
                          "package_metrics", CaptureJson(), PreprocessJson(), ReconstructJson(), OptimizeJson(),
                          PackageJson());
    }

    /** The dict holds each key once: the seven fixed ones, the present
        `*_metrics` ones and the two lists. */
    lemma JsonEntriesKeys()
      ensures Json.DistinctKeys(JsonEntries())
      ensures Json.Keys(JsonEntries()) == BaseKeys + PresentMetricKeys() + ListKeys
    {
      BaseEntriesKeys(BaseEntries());
      ListEntriesKeys(ListEntries());
      MetricEntriesKeys();
      KeySetsDisjoint();
      Json.KeysAppend(BaseEntries(), MetricEntries());
      Json.DistinctAppend(BaseEntries(), MetricEntries());
      Json.KeysAppend(BaseEntries() + MetricEntries(), ListEntries());
      Json.DistinctAppend(BaseEntries() + MetricEntries(), ListEntries());
    }

    /** `result["quality_gates"]` holds one dict per gate and
        `result["recommendations"]` one per recommendation. */
    lemma JsonEntriesLists()
      ensures Json.Get(JsonEntries(), "quality_gates") == Some(Json.List(GateDicts(qualityGates)))
      ensures Json.Get(JsonEntries(), "recommendations") == Some(Json.List(RecommendationDicts(recommendations)))
    {
      JsonEntriesKeys();
      var es := JsonEntries();
      var n := |BaseEntries() + MetricEntries()|;
      assert es[n] == ListEntries()[0] && es[n + 1] == ListEntries()[1];
      Json.GetAt(es, n);
      Json.GetAt(es, n + 1);
    }
  }

  /** The key an optional entry adds. */
  function KeyIf(key: string, v: Option<Json.Value>): set<string>
  {
    if v.Some? then {key} else {}
  }

  /** `result[key] = val` for a key the dict does not hold yet, when there
      is a value; nothing otherwise. */
  function OptionalEntry(key: string, v: Option<Json.Value>): (es: seq<Json.Entry>)
    ensures Json.DistinctKeys(es)
    ensures Json.Keys(es) == KeyIf(key, v)
  {
    if v.Some? then
      assert [Json.Entry(key, v.value)][0].key == key;
      [Json.Entry(key, v.value)]
    else []
  }

  /** `if value: result[key] = value` for a key the dict does not hold yet. */
  method AppendPresent(es: seq<Json.Entry>, key: string, v: Option<Json.Value>) returns (r: seq<Json.Entry>)
    ensures r == es + OptionalEntry(key, v)
    ensures v.Some? <==> |r| == |es| + 1
  {
    r := es;
    if v.Some? {
      r := r + [Json.Entry(key, v.value)];
    }
  }

  /** Appending an optional entry under a key the dict does not hold keeps
      the keys distinct and adds that key when there is a value. */
  lemma AppendFresh(es: seq<Json.Entry>, key: string, v: Option<Json.Value>, before: set<string>)
    requires Json.DistinctKeys(es) && Json.Keys(es) <= before && key !in before
    ensures Json.DistinctKeys(es + OptionalEntry(key, v))
    ensures Json.Keys(es + OptionalEntry(key, v)) == Json.Keys(es) + KeyIf(key, v)
  {
    Json.KeysAppend(es, OptionalEntry(key, v));
    Json.DistinctAppend(es, OptionalEntry(key, v));
  }

  /** Optional entries under different keys carry distinct keys, one per
      value that is present. */
  lemma OptionalPairKeys(k1: string, k2: string, v1: Option<Json.Value>, v2: Option<Json.Value>)
    requires k1 != k2
    ensures Json.DistinctKeys(OptionalEntry(k1, v1) + OptionalEntry(k2, v2))
    ensures Json.Keys(OptionalEntry(k1, v1) + OptionalEntry(k2, v2)) == KeyIf(k1, v1) + KeyIf(k2, v2)
  {
    AppendFresh(OptionalEntry(k1, v1), k2, v2, {k1});
  }

  lemma OptionalTripleKeys(k1: string, k2: string, k3: string,
                           v1: Option<Json.Value>, v2: Option<Json.Value>, v3: Option<Json.Value>)
    requires k1 != k2 && k1 != k3 && k2 != k3
    ensures Json.DistinctKeys(OptionalEntry(k1, v1) + OptionalEntry(k2, v2) + OptionalEntry(k3, v3))
    ensures Json.Keys(OptionalEntry(k1, v1) + OptionalEntry(k2, v2) + OptionalEntry(k3, v3))
            == KeyIf(k1, v1) + KeyIf(k2, v2) + KeyIf(k3, v3)
  {
    OptionalPairKeys(k1, k2, v1, v2);
    AppendFresh(OptionalEntry(k1, v1) + OptionalEntry(k2, v2), k3, v3, {k1, k2});
  }

  /** A key among five different ones is in the union of the present
      ones and of two sets without any of them exactly when its value is
      present. */
  lemma KeyIfMembership(k1: string, k2: string, k3: string, k4: string, k5: string,
                        v1: Option<Json.Value>, v2: Option<Json.Value>, v3: Option<Json.Value>,
                        v4: Option<Json.Value>, v5: Option<Json.Value>, a: set<string>, c: set<string>)
    requires k1 != k2 && k1 != k3 && k1 != k4 && k1 != k5 && k2 != k3 && k2 != k4 && k2 != k5
    requires k3 != k4 && k3 != k5 && k4 != k5
    requires k1 !in a + c && k2 !in a + c && k3 !in a + c && k4 !in a + c && k5 !in a + c
    ensures var u := a + (KeyIf(k1, v1) + KeyIf(k2, v2) + KeyIf(k3, v3) + KeyIf(k4, v4) + KeyIf(k5, v5)) + c;
            (k1 in u <==> v1.Some?) && (k2 in u <==> v2.Some?) && (k3 in u <==> v3.Some?)
            && (k4 in u <==> v4.Some?) && (k5 in u <==> v5.Some?)
  {
  }

  lemma KeyIfsDisjoint(k1: string, k2: string, k3: string, k4: string, k5: string,
                       v1: Option<Json.Value>, v2: Option<Json.Value>, v3: Option<Json.Value>,
                       v4: Option<Json.Value>, v5: Option<Json.Value>)
    requires k1 != k4 && k1 != k5 && k2 != k4 && k2 != k5 && k3 != k4 && k3 != k5
    ensures (KeyIf(k1, v1) + KeyIf(k2, v2) + KeyIf(k3, v3)) !! (KeyIf(k4, v4) + KeyIf(k5, v5))
  {
  }

  lemma UnionRegroup<T>(a: set<T>, b: set<T>, c: set<T>, d: set<T>, e: set<T>)
    ensures (a + b + c) + (d + e) == a + b + c + d + e
  {
  }

  lemma OptionalEntriesKeys(k1: string, k2: string, k3: string, k4: string, k5: string,
                            v1: Option<Json.Value>, v2: Option<Json.Value>, v3: Option<Json.Value>,
                            v4: Option<Json.Value>, v5: Option<Json.Value>)
    requires k1 != k2 && k1 != k3 && k1 != k4 && k1 != k5 && k2 != k3 && k2 != k4 && k2 != k5
    requires k3 != k4 && k3 != k5 && k4 != k5
    ensures var es := OptionalEntry(k1, v1) + OptionalEntry(k2, v2) + OptionalEntry(k3, v3)
                      + OptionalEntry(k4, v4) + OptionalEntry(k5, v5);
            Json.DistinctKeys(es)
            && Json.Keys(es) == KeyIf(k1, v1) + KeyIf(k2, v2) + KeyIf(k3, v3) + KeyIf(k4, v4) + KeyIf(k5, v5)
  {
    var a := OptionalEntry(k1, v1) + OptionalEntry(k2, v2) + OptionalEntry(k3, v3);
    var b := OptionalEntry(k4, v4) + OptionalEntry(k5, v5);
    OptionalTripleKeys(k1, k2, k3, v1, v2, v3);
    OptionalPairKeys(k4, k5, v4, v5);
    KeyIfsDisjoint(k1, k2, k3, k4, k5, v1, v2, v3, v4, v5);
    Json.KeysAppend(a, b);
    Json.DistinctAppend(a, b);
    Associative(a, OptionalEntry(k4, v4), OptionalEntry(k5, v5));
    UnionRegroup(KeyIf(k1, v1), KeyIf(k2, v2), KeyIf(k3, v3), KeyIf(k4, v4), KeyIf(k5, v5));
  }

  lemma {:induction false} EntriesRegroup(b: seq<Json.Entry>, c: seq<Json.Entry>, p: seq<Json.Entry>, r: seq<Json.Entry>,
                       o: seq<Json.Entry>, k: seq<Json.Entry>, x: Json.Entry, y: Json.Entry)
    ensures b + c + p + r + o + k + [x] + [y] == b + (c + p + r + o + k) + [x, y]
  {
  }

  /** The seven keys every report dict has. */
  const BaseKeys: set<string> :=
    {"session_id", "object_id", "object_name", "display_name", "overall_status", "status_message", "generated_at"}

  const MetricKeys: set<string> :=
    {"capture_metrics", "preprocess_metrics", "reconstruct_metrics", "optimize_metrics", "package_metrics"}

  const ListKeys: set<string> := {"quality_gates", "recommendations"}

  lemma KeySetsDisjoint()
    ensures BaseKeys !! MetricKeys && BaseKeys !! ListKeys && MetricKeys !! ListKeys
  {
  }

  lemma {:induction false} BaseEntriesKeys(es: seq<Json.Entry>)
    requires |es| == 7 && es[0].key == "session_id" && es[1].key == "object_id" && es[2].key == "object_name"
    requires es[3].key == "display_name" && es[4].key == "overall_status" && es[5].key == "status_message"
    requires es[6].key == "generated_at"
    ensures Json.DistinctKeys(es) && Json.Keys(es) == BaseKeys
  {
    assert forall k :: k in BaseKeys ==> exists i :: 0 <= i < 7 && es[i].key == k;
  }

  lemma {:induction false} ListEntriesKeys(es: seq<Json.Entry>)
    requires |es| == 2 && es[0].key == "quality_gates" && es[1].key == "recommendations"
    ensures Json.DistinctKeys(es) && Json.Keys(es) == ListKeys
  {
    assert es[0].key in Json.Keys(es) && es[1].key in Json.Keys(es);
  }

  lemma {:induction false} JoinLinesStartsWithFirst(lines: seq<string>)
    requires |lines| > 0
    ensures StartsWith(JoinLines(lines), lines[0])
  {
    if |lines| > 1 {
      JoinLinesStartsWithFirst(lines[..|lines| - 1]);
    }
  }

  function GateDict(g: QualityGateResult): Json.Value
  {
    Json.Dict([Json.Entry("gate_name", Json.Str(g.gateName)),
               Json.Entry("status", Json.Str(StatusValue(g.status))),
               Json.Entry("value", GateValueJson(g.value)),
               Json.Entry("threshold", Json.Str(g.threshold)),
               Json.Entry("reason", Json.Str(g.reason))])
  }

  /** One dict per gate, in order, with the status as its string value. */
  function GateDicts(gates: seq<QualityGateResult>): (r: seq<Json.Value>)
    ensures |r| == |gates|
    ensures forall i :: 0 <= i < |gates| ==> r[i] == GateDict(gates[i])
  {
    seq(|gates|, i requires 0 <= i < |gates| => GateDict(gates[i]))
  }

  function RecommendationDict(a: RecommendedAction): Json.Value
  {
    Json.Dict([Json.Entry("action", Json.Str(a.action)),
               Json.Entry("priority", Json.Str(PriorityValue(a.priority))),
               Json.Entry("target_stage", Json.Str(a.targetStage))])
  }

  /** One dict per recommendation, in order. */
  function RecommendationDicts(recs: seq<RecommendedAction>): (r: seq<Json.Value>)
    ensures |r| == |recs|
    ensures forall i :: 0 <= i < |recs| ==> r[i] == RecommendationDict(recs[i])
  {
    seq(|recs|, i requires 0 <= i < |recs| => RecommendationDict(recs[i]))
  }

  function Pair(p: (int, int)): Json.Value
  {
    Json.List([Json.Int(p.0), Json.Int(p.1)])
  }

  /** `model_dump()` of each summary. */
  function CaptureDump(m: CaptureMetricsSummary): seq<Json.Entry>
  {
    [Json.Entry("num_keyframes", Json.Int(m.numKeyframes)),
     Json.Entry("depth_valid_ratio", Json.Real(m.depthValidRatio)),
     Json.Entry("blur_score", Json.Real(m.blurScore)),
     Json.Entry("coverage", Json.Real(m.coverage))]
  }

  function PreprocessDump(m: PreprocessMetricsSummary): seq<Json.Entry>
  {
    [Json.Entry("num_frames_processed", Json.Int(m.numFramesProcessed)),
     Json.Entry("num_valid_masks", Json.Int(m.numValidMasks)),
     Json.Entry("mask_area_ratio_mean", Json.Real(m.maskAreaRatioMean)),
     Json.Entry("edge_quality_mean", Json.Real(m.edgeQualityMean))]
  }

  function ReconstructDump(m: ReconstructMetricsSummary): seq<Json.Entry>
  {
    [Json.Entry("num_vertices", Json.Int(m.numVertices)),
     Json.Entry("num_triangles", Json.Int(m.numTriangles)),
     Json.Entry("is_watertight", Json.Bool(m.isWatertight)),
     Json.Entry("num_holes", Json.Int(m.numHoles)),
     Json.Entry("surface_coverage", Json.Real(m.surfaceCoverage)),
     Json.Entry("keyframes_used", Json.Int(m.keyframesUsed)),
     Json.Entry("tracking_loss_frames", Json.Int(m.trackingLossFrames)),
     Json.Entry("texture_resolution", Pair(m.textureResolution))]
  }

  function OptimizeDump(m: OptimizeMetricsSummary): seq<Json.Entry>
  {
    [Json.Entry("scale_factor", Json.Real(m.scaleFactor)),
     Json.Entry("holes_filled", Json.Int(m.holesFilled)),
     Json.Entry("components_removed", Json.Int(m.componentsRemoved)),
     Json.Entry("lod0_triangles", Json.Int(m.lod0Triangles)),
     Json.Entry("lod1_triangles", Json.Int(m.lod1Triangles)),
     Json.Entry("lod2_triangles", Json.Int(m.lod2Triangles)),
     Json.Entry("collision_triangles", Json.Int(m.collisionTriangles)),
     Json.Entry("texture_resolution", Pair(m.textureResolution)),
     Json.Entry("bounding_box", Json.List([Json.Real(m.boundingBox.0), Json.Real(m.boundingBox.1),
                                           Json.Real(m.boundingBox.2)]))]
  }

  function PackageDump(m: PackageMetricsSummary): seq<Json.Entry>
  {
    [Json.Entry("files_count", Json.Int(m.filesCount)),
     Json.Entry("total_size_mb", Json.Real(m.totalSizeMb)),
     Json.Entry("compressed_size_mb", if m.compressedSizeMb.Some? then Json.Real(m.compressedSizeMb.value) else Json.Null),
     Json.Entry("output_path", Json.Str(m.outputPath))]
  }
}
