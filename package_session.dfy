/** The GUI's packaging session (`scan2mesh_gui.models.package_session`):
    four stages to COMPLETE, an output configuration, and the metrics of
    a finished package. */
module PackageSessions {
  import opened Common
  import opened Timestamps

  datatype PackageStage = Idle | CollectingAssets | GeneratingManifest | CreatingArchive | Complete

  /** `STAGE_ORDER`. */
  const StageOrder: seq<PackageStage> := [Idle, CollectingAssets, GeneratingManifest, CreatingArchive, Complete]

  /** `STAGE_ORDER.index(stage)`. */
  function IndexOf(s: PackageStage): (i: nat)
    ensures i < |StageOrder| && StageOrder[i] == s
    ensures forall j :: 0 <= j < |StageOrder| && StageOrder[j] == s ==> j == i
  {
    match s
    case Idle => 0
    case CollectingAssets => 1
    case GeneratingManifest => 2
    case CreatingArchive => 3
    case Complete => 4
  }

  /** `STAGE_ORDER` runs from IDLE to COMPLETE and lists each stage once. */
  lemma StageOrderEnumerates()
    ensures |StageOrder| == 5 && StageOrder[0] == Idle && StageOrder[4] == Complete
    ensures forall s: PackageStage :: s in StageOrder
    ensures forall i, j :: 0 <= i < j < |StageOrder| ==> StageOrder[i] != StageOrder[j]
  {
    forall s: PackageStage ensures s in StageOrder {
      assert StageOrder[IndexOf(s)] == s;
    }
  }

  /** `PackageConfig`: `outputFormat` is "zip" or "directory" by intent,
      though any string is accepted. */
  datatype PackageConfig = PackageConfig(
    outputFormat: string,
    includeLod0: bool,
    includeLod1: bool,
    includeLod2: bool,
    includeCollision: bool,
    includeManifest: bool,
    includeReport: bool,
    includePreview: bool,
    includeSource: bool,
    outputDir: string)

  /** `PackageConfig()`. */
  function DefaultPackageConfig(): (c: PackageConfig)
    ensures c.outputFormat == "zip" && c.outputDir == "./output"
    ensures c.includeLod0 && c.includeLod1 && c.includeLod2 && c.includeCollision
    ensures c.includeManifest && c.includeReport && c.includePreview && !c.includeSource
  {
    PackageConfig("zip", true, true, true, true, true, true, true, false, "./output")
  }

  datatype PackageMetrics = PackageMetrics(
    filesCount: nat,
    totalSizeBytes: nat,
    compressedSizeBytes: Option<int>,
    outputPath: string,
    filesIncluded: seq<string>)

  /** `PackageMetrics()`. */
  function DefaultPackageMetrics(): (m: PackageMetrics)
    ensures m.filesCount == 0 && m.totalSizeBytes == 0 && m.compressedSizeBytes.None?
    ensures m.outputPath == "" && m.filesIncluded == []
  {
    PackageMetrics(0, 0, None, "", [])
  }

  /** 0 at IDLE, 1 at COMPLETE, index over three in between; the archive
      stage already reports 1. */
  function StageProgress(s: PackageStage): (p: real)
    ensures 0.0 <= p <= 1.0
    ensures p == 0.0 <==> s == Idle
    ensures p == 1.0 <==> s == CreatingArchive || s == Complete
    ensures s != Idle && s != Complete ==> p == IndexOf(s) as real / 3.0
  {
    if s == Idle then 0.0
    else if s == Complete then 1.0
    else IndexOf(s) as real / (|StageOrder| - 2) as real
  }

  datatype PackageSession = PackageSession(
    sessionId: string,
    objectId: string,
    objectName: string,
    currentStage: PackageStage,
    config: PackageConfig,
    metrics: PackageMetrics,
    isRunning: bool,
    startedAt: Option<DateTime>)
  {
    function Progress(): (p: real)
      ensures 0.0 <= p <= 1.0
      ensures p == 0.0 <==> currentStage == Idle
      ensures p == 1.0 <==> IsComplete() || currentStage == CreatingArchive
    {
      StageProgress(currentStage)
    }

    predicate IsComplete()
    {
      currentStage == Complete
    }

    /** The Report page may open once packaging is complete and stopped. */
    predicate CanProceed()
    {
      IsComplete() && !isRunning
    }

    function StageDisplayName(): (name: string)
      ensures name != ""
    {
      match currentStage
      case Idle => "Ready"
      case CollectingAssets => "Collecting Assets"
      case GeneratingManifest => "Generating Manifest"
      case CreatingArchive => "Creating Archive"
      case Complete => "Complete"
    }
  }
}
