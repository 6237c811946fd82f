/** The GUI's reconstruction session (`scan2mesh_gui.models.reconstruct_session`):
    the same stage walk as optimisation, over the reconstruction stages. */
module ReconstructSessions {
  import opened Common
  import opened Timestamps

  datatype ReconstructStage =
    | Idle | FeatureExtraction | PoseEstimation | TsdfFusion | MeshExtraction | TextureMapping | Complete

  /** `STAGE_ORDER`. */
  const StageOrder: seq<ReconstructStage> :=
    [Idle, FeatureExtraction, PoseEstimation, TsdfFusion, MeshExtraction, TextureMapping, Complete]

  /** `STAGE_ORDER.index(stage)`. */
  function IndexOf(s: ReconstructStage): (i: nat)
    ensures i < |StageOrder| && StageOrder[i] == s
    ensures forall j :: 0 <= j < |StageOrder| && StageOrder[j] == s ==> j == i
  {
    match s
    case Idle => 0
    case FeatureExtraction => 1
    case PoseEstimation => 2
    case TsdfFusion => 3
    case MeshExtraction => 4
    case TextureMapping => 5
    case Complete => 6
  }

  /** `STAGE_ORDER` runs from IDLE to COMPLETE and lists each stage once. */
  lemma StageOrderEnumerates()
    ensures |StageOrder| == 7 && StageOrder[0] == Idle && StageOrder[6] == Complete
    ensures forall s: ReconstructStage :: s in StageOrder
    ensures forall i, j :: 0 <= i < j < |StageOrder| ==> StageOrder[i] != StageOrder[j]
  {
    forall s: ReconstructStage ensures s in StageOrder {
      assert StageOrder[IndexOf(s)] == s;
    }
  }

  /** 0 at IDLE, 1 at COMPLETE, index over five in between; the last
      working stage already reports 1. */
  function StageProgress(s: ReconstructStage): (p: real)
    ensures 0.0 <= p <= 1.0
    ensures p == 0.0 <==> s == Idle
    ensures p == 1.0 <==> s == TextureMapping || s == Complete
    ensures s != Idle && s != Complete ==> p == IndexOf(s) as real / 5.0
  {
    if s == Idle then 0.0
    else if s == Complete then 1.0
    else IndexOf(s) as real / (|StageOrder| - 2) as real
  }

  /** Progress never goes down along `STAGE_ORDER`. */
  lemma StageProgressMonotone(i: nat, j: nat)
    requires i <= j < |StageOrder|
    ensures StageProgress(StageOrder[i]) <= StageProgress(StageOrder[j])
  {
  }

  datatype ReconstructMetrics = ReconstructMetrics(
    numVertices: nat,
    numTriangles: nat,
    textureResolution: (int, int),
    fileSizeBytes: nat,
    isWatertight: bool,
    numHoles: nat,
    surfaceCoverage: real,
    keyframesUsed: nat,
    trackingLossFrames: nat)

  /** `ReconstructMetrics()`. */
  function DefaultReconstructMetrics(): (m: ReconstructMetrics)
    ensures m.numVertices == 0 && m.numTriangles == 0 && !m.isWatertight && m.surfaceCoverage == 0.0
    ensures m.keyframesUsed == 0 && m.trackingLossFrames == 0
  {
    ReconstructMetrics(0, 0, (0, 0), 0, false, 0, 0.0, 0, 0)
  }

  datatype ReconstructSession = ReconstructSession(
    sessionId: string,
    objectId: string,
    inputFrames: nat,
    currentStage: ReconstructStage,
    metrics: ReconstructMetrics,
    isRunning: bool,
    outputMeshPath: Option<string>,
    startedAt: Option<DateTime>)
  {
    function Progress(): (p: real)
      ensures 0.0 <= p <= 1.0
      ensures p == 0.0 <==> currentStage == Idle
      ensures p == 1.0 <==> IsComplete() || currentStage == TextureMapping
    {
      StageProgress(currentStage)
    }

    predicate IsComplete()
    {
      currentStage == Complete
    }

    /** The Optimize page may open once the run is complete and stopped. */
    predicate CanProceed()
    {
      IsComplete() && !isRunning
    }

    function StageDisplayName(): (name: string)
      ensures name != ""
    {
      match currentStage
      case Idle => "Ready"
      case FeatureExtraction => "Extracting Features"
      case PoseEstimation => "Estimating Camera Poses"
      case TsdfFusion => "Building TSDF Volume"
      case MeshExtraction => "Extracting Mesh"
      case TextureMapping => "Generating Texture"
      case Complete => "Complete"
    }
  }
}
