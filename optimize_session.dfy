/** The GUI's mesh-optimisation session (`scan2mesh_gui.models.optimize_session`):
    a stage enum walked in a fixed order, the metrics a finished run
    reports, and the properties derived from the current stage. */
module OptimizeSessions {
  import opened Common
  import opened Timestamps

  datatype OptimizeStage =
    | Idle | ScaleCalibration | MeshCleaning | LodGeneration | TextureOptimization | CollisionMesh | Complete

  /** `STAGE_ORDER`. */
  const StageOrder: seq<OptimizeStage> :=
    [Idle, ScaleCalibration, MeshCleaning, LodGeneration, TextureOptimization, CollisionMesh, Complete]

  /** `STAGE_ORDER.index(stage)`: every stage is listed, so it never raises. */
  function IndexOf(s: OptimizeStage): (i: nat)
    ensures i < |StageOrder| && StageOrder[i] == s
    ensures forall j :: 0 <= j < |StageOrder| && StageOrder[j] == s ==> j == i
  {
    match s
    case Idle => 0
    case ScaleCalibration => 1
    case MeshCleaning => 2
    case LodGeneration => 3
    case TextureOptimization => 4
    case CollisionMesh => 5
    case Complete => 6
  }

  /** `STAGE_ORDER` runs from IDLE to COMPLETE and lists each stage once. */
  lemma StageOrderEnumerates()
    ensures |StageOrder| == 7 && StageOrder[0] == Idle && StageOrder[6] == Complete
    ensures forall s: OptimizeStage :: s in StageOrder
    ensures forall i, j :: 0 <= i < j < |StageOrder| ==> StageOrder[i] != StageOrder[j]
  {
    forall s: OptimizeStage ensures s in StageOrder {
      assert StageOrder[IndexOf(s)] == s;
    }
  }

  /** The progress ratio of a stage: 0 at IDLE, 1 at COMPLETE, and the
      stage's index over the five working stages in between, so the last
      working stage already reports 1. */
  function StageProgress(s: OptimizeStage): (p: real)
    ensures 0.0 <= p <= 1.0
    ensures p == 0.0 <==> s == Idle
    ensures p == 1.0 <==> s == CollisionMesh || s == Complete
    ensures s != Idle && s != Complete ==> p == IndexOf(s) as real / 5.0
  {
    if s == Idle then 0.0
    else if s == Complete then 1.0
    else IndexOf(s) as real / (|StageOrder| - 2) as real
  }

  /** Progress never goes down along `STAGE_ORDER`. */
  lemma StageProgressMonotone(i: nat, j: nat)
    requires i <= j < |StageOrder|
    ensures StageProgress(StageOrder[i]) <= StageProgress(StageOrder[j])
  {
  }

  datatype OptimizeMetrics = OptimizeMetrics(
    scaleFactor: real,
    holesFilled: nat,
    componentsRemoved: nat,
    lod0Triangles: nat,
    lod1Triangles: nat,
    lod2Triangles: nat,
    collisionTriangles: nat,
    textureResolution: (int, int),
    outputSizeBytes: nat,
    boundingBox: (real, real, real))

  /** `OptimizeMetrics()`. */
  function DefaultOptimizeMetrics(): (m: OptimizeMetrics)
    ensures m.scaleFactor == 1.0 && m.lod0Triangles == 0 && m.lod1Triangles == 0 && m.lod2Triangles == 0
    ensures m.textureResolution == (0, 0) && m.boundingBox == (0.0, 0.0, 0.0)
  {
    OptimizeMetrics(1.0, 0, 0, 0, 0, 0, 0, (0, 0), 0, (0.0, 0.0, 0.0))
  }

  datatype OptimizeSession = OptimizeSession(
    sessionId: string,
    objectId: string,
    inputMeshPath: Option<string>,
    inputVertices: nat,
    inputTriangles: nat,
    currentStage: OptimizeStage,
    metrics: OptimizeMetrics,
    isRunning: bool,
    outputDir: Option<string>,
    startedAt: Option<DateTime>,
    lod0Target: nat,
    lod1Target: nat,
    lod2Target: nat)
  {
    function Progress(): (p: real)
      ensures 0.0 <= p <= 1.0
      ensures p == 0.0 <==> currentStage == Idle
      ensures p == 1.0 <==> IsComplete() || currentStage == CollisionMesh
    {
      StageProgress(currentStage)
    }

    predicate IsComplete()
    {
      currentStage == Complete
    }

    /** The Package page may open once the run is complete and stopped. */
    predicate CanProceed()
    {
      IsComplete() && !isRunning
    }

    function StageDisplayName(): (name: string)
      ensures name != ""
    {
      match currentStage
      case Idle => "Ready"
      case ScaleCalibration => "Calibrating Scale"
      case MeshCleaning => "Cleaning Mesh"
      case LodGeneration => "Generating LOD Levels"
      case TextureOptimization => "Optimizing Texture"
      case CollisionMesh => "Creating Collision Mesh"
      case Complete => "Complete"
    }
  }
}
