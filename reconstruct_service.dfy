/** `ReconstructService` (`scan2mesh_gui.services.reconstruct_service`):
    starts a reconstruction session, advances it stage by stage, and
    simulates the metrics of a finished run. */
module ReconstructService {
  import opened Common
  import opened Timestamps
  import opened ReconstructSessions

  /** `str(projects_dir / object_id / "recon" / "mesh.ply")`. */
  function MeshPath(projectsDir: string, objectId: string): (r: string)
    ensures StartsWith(r, projectsDir) && EndsWith(r, "mesh.ply")
    ensures !EndsWith(projectsDir, "/") && objectId != [] && !EndsWith(objectId, "/") ==>
              r == projectsDir + "/" + objectId + "/recon/mesh.ply"
  {
    JoinPath(JoinPath(JoinPath(projectsDir, objectId), "recon"), "mesh.ply")
  }

  /** Under the root directory the mesh path has a single leading
      separator, as pathlib joins it. */
  lemma MeshPathUnderRoot()
    ensures MeshPath("/", "obj") == "/obj/recon/mesh.ply"
  {
    assert EndsWith("/", "/");
    assert JoinPath("/", "obj") == "/obj";
    assert !EndsWith("/obj", "/") by { assert "/obj"[3..] == "j"; }
    assert JoinPath("/obj", "recon") == "/obj" + "/" + "recon";
    assert !EndsWith("/obj/recon", "/") by { assert "/obj/recon"[9..] == "n"; }
    assert JoinPath("/obj/recon", "mesh.ply") == "/obj/recon" + "/" + "mesh.ply";
  }

  /** `start_session`; `sessionId` and `now` stand for the uuid prefix and
      the clock. */
  function StartSession(sessionId: string, objectId: string, inputFrames: nat, now: DateTime): (s: ReconstructSession)
    ensures s.currentStage == Idle && s.isRunning && s.outputMeshPath.None?
    ensures s.metrics == DefaultReconstructMetrics() && s.startedAt == Some(now)
    ensures s.objectId == objectId && s.inputFrames == inputFrames && s.sessionId == sessionId
  {
    ReconstructSession(sessionId, objectId, inputFrames, Idle, DefaultReconstructMetrics(), true, None, Some(now))
  }

  /** `int(base_vertices * 0.1)`. */
  function VertexVariation(inputFrames: nat): nat
  {
    ((30000 + 500 * inputFrames) as real * 0.1).Floor
  }

  /** The values `generate_mock_metrics` draws from `random`, each within
      the range it is drawn from. */
  datatype MockDraws = MockDraws(vertexJitter: int, triangleJitter: int, coverageJitter: real,
                                 watertightRoll: real, holes: nat)
  {
    predicate Valid(inputFrames: nat)
    {
      0 - VertexVariation(inputFrames) <= vertexJitter <= VertexVariation(inputFrames)
      && -1000 <= triangleJitter <= 1000
      && -0.05 <= coverageJitter <= 0.05
      && 0.0 <= watertightRoll < 1.0
      && holes <= 3
    }
  }

  /** `int(input_frames * 0.95)`: the keyframes reconstruction keeps. */
  function KeyframesUsed(inputFrames: nat): (k: nat)
    ensures k <= inputFrames
  {
    (inputFrames as real * 0.95).Floor
  }

  /** Coverage grows with the frame count up to 0.95 before jitter. */
  function BaseCoverage(inputFrames: nat): (c: real)
    ensures 0.7 <= c <= 0.95
    ensures c == 0.95 <==> inputFrames >= 36
  {
    var grown := 0.7 + inputFrames as real * 0.007;
    if grown < 0.95 then grown else 0.95
  }

  /** `generate_mock_metrics`: counts scale with the frame count, the
      texture is 2048 above 30 frames, coverage is clamped to [0.5, 1], and
      the frames not used as keyframes count as tracking loss. */
  function GenerateMockMetrics(inputFrames: nat, d: MockDraws): (m: ReconstructMetrics)
    requires d.Valid(inputFrames)
    ensures m.numVertices >= 27000 && m.numTriangles >= 50000
    ensures m.textureResolution.0 == m.textureResolution.1
    ensures m.textureResolution.0 == 2048 <==> inputFrames > 30
    ensures m.textureResolution.0 == 1024 <==> inputFrames <= 30
    ensures m.fileSizeBytes == 100 * m.numVertices + 20 * m.numTriangles
    ensures 0.5 <= m.surfaceCoverage <= 1.0
    ensures m.keyframesUsed == KeyframesUsed(inputFrames)
    ensures m.keyframesUsed + m.trackingLossFrames == inputFrames
    ensures m.isWatertight <==> d.watertightRoll > 0.2
    ensures m.numHoles <= 3
  {
    var base := 30000 + 500 * inputFrames;
    var vertices := base + d.vertexJitter;
    var triangles := (vertices as real * 1.9).Floor + d.triangleJitter;
    var side := if inputFrames > 30 then 2048 else 1024;
    var raw := BaseCoverage(inputFrames) + d.coverageJitter;
    var coverage := if raw < 0.5 then 0.5 else if raw > 1.0 then 1.0 else raw;
    var keyframes := KeyframesUsed(inputFrames);
    var loss := if inputFrames - keyframes > 0 then inputFrames - keyframes else 0;
    ReconstructMetrics(vertices, triangles, (side, side), vertices * 100 + triangles * 20,
                       d.watertightRoll > 0.2, d.holes, coverage, keyframes, loss)
  }

  /** `advance_stage`: COMPLETE is a fixed point; otherwise the session
      moves to the next stage, and entering COMPLETE stops it, simulates
      its metrics and sets the mesh path. */
  function AdvanceStage(session: ReconstructSession, projectsDir: string, d: MockDraws): (r: ReconstructSession)
    requires d.Valid(session.inputFrames)
    ensures session.currentStage == Complete ==> r == session
    ensures session.currentStage != Complete ==>
              IndexOf(r.currentStage) == IndexOf(session.currentStage) + 1
              && r == session.(currentStage := r.currentStage, metrics := r.metrics,
                               isRunning := r.isRunning, outputMeshPath := r.outputMeshPath)
    ensures session.currentStage != Complete && r.currentStage == Complete ==>
              !r.isRunning && r.outputMeshPath == Some(MeshPath(projectsDir, session.objectId))
              && r.metrics == GenerateMockMetrics(session.inputFrames, d)
    ensures r.currentStage != Complete ==>
              r.metrics == session.metrics && r.outputMeshPath == session.outputMeshPath
              && r.isRunning == session.isRunning
  {
    if session.currentStage == Complete then session
    else
      var next := StageOrder[IndexOf(session.currentStage) + 1];
      if next == Complete then
        session.(currentStage := next,
                 metrics := GenerateMockMetrics(session.inputFrames, d),
                 isRunning := false,
                 outputMeshPath := Some(MeshPath(projectsDir, session.objectId)))
      else session.(currentStage := next)
  }

  /** `stop_session`: only `is_running` changes. */
  function StopSession(session: ReconstructSession): (r: ReconstructSession)
    ensures !r.isRunning && (r.CanProceed() <==> r.IsComplete())
    ensures r.(isRunning := session.isRunning) == session
  {
    session.(isRunning := false)
  }

  /** `run_all_stages`: advance until COMPLETE; the draws serve the one
      transition into COMPLETE the loop makes. */
  method RunAllStages(session: ReconstructSession, projectsDir: string, d: MockDraws) returns (r: ReconstructSession)
    requires d.Valid(session.inputFrames)
    ensures r.currentStage == Complete
    ensures session.currentStage == Complete ==> r == session
    ensures session.currentStage != Complete ==>
              r == AdvanceStage(session.(currentStage := TextureMapping), projectsDir, d)
    ensures session.currentStage != Complete ==>
              !r.isRunning && r.CanProceed() && r.metrics == GenerateMockMetrics(session.inputFrames, d)
  {
    r := session;
    if r.currentStage == Idle {
      r := AdvanceStage(r, projectsDir, d);
    }
    while r.currentStage != Complete
      invariant session.currentStage != Complete && r.currentStage != Complete ==>
                  r == session.(currentStage := r.currentStage)
      invariant session.currentStage != Complete && r.currentStage == Complete ==>
                  r == AdvanceStage(session.(currentStage := TextureMapping), projectsDir, d)
      invariant session.currentStage == Complete ==> r == session
      decreases |StageOrder| - IndexOf(r.currentStage)
    {
      AdvanceKeepsRun(session, r, projectsDir, d);
      r := AdvanceStage(r, projectsDir, d);
    }
  }

  /** One step of `run_all_stages` from a stage before COMPLETE: either the
      session only moves on, or it completes exactly as advancing from
      TEXTURE_MAPPING does. */
  lemma AdvanceKeepsRun(session: ReconstructSession, r: ReconstructSession, projectsDir: string, d: MockDraws)
    requires d.Valid(session.inputFrames)
    requires r.currentStage != Complete && r == session.(currentStage := r.currentStage)
    ensures var n := AdvanceStage(r, projectsDir, d);
      (n.currentStage != Complete ==> n == session.(currentStage := n.currentStage))
      && (n.currentStage == Complete ==> n == AdvanceStage(session.(currentStage := TextureMapping), projectsDir, d))
  {
    if StageOrder[IndexOf(r.currentStage) + 1] == Complete {
      assert r.currentStage == TextureMapping;
    }
  }
}
