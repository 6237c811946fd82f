/** `OptimizeService` (`scan2mesh_gui.services.optimize_service`): starts a
    session, advances it one stage at a time, and simulates the metrics of
    a finished run. Sessions are values; every operation returns a new one. */
module OptimizeService {
  import opened Common
  import opened Format
  import opened Timestamps
  import opened OptimizeSessions

  /** `str(projects_dir / object_id / "asset")`. */
  function AssetDir(projectsDir: string, objectId: string): (r: string)
    ensures StartsWith(r, projectsDir) && EndsWith(r, "asset")
    ensures !EndsWith(projectsDir, "/") && objectId != [] && !EndsWith(objectId, "/") ==>
              r == projectsDir + "/" + objectId + "/asset"
  {
    JoinPath(JoinPath(projectsDir, objectId), "asset")
  }

  /** Under the root directory the asset directory has a single leading
      separator, as pathlib joins it. */
  lemma AssetDirUnderRoot()
    ensures AssetDir("/", "obj") == "/obj/asset"
    ensures AssetDir("/data/projects", "obj") == "/data/projects/obj/asset"
  {
    assert EndsWith("/", "/");
    assert JoinPath("/", "obj") == "/obj";
    assert !EndsWith("/obj", "/") by { assert "/obj"[3..] == "j"; }
    assert JoinPath("/obj", "asset") == "/obj" + "/" + "asset";
    assert !EndsWith("/data/projects", "/") by { assert "/data/projects"[13..] == "s"; }
    assert JoinPath("/data/projects", "obj") == "/data/projects" + "/" + "obj";
    assert !EndsWith("/data/projects/obj", "/") by { assert "/data/projects/obj"[17..] == "j"; }
  }

  /** `start_session`; `sessionId` and `now` stand for the uuid prefix and
      the clock. */
  function StartSession(sessionId: string, objectId: string, inputMeshPath: Option<string>,
                        inputVertices: nat, inputTriangles: nat,
                        lod0Target: nat, lod1Target: nat, lod2Target: nat, now: DateTime): (s: OptimizeSession)
    ensures s.currentStage == Idle && s.isRunning && s.outputDir.None?
    ensures s.metrics == DefaultOptimizeMetrics() && s.startedAt == Some(now)
    ensures s.objectId == objectId && s.inputTriangles == inputTriangles
    ensures (s.lod0Target, s.lod1Target, s.lod2Target) == (lod0Target, lod1Target, lod2Target)
  {
    OptimizeSession(sessionId, objectId, inputMeshPath, inputVertices, inputTriangles, Idle,
                    DefaultOptimizeMetrics(), true, None, Some(now), lod0Target, lod1Target, lod2Target)
  }

  /** The values `generate_mock_metrics` draws from `random`, each within
      the range it is drawn from. */
  datatype MockDraws = MockDraws(
    lod0Jitter: int, lod1Jitter: int, lod2Jitter: int, collisionJitter: int,
    scaleJitter: real, holesFilled: nat, componentsRemoved: nat,
    dimJitter: real, xJitter: real, yJitter: real, zJitter: real)
  {
    predicate Valid()
    {
      -100 <= lod0Jitter <= 100 && -50 <= lod1Jitter <= 50 && -20 <= lod2Jitter <= 20
      && -10 <= collisionJitter <= 10 && -0.05 <= scaleJitter <= 0.1
      && holesFilled <= 5 && componentsRemoved <= 3
      && 0.0 <= dimJitter <= 0.2 && -0.02 <= xJitter <= 0.02 && -0.02 <= yJitter <= 0.02
      && -0.02 <= zJitter <= 0.05
    }
  }

  function Min(a: int, b: int): int { if a < b then a else b }
  function Max(a: int, b: int): int { if a > b then a else b }

  /** Texture size by input triangle count. */
  function MockTextureSide(inputTriangles: int): (side: nat)
    ensures side == 2048 <==> inputTriangles > 50000
    ensures side == 512 <==> inputTriangles <= 20000
  {
    if inputTriangles > 50000 then 2048 else if inputTriangles > 20000 then 1024 else 512
  }

  /** `generate_mock_metrics`: every LOD level is clamped from below, each
      level starts from the previous level's count, and the output size
      counts 50 bytes per triangle plus an RGB texture. */
  function GenerateMockMetrics(inputTriangles: nat, lodLimits: (nat, nat, nat), d: MockDraws): (m: OptimizeMetrics)
    requires d.Valid()
    ensures m.lod0Triangles >= 1000 && m.lod1Triangles >= 500 && m.lod2Triangles >= 100
    ensures m.collisionTriangles >= 32
    ensures m.lod1Triangles <= Max(500, m.lod0Triangles + 50)
    ensures m.lod2Triangles <= Max(100, m.lod1Triangles + 20)
    ensures m.textureResolution.0 == m.textureResolution.1 == MockTextureSide(inputTriangles)
    ensures m.outputSizeBytes == 50 * (m.lod0Triangles + m.lod1Triangles + m.lod2Triangles)
                                 + 3 * MockTextureSide(inputTriangles) * MockTextureSide(inputTriangles)
    ensures m.scaleFactor >= 0.0
  {
    var lod0 := Max(1000, Min(inputTriangles, lodLimits.0) + d.lod0Jitter);
    var lod1 := Max(500, Min(lod0, lodLimits.1) + d.lod1Jitter);
    var lod2 := Max(100, Min(lod1, lodLimits.2) + d.lod2Jitter);
    var collision := Max(32, Max(64, lod2 / 10) + d.collisionJitter);
    var side := MockTextureSide(inputTriangles);
    var dimBase := 0.15 + d.dimJitter;
    var scale := RoundTo(1.0 + d.scaleJitter, 4);
    RoundToNonNegative(1.0 + d.scaleJitter, 4);
    OptimizeMetrics(
      scale, d.holesFilled, d.componentsRemoved, lod0, lod1, lod2, collision, (side, side),
      50 * (lod0 + lod1 + lod2) + side * side * 3,
      (RoundTo(dimBase + d.xJitter, 3), RoundTo(dimBase + d.yJitter, 3), RoundTo(dimBase + d.zJitter, 3)))
  }

  /** `advance_stage`: COMPLETE is a fixed point; otherwise the session
      moves to the next stage of `STAGE_ORDER`, and entering COMPLETE
      stops it, simulates its metrics and sets its output directory. */
  function AdvanceStage(session: OptimizeSession, projectsDir: string, d: MockDraws): (r: OptimizeSession)
    requires d.Valid()
    ensures session.currentStage == Complete ==> r == session
    ensures session.currentStage != Complete ==>
              IndexOf(r.currentStage) == IndexOf(session.currentStage) + 1
              && r == session.(currentStage := r.currentStage, metrics := r.metrics,
                               isRunning := r.isRunning, outputDir := r.outputDir)
    ensures session.currentStage != Complete && r.currentStage == Complete ==>
              !r.isRunning && r.outputDir == Some(AssetDir(projectsDir, session.objectId))
              && r.metrics == GenerateMockMetrics(session.inputTriangles,
                                                  (session.lod0Target, session.lod1Target, session.lod2Target), d)
    ensures r.currentStage != Complete ==>
              r.metrics == session.metrics && r.outputDir == session.outputDir && r.isRunning == session.isRunning
  {
    if session.currentStage == Complete then session
    else
      var next := StageOrder[IndexOf(session.currentStage) + 1];
      if next == Complete then
        session.(currentStage := next,
                 metrics := GenerateMockMetrics(session.inputTriangles,
                                                (session.lod0Target, session.lod1Target, session.lod2Target), d),
                 isRunning := false,
                 outputDir := Some(AssetDir(projectsDir, session.objectId)))
      else session.(currentStage := next)
  }

  /** `stop_session`: only `is_running` changes. */
  function StopSession(session: OptimizeSession): (r: OptimizeSession)
    ensures !r.isRunning && (r.CanProceed() <==> r.IsComplete())
    ensures r.(isRunning := session.isRunning) == session
  {
    session.(isRunning := false)
  }

  /** `run_all_stages`: advance until COMPLETE. The same draws serve the one
      transition into COMPLETE that the loop makes. */
  method RunAllStages(session: OptimizeSession, projectsDir: string, d: MockDraws) returns (r: OptimizeSession)
    requires d.Valid()
    ensures r.currentStage == Complete
    ensures session.currentStage == Complete ==> r == session
    ensures session.currentStage != Complete ==>
              r == AdvanceStage(session.(currentStage := CollisionMesh), projectsDir, d)
  {
    r := session;
    if r.currentStage == Idle {
      r := AdvanceStage(r, projectsDir, d);
    }
    while r.currentStage != Complete
      invariant session.currentStage != Complete && r.currentStage != Complete ==>
                  r == session.(currentStage := r.currentStage)
      invariant session.currentStage != Complete && r.currentStage == Complete ==>
                  r == AdvanceStage(session.(currentStage := CollisionMesh), projectsDir, d)
      invariant session.currentStage == Complete ==> r == session
      decreases |StageOrder| - IndexOf(r.currentStage)
    {
      r := AdvanceStage(r, projectsDir, d);
    }
  }

  /** Six advances bring any session to COMPLETE. */
  lemma SixAdvancesComplete(session: OptimizeSession, projectsDir: string, d: MockDraws)
    requires d.Valid()
    ensures AdvanceTimes(session, projectsDir, d, 6).currentStage == Complete
  {
    var s := session;
    var k := 0;
    while k < 6
      invariant 0 <= k <= 6
      invariant s == AdvanceTimes(session, projectsDir, d, k)
      invariant IndexOf(s.currentStage) >= Min(6, IndexOf(session.currentStage) + k)
    {
      AdvanceTimesStep(session, projectsDir, d, k);
      s := AdvanceStage(s, projectsDir, d);
      k := k + 1;
    }
  }

  /** `advance_stage` applied `n` times. */
  function AdvanceTimes(session: OptimizeSession, projectsDir: string, d: MockDraws, n: nat): OptimizeSession
    requires d.Valid()
  {
    if n == 0 then session else AdvanceStage(AdvanceTimes(session, projectsDir, d, n - 1), projectsDir, d)
  }

  lemma AdvanceTimesStep(session: OptimizeSession, projectsDir: string, d: MockDraws, n: nat)
    requires d.Valid()
    ensures AdvanceTimes(session, projectsDir, d, n + 1)
            == AdvanceStage(AdvanceTimes(session, projectsDir, d, n), projectsDir, d)
  {
  }
}
