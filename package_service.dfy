/** `PackageService` (`scan2mesh_gui.services.package_service`): starts a
    packaging session, advances it (skipping the archive stage for a
    directory package), and simulates what a finished package holds. */
module PackageService {
  import opened Common
  import opened Timestamps
  import opened PackageSessions

  /** `start_session`; `sessionId` and `now` stand for the uuid prefix and
      the clock. */
  function StartSession(sessionId: string, objectId: string, objectName: string, config: PackageConfig,
                        now: DateTime): (s: PackageSession)
    ensures s.currentStage == Idle && s.isRunning && s.config == config
    ensures s.metrics == DefaultPackageMetrics() && s.startedAt == Some(now)
    ensures s.objectId == objectId && s.objectName == objectName && s.sessionId == sessionId
  {
    PackageSession(sessionId, objectId, objectName, Idle, config, DefaultPackageMetrics(), true, Some(now))
  }

  /** The sizes `generate_mock_metrics` draws from `random`, one per file
      group, each within the range it is drawn from; a group that is not
      included ignores its draw. */
  datatype MockDraws = MockDraws(
    lod0: nat, lod1: nat, lod2: nat, collision: nat, manifest: nat, report: nat,
    preview: nat, source: nat, compressionRatio: real)
  {
    predicate Valid()
    {
      8_000_000 <= lod0 <= 12_000_000 && 2_000_000 <= lod1 <= 4_000_000
      && 500_000 <= lod2 <= 1_500_000 && 50_000 <= collision <= 150_000
      && 2_000 <= manifest <= 5_000 && 3_000 <= report <= 8_000
      && 100_000 <= preview <= 300_000 && 50_000_000 <= source <= 200_000_000
      && 0.4 <= compressionRatio <= 0.6
    }
  }

  /** The mesh files the first four flags select, in flag order. */
  function MeshFiles(config: PackageConfig, name: string): seq<string>
  {
    (if config.includeLod0 then [name + "_lod0.glb"] else [])
    + (if config.includeLod1 then [name + "_lod1.glb"] else [])
    + (if config.includeLod2 then [name + "_lod2.glb"] else [])
    + (if config.includeCollision then [name + "_collision.glb"] else [])
  }

  /** The manifest, report, preview and source files the other four flags
      select, in flag order; the preview flag selects two files. */
  function SupportFiles(config: PackageConfig): seq<string>
  {
    (if config.includeManifest then ["manifest.json"] else [])
    + (if config.includeReport then ["quality_report.json"] else [])
    + (if config.includePreview then ["preview.png", "thumbnail.png"] else [])
    + (if config.includeSource then ["source/frames.tar.gz"] else [])
  }

  /** The included files: determined by the flags alone, not the draws. */
  function FilesIncluded(config: PackageConfig, name: string): seq<string>
  {
    MeshFiles(config, name) + SupportFiles(config)
  }

  function MeshSize(config: PackageConfig, d: MockDraws): nat
  {
    (if config.includeLod0 then d.lod0 else 0) + (if config.includeLod1 then d.lod1 else 0)
    + (if config.includeLod2 then d.lod2 else 0) + (if config.includeCollision then d.collision else 0)
  }

  function SupportSize(config: PackageConfig, d: MockDraws): nat
  {
    (if config.includeManifest then d.manifest else 0) + (if config.includeReport then d.report else 0)
    + (if config.includePreview then d.preview else 0) + (if config.includeSource then d.source else 0)
  }

  /** The drawn sizes of the included groups. */
  function TotalSize(config: PackageConfig, d: MockDraws): nat
  {
    MeshSize(config, d) + SupportSize(config, d)
  }

  /** `f"{output_dir}/{object_name}_{timestamp}"`, with ".zip" for a zip. */
  function OutputPath(config: PackageConfig, name: string, now: DateTime): string
  {
    config.outputDir + "/" + name + "_" + FileStamp(now) + (if config.outputFormat == "zip" then ".zip" else "")
  }

  /** `int(total_size * compression_ratio)`, for a zip only. */
  function CompressedSize(config: PackageConfig, total: nat, ratio: real): Option<int>
  {
    if config.outputFormat == "zip" then Some((total as real * ratio).Floor) else None
  }

  /** What `generate_mock_metrics` returns. */
  function MockMetrics(config: PackageConfig, name: string, d: MockDraws, now: DateTime): PackageMetrics
  {
    var total := TotalSize(config, d);
    PackageMetrics(|FilesIncluded(config, name)|, total,
                   CompressedSize(config, total, d.compressionRatio),
                   OutputPath(config, name, now), FilesIncluded(config, name))
  }

  /** The first four blocks of `generate_mock_metrics`: the mesh files. */
  method AddMeshFiles(config: PackageConfig, name: string, d: MockDraws) returns (files: seq<string>, total: nat)
    ensures files == MeshFiles(config, name) && total == MeshSize(config, d)
  {
    files, total := [], 0;
    if config.includeLod0 {
      files := files + [name + "_lod0.glb"];
      total := total + d.lod0;
    }
    if config.includeLod1 {
      files := files + [name + "_lod1.glb"];
      total := total + d.lod1;
    }
    if config.includeLod2 {
      files := files + [name + "_lod2.glb"];
      total := total + d.lod2;
    }
    if config.includeCollision {
      files := files + [name + "_collision.glb"];
      total := total + d.collision;
    }
  }

  /** The last four blocks of `generate_mock_metrics`: the manifest,
      report, preview and source files, appended to `files`. */
  method AddSupportFiles(config: PackageConfig, d: MockDraws, files: seq<string>, total: nat)
    returns (files': seq<string>, total': nat)
    ensures files' == files + SupportFiles(config) && total' == total + SupportSize(config, d)
  {
    files', total' := files, total;
    if config.includeManifest {
      files' := files' + ["manifest.json"];
      total' := total' + d.manifest;
    }
    if config.includeReport {
      files' := files' + ["quality_report.json"];
      total' := total' + d.report;
    }
    if config.includePreview {
      files' := files' + ["preview.png"];
      files' := files' + ["thumbnail.png"];
      total' := total' + d.preview;
    }
    if config.includeSource {
      files' := files' + ["source/frames.tar.gz"];
      total' := total' + d.source;
    }
  }

  /** `generate_mock_metrics`: collects the included files and their drawn
      sizes, then derives the compressed size and the output path. */
  method GenerateMockMetrics(config: PackageConfig, name: string, d: MockDraws, now: DateTime)
    returns (m: PackageMetrics)
    requires d.Valid()
    ensures m == MockMetrics(config, name, d, now)
  {
    var files, total := AddMeshFiles(config, name, d);
    files, total := AddSupportFiles(config, d, files, total);
    var compressed := CompressedSize(config, total, d.compressionRatio);
    m := PackageMetrics(|files|, total, compressed, OutputPath(config, name, now), files);
  }

  /** `advance_stage`: COMPLETE is a fixed point; otherwise the session
      moves to the next stage, except that a "directory" package goes from
      GENERATING_MANIFEST straight to COMPLETE. Entering COMPLETE stops the
      session and simulates its metrics. */
  function AdvanceStage(session: PackageSession, d: MockDraws, now: DateTime): (r: PackageSession)
    requires d.Valid()
    ensures session.currentStage == Complete ==> r == session
    ensures session.currentStage != Complete ==>
              r.currentStage == (if StageOrder[IndexOf(session.currentStage) + 1] == CreatingArchive
                                    && session.config.outputFormat == "directory"
                                 then Complete else StageOrder[IndexOf(session.currentStage) + 1])
    ensures session.currentStage != Complete && r.currentStage == Complete ==>
              r == session.(currentStage := Complete, isRunning := false,
                            metrics := MockMetrics(session.config, session.objectName, d, now))
    ensures r.currentStage != Complete ==> r == session.(currentStage := r.currentStage)
  {
    if session.currentStage == Complete then session
    else
      var next := StageOrder[IndexOf(session.currentStage) + 1];
      var next := if next == CreatingArchive && session.config.outputFormat == "directory" then Complete else next;
      if next == Complete then
        session.(currentStage := next,
                 metrics := MockMetrics(session.config, session.objectName, d, now),
                 isRunning := false)
      else session.(currentStage := next)
  }

  /** `stop_session`: only `is_running` changes. */
  function StopSession(session: PackageSession): (r: PackageSession)
    ensures !r.isRunning && (r.CanProceed() <==> r.IsComplete())
    ensures r.(isRunning := session.isRunning) == session
  {
    session.(isRunning := false)
  }

  /** `run_all_stages`: advance until COMPLETE, for either output format;
      the session ends stopped, with simulated metrics and otherwise as it
      began. */
  method RunAllStages(session: PackageSession, d: MockDraws, now: DateTime) returns (r: PackageSession)
    requires d.Valid()
    ensures r.currentStage == Complete
    ensures session.currentStage == Complete ==> r == session
    ensures session.currentStage != Complete ==>
              r == session.(currentStage := Complete, isRunning := false,
                            metrics := MockMetrics(session.config, session.objectName, d, now))
  {
    r := session;
    if r.currentStage == Idle {
      r := AdvanceStage(r, d, now);
    }
    while r.currentStage != Complete
      invariant session.currentStage != Complete && r.currentStage != Complete ==>
                  r == session.(currentStage := r.currentStage)
      invariant session.currentStage != Complete && r.currentStage == Complete ==>
                  r == session.(currentStage := Complete, isRunning := false,
                                metrics := MockMetrics(session.config, session.objectName, d, now))
      invariant session.currentStage == Complete ==> r == session
      decreases |StageOrder| - IndexOf(r.currentStage)
    {
      r := AdvanceStage(r, d, now);
    }
  }

  /** A "directory" package never enters CREATING_ARCHIVE by advancing. */
  lemma DirectoryNeverArchives(session: PackageSession, d: MockDraws, now: DateTime)
    requires d.Valid() && session.config.outputFormat == "directory"
    ensures AdvanceStage(session, d, now).currentStage != CreatingArchive || session.currentStage == CreatingArchive
  {
  }

  /** Any other format passes through CREATING_ARCHIVE. */
  lemma ZipVisitsArchive(session: PackageSession, d: MockDraws, now: DateTime)
    requires d.Valid() && session.config.outputFormat != "directory" && session.currentStage == GeneratingManifest
    ensures AdvanceStage(session, d, now).currentStage == CreatingArchive
    ensures AdvanceStage(session, d, now).isRunning == session.isRunning
  {
  }

  /** The output path ends in ".zip" exactly for a zip package: otherwise
      it ends in the timestamp's last digit. */
  lemma OutputPathZipIff(config: PackageConfig, name: string, now: DateTime)
    ensures EndsWith(OutputPath(config, name, now), ".zip") <==> config.outputFormat == "zip"
  {
    var path := OutputPath(config, name, now);
    var stem := config.outputDir + "/" + name + "_" + FileStamp(now);
    if config.outputFormat != "zip" {
      assert path == stem;
      assert path[|path| - 1] == FileStamp(now)[|FileStamp(now)| - 1];
      assert !EndsWith(path, ".zip") by {
        if 4 <= |path| {
          assert path[|path| - 4..][3] == path[|path| - 1] != 'p';
        }
      }
    }
  }

  /** The output path is the output directory, "/", the object name and "_",
      then the file stamp of `now`, then ".zip" for a zip package. The
      stamp reads back as `now`. */
  lemma OutputPathReadsBack(config: PackageConfig, name: string, now: DateTime)
    requires FitsWidths(now)
    ensures var prefix := config.outputDir + "/" + name + "_";
      var path := OutputPath(config, name, now);
      StartsWith(path, prefix)
      && |path| == |prefix| + 15 + (if config.outputFormat == "zip" then 4 else 0)
      && FileStampOf(path[|prefix|..|prefix| + 15], now)
  {
    var prefix := config.outputDir + "/" + name + "_";
    var path := OutputPath(config, name, now);
    var ext := if config.outputFormat == "zip" then ".zip" else "";
    FileStampReadsBack(now);
    assert path == prefix + FileStamp(now) + ext;
    assert path[|prefix|..|prefix| + 15] == FileStamp(now);
    assert path[..|prefix|] == prefix;
  }

  /** A compressed size exists exactly for a zip package, and it lies
      between 40% and 60% of the total, rounded down. */
  lemma CompressedSizeBounds(config: PackageConfig, total: nat, ratio: real)
    requires 0.4 <= ratio <= 0.6
    ensures CompressedSize(config, total, ratio).Some? <==> config.outputFormat == "zip"
    ensures config.outputFormat == "zip" ==>
              var c := CompressedSize(config, total, ratio).value;
              0 <= c <= total && 4 * total < 10 * c + 10 && 10 * c <= 6 * total
  {
    if config.outputFormat == "zip" {
      var t := total as real;
      var x := t * ratio;
      ScaleBetween(t, ratio, 0.4, 0.6, x);
      FloorBetween(t, x, x.Floor);
    }
  }

  /** `x = t * r` lies between `lo * t` and `hi * t` for a ratio `r` in
      [lo, hi]. */
  lemma ScaleBetween(t: real, r: real, lo: real, hi: real, x: real)
    requires 0.0 <= t && lo <= r <= hi && x == t * r
    ensures lo * t <= x <= hi * t
  {
    assert t * (r - lo) >= 0.0;
    assert t * (hi - r) >= 0.0;
  }

  /** Rounding down a value between 40% and 60% of `t` keeps it within
      those shares, up to the lost fraction. */
  lemma FloorBetween(t: real, x: real, c: int)
    requires 0.0 <= t && 0.4 * t <= x <= 0.6 * t && c == x.Floor
    ensures 0 <= c && c as real <= t && 4.0 * t < 10.0 * (c as real) + 10.0
    ensures 10.0 * (c as real) <= 6.0 * t
  {
  }

  /** `files_count` is the number of flags set, plus one for the second
      preview file. */
  lemma FilesCount(config: PackageConfig, name: string, d: MockDraws, now: DateTime)
    ensures MockMetrics(config, name, d, now).filesCount == |FilesIncluded(config, name)|
    ensures |FilesIncluded(config, name)|
            == (if config.includeLod0 then 1 else 0) + (if config.includeLod1 then 1 else 0)
               + (if config.includeLod2 then 1 else 0) + (if config.includeCollision then 1 else 0)
               + (if config.includeManifest then 1 else 0) + (if config.includeReport then 1 else 0)
               + (if config.includePreview then 2 else 0) + (if config.includeSource then 1 else 0)
  {
  }

  /** The default configuration packages eight files into a zip. */
  lemma DefaultPackage(name: string, d: MockDraws, now: DateTime)
    requires d.Valid()
    ensures MockMetrics(DefaultPackageConfig(), name, d, now).filesIncluded
            == [name + "_lod0.glb", name + "_lod1.glb", name + "_lod2.glb", name + "_collision.glb",
                "manifest.json", "quality_report.json", "preview.png", "thumbnail.png"]
    ensures MockMetrics(DefaultPackageConfig(), name, d, now).compressedSizeBytes.Some?
    ensures 10_655_000 <= MockMetrics(DefaultPackageConfig(), name, d, now).totalSizeBytes <= 17_963_000
  {
  }
}
