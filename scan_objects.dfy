/** The GUI's scan-target record (`scan2mesh_gui.models.scan_object`): the
    pipeline-stage and quality-status enums and the validated `ScanObject`. */
module ScanObjects {
  import opened Common
  import opened Names

  datatype PipelineStage = Init | Plan | Capture | Preprocess | Reconstruct | Optimize | Package | Report

  /** The members in declaration order. */
  const PipelineStages: seq<PipelineStage> :=
    [Init, Plan, Capture, Preprocess, Reconstruct, Optimize, Package, Report]

  function StageValue(s: PipelineStage): string
  {
    match s
    case Init => "init"
    case Plan => "plan"
    case Capture => "capture"
    case Preprocess => "preprocess"
    case Reconstruct => "reconstruct"
    case Optimize => "optimize"
    case Package => "package"
    case Report => "report"
  }

  /** Every stage is listed exactly once, and the string values are
      distinct, so the enum round-trips through its JSON value. */
  lemma PipelineStagesEnumerated()
    ensures |PipelineStages| == 8
    ensures forall s: PipelineStage :: s in PipelineStages
    ensures forall i, j :: 0 <= i < j < |PipelineStages| ==> PipelineStages[i] != PipelineStages[j]
    ensures forall s, t: PipelineStage :: StageValue(s) == StageValue(t) ==> s == t
  {
    forall s: PipelineStage ensures s in PipelineStages {
      assert s.Init? || s.Plan? || s.Capture? || s.Preprocess? || s.Reconstruct? || s.Optimize?
             || s.Package? || s.Report?;
    }
  }

  datatype QualityStatus = Pass | Warn | Fail | Pending

  const QualityStatuses: seq<QualityStatus> := [Pass, Warn, Fail, Pending]

  function StatusValue(s: QualityStatus): string
  {
    match s
    case Pass => "pass"
    case Warn => "warn"
    case Fail => "fail"
    case Pending => "pending"
  }

  lemma QualityStatusesEnumerated()
    ensures |QualityStatuses| == 4
    ensures forall s: QualityStatus :: s in QualityStatuses
    ensures forall i, j :: 0 <= i < j < |QualityStatuses| ==> QualityStatuses[i] != QualityStatuses[j]
    ensures forall s, t: QualityStatus :: StatusValue(s) == StatusValue(t) ==> s == t
  {
    forall s: QualityStatus ensures s in QualityStatuses {
      assert s.Pass? || s.Warn? || s.Fail? || s.Pending?;
    }
  }

  predicate IsDimensionType(t: string)
  {
    t == "diameter" || t == "length" || t == "width" || t == "height"
  }

  /** Timestamps are datetimes, carried as their ISO text; `id` is the
      generated uuid. */
  datatype ScanObject = ScanObject(
    id: string,
    profileId: string,
    name: string,
    displayName: string,
    classId: int,
    tags: seq<string>,
    knownDimensionMm: Option<real>,
    dimensionType: Option<string>,
    referenceImages: seq<string>,
    previewImage: Option<string>,
    currentStage: PipelineStage,
    qualityStatus: QualityStatus,
    projectPath: Option<string>,
    createdAt: string,
    updatedAt: string,
    lastScanAt: Option<string>)
  {
    /** The constraints pydantic checks when the record is built. */
    predicate Valid()
    {
      1 <= |name| <= 100 && MatchesNamePattern(name) && !HasPathTraversal(name)
      && 1 <= |displayName| <= 200
      && 0 <= classId <= 9999
      && (dimensionType.Some? ==> IsDimensionType(dimensionType.value))
    }
  }

  /** `ScanObject(profile_id=..., name=..., ...)` as `create_object` calls
      it; `id` and `now` stand for the uuid and clock the defaults draw. */
  function NewScanObject(id: string, profileId: string, name: string, displayName: string, classId: int,
                         tags: seq<string>, knownDimensionMm: Option<real>, dimensionType: Option<string>,
                         now: string): (r: Validation<ScanObject>)
    ensures r.Accepted? <==> 1 <= |name| <= 100 && MatchesNamePattern(name) && 1 <= |displayName| <= 200
                             && 0 <= classId <= 9999
                             && (dimensionType.Some? ==> IsDimensionType(dimensionType.value))
    ensures r.Accepted? ==> r.value.Valid()
    ensures r.Accepted? ==> r.value.currentStage == Init && r.value.qualityStatus == Pending
                            && r.value.name == name && r.value.projectPath.None? && r.value.lastScanAt.None?
                            && r.value.createdAt == now && r.value.updatedAt == now
  {
    var nameOk := 1 <= |name| <= 100 && MatchesNamePattern(name) && !HasPathTraversal(name);
    assert MatchesNamePattern(name) ==> !HasPathTraversal(name) by {
      if MatchesNamePattern(name) { PatternExcludesTraversal(name); }
    }
    if nameOk && 1 <= |displayName| <= 200 && 0 <= classId <= 9999
       && (dimensionType.Some? ==> IsDimensionType(dimensionType.value))
    then
      Accepted(ScanObject(id, profileId, name, displayName, classId, tags, knownDimensionMm, dimensionType,
                          [], None, Init, Pending, None, now, now, None))
    else
      Rejected(Failing([("name", nameOk), ("display_name", 1 <= |displayName| <= 200),
                        ("class_id", 0 <= classId <= 9999),
                        ("dimension_type", dimensionType.Some? ==> IsDimensionType(dimensionType.value))]))
  }
}
