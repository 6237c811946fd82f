/** The frozen configuration records of `scan2mesh.models.config`, with
    their pydantic field constraints and validators as record invariants. */
module ProjectConfigs {
  import opened Common
  import opened Names

  /** `^[XYZ]$`. */
  predicate IsAxis(s: string)
  {
    s == "X" || s == "Y" || s == "Z"
  }

  datatype CoordinateSystem = CoordinateSystem(upAxis: string, forwardAxis: string, origin: string)
  {
    predicate Valid()
    {
      IsAxis(upAxis) && IsAxis(forwardAxis)
    }
  }

  /** `CoordinateSystem()` with every field defaulted. */
  function DefaultCoordinateSystem(): (c: CoordinateSystem)
    ensures c.Valid() && c.upAxis == "Z" && c.forwardAxis == "Y" && c.origin == "bottom_center"
  {
    CoordinateSystem("Z", "Y", "bottom_center")
  }

  function NewCoordinateSystem(upAxis: string, forwardAxis: string, origin: string)
    : (r: Validation<CoordinateSystem>)
    ensures r.Accepted? <==> IsAxis(upAxis) && IsAxis(forwardAxis)
    ensures r.Accepted? ==> r.value == CoordinateSystem(upAxis, forwardAxis, origin) && r.value.Valid()
    ensures r.Rejected? ==> (("up_axis" in r.fields) <==> !IsAxis(upAxis))
  {
    var checks := [("up_axis", IsAxis(upAxis)), ("forward_axis", IsAxis(forwardAxis))];
    if IsAxis(upAxis) && IsAxis(forwardAxis) then Accepted(CoordinateSystem(upAxis, forwardAxis, origin))
    else
      assert !IsAxis(upAxis) ==> "up_axis" in Failing(checks) by {
        if !IsAxis(upAxis) { FailingIncludes(checks, 0); }
      }
      assert "up_axis" in Failing(checks) ==> !IsAxis(upAxis);
      Rejected(Failing(checks))
  }

  const MinTextureResolution := 256
  const MaxTextureResolution := 4096

  datatype OutputPreset = OutputPreset(
    coordinateSystem: CoordinateSystem,
    units: string,
    textureResolution: int,
    lodTriangleLimits: seq<int>)
  {
    predicate Valid()
    {
      coordinateSystem.Valid() && MinTextureResolution <= textureResolution <= MaxTextureResolution
    }
  }

  /** Strictly decreasing triangle budgets, finest level first. */
  predicate StrictlyDescending(limits: seq<int>)
  {
    forall i :: 0 < i < |limits| ==> limits[i] < limits[i - 1]
  }

  /** `OutputPreset()` with every field defaulted. */
  function DefaultOutputPreset(): (p: OutputPreset)
    ensures p.Valid() && p.textureResolution == 2048 && p.units == "meter"
    ensures p.lodTriangleLimits == [100000, 30000, 10000] && StrictlyDescending(p.lodTriangleLimits)
    ensures p.coordinateSystem == DefaultCoordinateSystem()
  {
    OutputPreset(DefaultCoordinateSystem(), "meter", 2048, [100000, 30000, 10000])
  }

  function NewOutputPreset(coordinateSystem: CoordinateSystem, units: string, textureResolution: int,
                           lodTriangleLimits: seq<int>): (r: Validation<OutputPreset>)
    requires coordinateSystem.Valid()
    ensures r.Accepted? <==> MinTextureResolution <= textureResolution <= MaxTextureResolution
    ensures r.Accepted? ==> r.value.Valid() && r.value.lodTriangleLimits == lodTriangleLimits
    ensures r.Rejected? ==> r.fields == ["texture_resolution"]
  {
    if MinTextureResolution <= textureResolution <= MaxTextureResolution then
      Accepted(OutputPreset(coordinateSystem, units, textureResolution, lodTriangleLimits))
    else Rejected(["texture_resolution"])
  }

  predicate IsScaleMethod(m: string)
  {
    m == "known_dimension" || m == "realsense_depth_scale"
  }

  predicate IsDimensionType(t: string)
  {
    t == "diameter" || t == "length" || t == "width" || t == "height"
  }

  predicate IsUncertainty(u: string)
  {
    u == "low" || u == "medium" || u == "high"
  }

  datatype ScaleInfo = ScaleInfo(
    scaleMethod: string,
    knownDimensionMm: Option<real>,
    dimensionType: Option<string>,
    uncertainty: string)
  {
    predicate Valid()
    {
      IsScaleMethod(scaleMethod)
      && (knownDimensionMm.Some? ==> knownDimensionMm.value >= 0.0)
      && (dimensionType.Some? ==> IsDimensionType(dimensionType.value))
      && IsUncertainty(uncertainty)
    }
  }

  /** `ScaleInfo(method=..., ...)`; absent optional arguments are passed as
      `None`, and an absent `uncertainty` as "medium". */
  function NewScaleInfo(scaleMethod: string, knownDimensionMm: Option<real>, dimensionType: Option<string>,
                        uncertainty: Option<string>): (r: Validation<ScaleInfo>)
    ensures r.Accepted? <==>
              ScaleInfo(scaleMethod, knownDimensionMm, dimensionType,
                        if uncertainty.Some? then uncertainty.value else "medium").Valid()
    ensures r.Accepted? ==> r.value.scaleMethod == scaleMethod && r.value.knownDimensionMm == knownDimensionMm
                            && r.value.dimensionType == dimensionType
    ensures r.Accepted? && uncertainty.None? ==> r.value.uncertainty == "medium"
    ensures r.Rejected? ==> forall f :: f in r.fields ==>
              f in ["method", "known_dimension_mm", "dimension_type", "uncertainty"]
  {
    var u := if uncertainty.Some? then uncertainty.value else "medium";
    var info := ScaleInfo(scaleMethod, knownDimensionMm, dimensionType, u);
    if info.Valid() then Accepted(info)
    else Rejected(Failing([("method", IsScaleMethod(scaleMethod)),
           ("known_dimension_mm", knownDimensionMm.Some? ==> knownDimensionMm.value >= 0.0),
           ("dimension_type", dimensionType.Some? ==> IsDimensionType(dimensionType.value)),
           ("uncertainty", IsUncertainty(u))]))
  }

  const MaxTagLength := 50
  const SchemaVersion := "1.0"

  /** A project object name: 1 to 100 characters of the name pattern and no
      path traversal. */
  predicate IsProjectObjectName(name: string)
  {
    1 <= |name| <= 100 && MatchesNamePattern(name) && !HasPathTraversal(name)
  }

  predicate ValidTags(tags: seq<string>)
  {
    forall i :: 0 <= i < |tags| ==> 1 <= |tags[i]| <= MaxTagLength
  }

  /** `created_at`/`updated_at` are datetimes, carried as their ISO text. */
  datatype ProjectConfig = ProjectConfig(
    schemaVersion: string,
    objectName: string,
    classId: int,
    tags: seq<string>,
    outputPreset: OutputPreset,
    scaleInfo: Option<ScaleInfo>,
    createdAt: string,
    updatedAt: string,
    configHash: string)
  {
    predicate Valid()
    {
      IsProjectObjectName(objectName)
      && 0 <= classId <= 9999
      && ValidTags(tags)
      && outputPreset.Valid()
      && (scaleInfo.Some? ==> scaleInfo.value.Valid())
    }
  }

  /** `ProjectConfig(...)` with `schema_version` defaulted; nested records
      are already validated objects. */
  function NewProjectConfig(objectName: string, classId: int, tags: seq<string>,
                            outputPreset: OutputPreset, scaleInfo: Option<ScaleInfo>,
                            createdAt: string, updatedAt: string, configHash: string)
    : (r: Validation<ProjectConfig>)
    requires outputPreset.Valid() && (scaleInfo.Some? ==> scaleInfo.value.Valid())
    ensures r.Accepted? <==> IsProjectObjectName(objectName) && 0 <= classId <= 9999 && ValidTags(tags)
    ensures r.Accepted? ==> r.value.Valid() && r.value.schemaVersion == "1.0"
                            && r.value.objectName == objectName && r.value.tags == tags
    ensures r.Rejected? ==> forall f :: f in r.fields ==> f in ["object_name", "class_id", "tags"]
  {
    if IsProjectObjectName(objectName) && 0 <= classId <= 9999 && ValidTags(tags) then
      Accepted(ProjectConfig(SchemaVersion, objectName, classId, tags, outputPreset, scaleInfo,
                             createdAt, updatedAt, configHash))
    else
      Rejected(Failing([("object_name", IsProjectObjectName(objectName)),
                        ("class_id", 0 <= classId <= 9999),
                        ("tags", ValidTags(tags))]))
  }

  /** The after-validator on `object_name` adds nothing to the field's
      pattern: a name that matches is never rejected for traversal. */
  lemma ProjectNameTraversalCheckRedundant(name: string)
    requires 1 <= |name| <= 100 && MatchesNamePattern(name)
    ensures IsProjectObjectName(name)
  {
    PatternExcludesTraversal(name);
  }
}
