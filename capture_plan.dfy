/** The GUI's capture plan (`scan2mesh_gui.models.capture_plan`): a preset,
    the viewpoints to visit and the counts the Capture Plan page shows. Its
    `ViewPoint` has the same fields and bounds as the core package's, so
    `CaptureModels.ViewPoint` stands for both. */
module CapturePlans {
  import opened Common
  import opened Timestamps
  import CaptureModels

  type ViewPoint = CaptureModels.ViewPoint

  datatype CapturePlanPreset = Quick | Standard | HighQuality

  /** The distinct azimuths of a list of viewpoints. */
  function Azimuths(vps: seq<ViewPoint>): (s: set<real>)
    ensures |s| <= |vps|
    ensures s == {} <==> vps == []
    ensures forall i :: 0 <= i < |vps| ==> vps[i].azimuthDeg in s
    ensures s == set i | 0 <= i < |vps| :: vps[i].azimuthDeg
  {
    if vps == [] then {}
    else
      var rest := Azimuths(vps[1..]);
      assert forall i :: 1 <= i < |vps| ==> vps[i] == vps[1..][i - 1];
      {vps[0].azimuthDeg} + rest
  }

  /** The distinct elevations of a list of viewpoints. */
  function Elevations(vps: seq<ViewPoint>): (s: set<real>)
    ensures |s| <= |vps|
    ensures s == {} <==> vps == []
    ensures forall i :: 0 <= i < |vps| ==> vps[i].elevationDeg in s
    ensures s == set i | 0 <= i < |vps| :: vps[i].elevationDeg
  {
    if vps == [] then {}
    else
      var rest := Elevations(vps[1..]);
      assert forall i :: 1 <= i < |vps| ==> vps[i] == vps[1..][i - 1];
      {vps[0].elevationDeg} + rest
  }

  /** At least one frame is required and the distance is positive. */
  datatype CapturePlan = CapturePlan(
    preset: CapturePlanPreset,
    viewpoints: seq<ViewPoint>,
    minRequiredFrames: CaptureModels.PositiveInt,
    recommendedDistanceM: CaptureModels.Positive,
    notes: seq<string>,
    createdAt: DateTime)
  {
    function NumViewpoints(): nat
    {
      |viewpoints|
    }

    /** The number of distinct azimuths, 0 for no viewpoints. */
    function AzimuthPositions(): (n: nat)
      ensures n <= NumViewpoints() && (n == 0 <==> viewpoints == [])
      ensures n == |set i | 0 <= i < |viewpoints| :: viewpoints[i].azimuthDeg|
    {
      |Azimuths(viewpoints)|
    }

    /** The number of distinct elevations, 0 for no viewpoints. */
    function ElevationLevels(): (n: nat)
      ensures n <= NumViewpoints() && (n == 0 <==> viewpoints == [])
      ensures n == |set i | 0 <= i < |viewpoints| :: viewpoints[i].elevationDeg|
    {
      |Elevations(viewpoints)|
    }
  }

  /** `CapturePlan(...)` with its field checks. */
  function NewCapturePlan(preset: CapturePlanPreset, viewpoints: seq<ViewPoint>, minRequiredFrames: int,
                          recommendedDistanceM: real, notes: seq<string>, createdAt: DateTime)
    : (r: Validation<CapturePlan>)
    ensures r.Accepted? <==> minRequiredFrames >= 1 && recommendedDistanceM > 0.0
    ensures r.Rejected? ==> ("min_required_frames" in r.fields <==> minRequiredFrames < 1)
    ensures r.Accepted? ==> r.value == CapturePlan(preset, viewpoints, minRequiredFrames, recommendedDistanceM,
                                                   notes, createdAt)
  {
    if minRequiredFrames >= 1 && recommendedDistanceM > 0.0 then
      Accepted(CapturePlan(preset, viewpoints, minRequiredFrames, recommendedDistanceM, notes, createdAt))
    else
      var checks := [("min_required_frames", minRequiredFrames >= 1),
                     ("recommended_distance_m", recommendedDistanceM > 0.0)];
      Rejected(Failing(checks))
  }
}
