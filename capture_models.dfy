/** The frozen capture records of `scan2mesh.models.capture`. Each pydantic
    range constraint is a subset type, so a record value cannot break it;
    the `New…` functions model construction from unchecked inputs. */
module CaptureModels {
  import opened Common

  type Positive = x: real | x > 0.0 witness 1.0
  type NonNegative = x: real | x >= 0.0
  type Ratio = x: real | 0.0 <= x <= 1.0
  type Azimuth = x: real | 0.0 <= x < 360.0
  type Elevation = x: real | -90.0 <= x <= 90.0
  type PositiveInt = n: int | n > 0 witness 1

  predicate IsRatio(x: real) { 0.0 <= x <= 1.0 }

  datatype CameraIntrinsics = CameraIntrinsics(
    width: PositiveInt, height: PositiveInt,
    fx: Positive, fy: Positive,
    cx: NonNegative, cy: NonNegative,
    depthScale: Positive)

  function NewCameraIntrinsics(width: int, height: int, fx: real, fy: real, cx: real, cy: real,
                               depthScale: real): (r: Validation<CameraIntrinsics>)
    ensures r.Accepted? <==> width > 0 && height > 0 && fx > 0.0 && fy > 0.0
                             && cx >= 0.0 && cy >= 0.0 && depthScale > 0.0
    ensures r.Accepted? ==> r.value.width == width && r.value.height == height && r.value.fx == fx
                            && r.value.fy == fy && r.value.cx == cx && r.value.cy == cy
                            && r.value.depthScale == depthScale
    ensures r.Rejected? ==> (("depth_scale" in r.fields) <==> depthScale <= 0.0)
  {
    var checks := [("width", width > 0), ("height", height > 0), ("fx", fx > 0.0), ("fy", fy > 0.0),
                   ("cx", cx >= 0.0), ("cy", cy >= 0.0), ("depth_scale", depthScale > 0.0)];
    var failing := Failing(checks);
    if failing == [] then
      assert checks[0].1 && checks[1].1 && checks[2].1 && checks[3].1 && checks[4].1 && checks[5].1 && checks[6].1;
      Accepted(CameraIntrinsics(width, height, fx, fy, cx, cy, depthScale))
    else
      assert "depth_scale" in failing ==> checks[6] == ("depth_scale", false);
      assert checks[6] == ("depth_scale", false) ==> "depth_scale" in failing by {
        if checks[6] == ("depth_scale", false) { FailingIncludes(checks, 6); }
      }
      Rejected(failing)
  }

  datatype FrameQuality = FrameQuality(
    depthValidRatio: Ratio, blurScore: Ratio, objectOccupancy: Ratio, isKeyframe: bool)

  /** `FrameQuality(...)`; an absent `is_keyframe` is passed as `None` and
      defaults to false. */
  function NewFrameQuality(depthValidRatio: real, blurScore: real, objectOccupancy: real,
                           isKeyframe: Option<bool>): (r: Validation<FrameQuality>)
    ensures r.Accepted? <==> IsRatio(depthValidRatio) && IsRatio(blurScore) && IsRatio(objectOccupancy)
    ensures r.Accepted? ==> r.value.depthValidRatio == depthValidRatio && r.value.blurScore == blurScore
                            && r.value.objectOccupancy == objectOccupancy
    ensures r.Accepted? ==> r.value.isKeyframe == (isKeyframe.Some? && isKeyframe.value)
  {
    if IsRatio(depthValidRatio) && IsRatio(blurScore) && IsRatio(objectOccupancy) then
      Accepted(FrameQuality(depthValidRatio, blurScore, objectOccupancy,
                            if isKeyframe.Some? then isKeyframe.value else false))
    else
      Rejected(Failing([("depth_valid_ratio", IsRatio(depthValidRatio)), ("blur_score", IsRatio(blurScore)),
                        ("object_occupancy", IsRatio(objectOccupancy))]))
  }

  datatype ViewPoint = ViewPoint(
    index: nat, azimuthDeg: Azimuth, elevationDeg: Elevation, distanceM: Positive, order: nat)

  function NewViewPoint(index: int, azimuthDeg: real, elevationDeg: real, distanceM: real, order: int)
    : (r: Validation<ViewPoint>)
    ensures r.Accepted? <==> index >= 0 && 0.0 <= azimuthDeg < 360.0 && -90.0 <= elevationDeg <= 90.0
                             && distanceM > 0.0 && order >= 0
    ensures r.Accepted? ==> r.value.index == index && r.value.azimuthDeg == azimuthDeg
                            && r.value.elevationDeg == elevationDeg && r.value.distanceM == distanceM
                            && r.value.order == order
  {
    if index >= 0 && 0.0 <= azimuthDeg < 360.0 && -90.0 <= elevationDeg <= 90.0 && distanceM > 0.0 && order >= 0
    then Accepted(ViewPoint(index, azimuthDeg, elevationDeg, distanceM, order))
    else Rejected(Failing([("index", index >= 0), ("azimuth_deg", 0.0 <= azimuthDeg < 360.0),
                           ("elevation_deg", -90.0 <= elevationDeg <= 90.0), ("distance_m", distanceM > 0.0),
                           ("order", order >= 0)]))
  }

  datatype CapturePlanPreset = Quick | Standard | Hard

  datatype CapturePlan = CapturePlan(
    preset: CapturePlanPreset,
    viewpoints: seq<ViewPoint>,
    minRequiredFrames: PositiveInt,
    recommendedDistanceM: Positive,
    notes: seq<string>)

  /** `CapturePlan(...)`; absent `notes` are passed as the empty list. */
  function NewCapturePlan(preset: CapturePlanPreset, viewpoints: seq<ViewPoint>, minRequiredFrames: int,
                          recommendedDistanceM: real, notes: seq<string>): (r: Validation<CapturePlan>)
    ensures r.Accepted? <==> minRequiredFrames > 0 && recommendedDistanceM > 0.0
    ensures r.Accepted? ==> r.value.viewpoints == viewpoints && r.value.minRequiredFrames == minRequiredFrames
                            && r.value.recommendedDistanceM == recommendedDistanceM && r.value.notes == notes
  {
    if minRequiredFrames > 0 && recommendedDistanceM > 0.0 then
      Accepted(CapturePlan(preset, viewpoints, minRequiredFrames, recommendedDistanceM, notes))
    else
      Rejected(Failing([("min_required_frames", minRequiredFrames > 0),
                        ("recommended_distance_m", recommendedDistanceM > 0.0)]))
  }

  datatype CaptureMetrics = CaptureMetrics(
    numFramesRaw: nat,
    numKeyframes: nat,
    depthValidRatioMean: Ratio,
    depthValidRatioMin: Ratio,
    blurScoreMean: Ratio,
    blurScoreMin: Ratio,
    coverageScore: Ratio,
    captureDurationSec: NonNegative,
    gateStatus: string,
    gateReasons: seq<string>)

  /** `CaptureMetrics(...)` with `gate_status` and `gate_reasons` left at
      their defaults. */
  function NewCaptureMetrics(numFramesRaw: int, numKeyframes: int,
                             depthValidRatioMean: real, depthValidRatioMin: real,
                             blurScoreMean: real, blurScoreMin: real, coverageScore: real,
                             captureDurationSec: real): (r: Validation<CaptureMetrics>)
    ensures r.Accepted? <==> numFramesRaw >= 0 && numKeyframes >= 0
                             && IsRatio(depthValidRatioMean) && IsRatio(depthValidRatioMin)
                             && IsRatio(blurScoreMean) && IsRatio(blurScoreMin) && IsRatio(coverageScore)
                             && captureDurationSec >= 0.0
    ensures r.Accepted? ==> r.value.gateStatus == "pending" && r.value.gateReasons == []
    ensures r.Accepted? ==> r.value.numFramesRaw == numFramesRaw && r.value.numKeyframes == numKeyframes
                            && r.value.coverageScore == coverageScore
    ensures r.Accepted? ==> r.value.depthValidRatioMean == depthValidRatioMean
                            && r.value.depthValidRatioMin == depthValidRatioMin
                            && r.value.blurScoreMean == blurScoreMean && r.value.blurScoreMin == blurScoreMin
                            && r.value.captureDurationSec == captureDurationSec
  {
    if numFramesRaw >= 0 && numKeyframes >= 0 && IsRatio(depthValidRatioMean) && IsRatio(depthValidRatioMin)
       && IsRatio(blurScoreMean) && IsRatio(blurScoreMin) && IsRatio(coverageScore) && captureDurationSec >= 0.0
    then
      Accepted(CaptureMetrics(numFramesRaw, numKeyframes, depthValidRatioMean, depthValidRatioMin,
                              blurScoreMean, blurScoreMin, coverageScore, captureDurationSec, "pending", []))
    else
      Rejected(Failing([("num_frames_raw", numFramesRaw >= 0), ("num_keyframes", numKeyframes >= 0),
                        ("depth_valid_ratio_mean", IsRatio(depthValidRatioMean)),
                        ("depth_valid_ratio_min", IsRatio(depthValidRatioMin)),
                        ("blur_score_mean", IsRatio(blurScoreMean)), ("blur_score_min", IsRatio(blurScoreMin)),
                        ("coverage_score", IsRatio(coverageScore)),
                        ("capture_duration_sec", captureDurationSec >= 0.0)]))
  }

  /** A captured frame; `timestamp` is the datetime's ISO text. */
  datatype FrameData = FrameData(
    frameId: nat,
    timestamp: string,
    rgbPath: string,
    depthPath: string,
    intrinsics: CameraIntrinsics,
    quality: FrameQuality,
    estimatedViewpoint: Option<ViewPoint>)

  datatype FramesMetadata = FramesMetadata(frames: seq<FrameData>, totalFrames: int, keyframeIds: seq<int>)

  /** `FramesMetadata()` with every field defaulted. */
  function DefaultFramesMetadata(): (m: FramesMetadata)
    ensures m.frames == [] && m.totalFrames == 0 && m.keyframeIds == []
  {
    FramesMetadata([], 0, [])
  }
}
