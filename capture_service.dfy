/** `CaptureService` (`scan2mesh_gui.services.capture_service`): the
    keyframe rule, the aggregation of a session's frames into its metrics,
    and the session updates. Camera access, OpenCV and file output are not
    modelled: the Laplacian variance of a frame is a parameter. */
module CaptureService {
  import opened Common
  import opened Timestamps
  import opened Stats
  import CaptureModels
  import opened CaptureSessions
  import ImageService

  /** `DEPTH_VALID_THRESHOLD` and `BLUR_SCORE_THRESHOLD`. */
  const DepthValidThreshold: real := 0.6
  const BlurScoreThreshold: real := 0.5

  /** `start_session`; a target below 1 fails the session's validation. */
  function StartSession(sessionId: string, objectId: string, targetKeyframes: int, now: DateTime)
    : (r: Validation<CaptureSession>)
    ensures r.Rejected? <==> targetKeyframes < 1
    ensures r.Rejected? ==> r.fields == ["target_keyframes"]
    ensures r.Accepted? ==> r.value.frames == [] && r.value.isRunning && r.value.metrics == DefaultMetrics()
                            && r.value.targetKeyframes == targetKeyframes && r.value.startedAt == Some(now)
                            && r.value.objectId == objectId && r.value.sessionId == sessionId
  {
    if targetKeyframes < 1 then Rejected(["target_keyframes"])
    else Accepted(CaptureSession(sessionId, objectId, targetKeyframes, [], DefaultMetrics(), true, Some(now)))
  }

  /** `_calculate_blur_score` after the Laplacian variance: 100 and below
      is fully blurred, 500 and above fully sharp. */
  function BlurScore(variance: real): (s: Ratio)
    ensures s == 0.0 <==> variance <= 100.0
    ensures s == 1.0 <==> variance >= 500.0
    ensures s >= BlurScoreThreshold <==> variance >= 300.0
  {
    var x := (variance - 100.0) / 400.0;
    if x < 0.0 then 0.0 else if x > 1.0 then 1.0 else x
  }

  /** The keyframe rule. */
  predicate IsKeyframe(depthValidRatio: real, blurScore: real)
  {
    depthValidRatio >= DepthValidThreshold && blurScore >= BlurScoreThreshold
  }

  /** The keyframe rule is monotone: a frame with at least as many valid
      depth pixels and at least as sharp an image as a keyframe is a
      keyframe too, and both thresholds are met exactly at their values. */
  lemma KeyframeMonotone(d1: real, b1: real, d2: real, b2: real)
    requires IsKeyframe(d1, b1) && d1 <= d2 && b1 <= b2
    ensures IsKeyframe(d2, b2)
    ensures IsKeyframe(DepthValidThreshold, BlurScoreThreshold)
    ensures d1 >= 0.6 && b1 >= 0.5
  {
  }

  /** `calculate_quality` for a depth image (rows of pixels) and the
      Laplacian variance of its colour image; an empty depth image makes
      the ratio's division raise. */
  function CalculateQuality(depth: seq<seq<int>>, variance: real): (r: Result<FrameQuality>)
    ensures r.Err? <==> PixelCount(depth) == 0
    ensures r.Ok? ==> r.value.depthValidRatio == PositiveRatio(depth) && r.value.blurScore == BlurScore(variance)
    ensures r.Ok? ==> (r.value.isKeyframe <==> r.value.depthValidRatio >= 0.6 && variance >= 300.0)
  {
    if PixelCount(depth) == 0 then Err("float division by zero")
    else
      var ratio := PositiveRatio(depth);
      var blur := BlurScore(variance);
      Ok(FrameQuality(ratio, blur, IsKeyframe(ratio, blur)))
  }

  /** The per-frame values `update_metrics` averages and counts. */
  function DepthRatios(frames: seq<CapturedFrame>): (xs: seq<real>)
    ensures |xs| == |frames| && forall i :: 0 <= i < |xs| ==> 0.0 <= xs[i] <= 1.0
  {
    seq(|frames|, i requires 0 <= i < |frames| => frames[i].quality.depthValidRatio as real)
  }

  function BlurScores(frames: seq<CapturedFrame>): (xs: seq<real>)
    ensures |xs| == |frames| && forall i :: 0 <= i < |xs| ==> 0.0 <= xs[i] <= 1.0
  {
    seq(|frames|, i requires 0 <= i < |frames| => frames[i].quality.blurScore as real)
  }

  function KeyframeFlags(frames: seq<CapturedFrame>): (bs: seq<bool>)
    ensures |bs| == |frames|
  {
    seq(|frames|, i requires 0 <= i < |frames| => frames[i].quality.isKeyframe)
  }

  /** `update_metrics`: default metrics for no frames; otherwise the means
      of the frame values, the frame and keyframe counts, and a coverage of
      0.9 times the capped progress. */
  function UpdateMetrics(session: CaptureSession): (m: CaptureSessionMetrics)
    ensures session.frames == [] ==> m == DefaultMetrics()
    ensures m.numFrames == |session.frames|
    ensures m.numKeyframes == CountTrue(KeyframeFlags(session.frames)) <= m.numFrames
    ensures 0.0 <= m.coverageScore <= 0.9
    ensures m.coverageScore == 0.9 <==> |session.frames| >= session.targetKeyframes
    ensures session.frames != [] ==>
              m.depthValidRatioMean == Mean(DepthRatios(session.frames))
              && m.blurScoreMean == Mean(BlurScores(session.frames))
  {
    var frames := session.frames;
    if frames == [] then DefaultMetrics()
    else
      var depthMean := Mean(DepthRatios(frames));
      var blurMean := Mean(BlurScores(frames));
      MeanBounds(DepthRatios(frames), 0.0, 1.0);
      MeanBounds(BlurScores(frames), 0.0, 1.0);
      var progress := |frames| as real / session.targetKeyframes as real;
      RatioBelowOne(|frames| as real, session.targetKeyframes as real);
      var coverage := (if progress < 1.0 then progress else 1.0) * 0.9;
      CaptureSessionMetrics(depthMean, blurMean, coverage, |frames|, CountTrue(KeyframeFlags(frames)))
  }

  /** A quotient by a positive number is below one exactly when the
      dividend is below the divisor. */
  lemma RatioBelowOne(a: real, b: real)
    requires b > 0.0
    ensures a / b < 1.0 <==> a < b
  {
    if a < b {
      assert a / b * b == a;
    }
  }

  /** `stop_session`: only `is_running` changes. */
  function StopSession(session: CaptureSession): (r: CaptureSession)
    ensures !r.isRunning && (r.CanProceed() <==> r.IsComplete())
    ensures r.(isRunning := session.isRunning) == session
  {
    session.(isRunning := false)
  }

  /** `add_frame_to_session`: the frame goes at the end and the metrics are
      recomputed from the new list; nothing else changes. */
  function AddFrameToSession(session: CaptureSession, frame: CapturedFrame): (r: CaptureSession)
    ensures r.frames == session.frames + [frame]
    ensures r.metrics == UpdateMetrics(r)
    ensures r == session.(frames := r.frames, metrics := r.metrics)
  {
    var withFrame := session.(frames := session.frames + [frame]);
    withFrame.(metrics := UpdateMetrics(withFrame))
  }

  /** Adding a frame counts one more frame, and one more keyframe exactly
      when the new frame is one. */
  lemma AddFrameCounts(session: CaptureSession, frame: CapturedFrame)
    ensures AddFrameToSession(session, frame).metrics.numFrames == UpdateMetrics(session).numFrames + 1
    ensures AddFrameToSession(session, frame).metrics.numKeyframes
            == UpdateMetrics(session).numKeyframes + (if frame.quality.isKeyframe then 1 else 0)
  {
    var frames := session.frames + [frame];
    assert KeyframeFlags(frames) == KeyframeFlags(session.frames) + [frame.quality.isKeyframe];
    CountTrueAppend(KeyframeFlags(session.frames), frame.quality.isKeyframe);
  }

  /** After a frame is added, the depth mean times the frame count is the
      old frames' total plus the new frame's ratio. */
  lemma AddFrameDepthMean(session: CaptureSession, frame: CapturedFrame)
    ensures var n := |session.frames| as real;
            AddFrameToSession(session, frame).metrics.depthValidRatioMean * (n + 1.0)
            == Sum(DepthRatios(session.frames)) + frame.quality.depthValidRatio as real
  {
    var r := AddFrameToSession(session, frame);
    var xs := DepthRatios(r.frames);
    assert xs == DepthRatios(session.frames) + [frame.quality.depthValidRatio as real];
    assert r.metrics.depthValidRatioMean == Mean(xs);
    MeanTimesCount(xs);
    SumAppend(DepthRatios(session.frames), frame.quality.depthValidRatio as real);
  }

  /** The GUI's frame quality agrees with the core image service: the same
      depth ratio, and the same blur score for an (H, W, 3) image. */
  lemma QualityAgreesWithImageService(depth: seq<seq<int>>, shape: seq<nat>, variance: real)
    requires PixelCount(depth) > 0
    requires ImageService.CalculateBlurScore(shape, variance).Ok?
    ensures CalculateQuality(depth, variance).value.depthValidRatio
            == ImageService.CalculateDepthValidRatio(depth).value
    ensures CalculateQuality(depth, variance).value.blurScore
            == ImageService.CalculateBlurScore(shape, variance).value
  {
  }
}
