/** The GUI's capture session (`scan2mesh_gui.models.capture_session`):
    frames collected so far, their aggregated metrics, and the progress
    properties the Capture page reads. */
module CaptureSessions {
  import opened Common
  import opened Timestamps
  import CaptureModels

  type Ratio = CaptureModels.Ratio

  datatype FrameQuality = FrameQuality(depthValidRatio: Ratio, blurScore: Ratio, isKeyframe: bool)

  datatype CapturedFrame = CapturedFrame(
    frameId: nat,
    timestamp: DateTime,
    quality: FrameQuality,
    rgbPath: Option<string>,
    depthPath: Option<string>)

  /** Means lie in [0, 1] like the per-frame values; the coverage score is
      a ratio too. */
  datatype CaptureSessionMetrics = CaptureSessionMetrics(
    depthValidRatioMean: Ratio,
    blurScoreMean: Ratio,
    coverageScore: Ratio,
    numFrames: nat,
    numKeyframes: nat)

  /** `CaptureSessionMetrics()`. */
  function DefaultMetrics(): (m: CaptureSessionMetrics)
    ensures m.numFrames == 0 && m.numKeyframes == 0
    ensures m.depthValidRatioMean == 0.0 && m.blurScoreMean == 0.0 && m.coverageScore == 0.0
  {
    CaptureSessionMetrics(0.0, 0.0, 0.0, 0, 0)
  }

  /** The minimum number of frames a capture needs before it may proceed. */
  const MinFrames: nat := 10

  /** `target_keyframes` is at least 1. */
  datatype CaptureSession = CaptureSession(
    sessionId: string,
    objectId: string,
    targetKeyframes: CaptureModels.PositiveInt,
    frames: seq<CapturedFrame>,
    metrics: CaptureSessionMetrics,
    isRunning: bool,
    startedAt: Option<DateTime>)
  {
    /** `min(num_frames / target_keyframes, 1)`. */
    function Progress(): (p: real)
      ensures 0.0 <= p <= 1.0
      ensures p == 1.0 <==> metrics.numFrames >= targetKeyframes
      ensures p == 0.0 <==> metrics.numFrames == 0
    {
      if targetKeyframes <= 0 then 0.0
      else
        var ratio := metrics.numFrames as real / targetKeyframes as real;
        if ratio < 1.0 then ratio else 1.0
    }

    /** At least ten frames have been captured. */
    predicate IsComplete()
    {
      metrics.numFrames >= MinFrames
    }

    predicate CanProceed()
    {
      IsComplete() && !isRunning
    }
  }
}
