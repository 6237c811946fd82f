/** The GUI's preprocess session (`scan2mesh_gui.models.preprocess_session`):
    the captured frames to mask, the masked frames produced so far, their
    aggregated metrics, and the progress properties the Preprocess page
    reads. */
module PreprocessSessions {
  import opened Common
  import opened Timestamps
  import CaptureModels
  import CaptureSessions

  type Ratio = CaptureModels.Ratio

  /** Background removal method. */
  datatype MaskMethod = DepthThreshold | Grabcut | U2net

  datatype MaskQuality = MaskQuality(maskAreaRatio: Ratio, edgeQuality: Ratio, isValid: bool)

  datatype MaskedFrame = MaskedFrame(
    frameId: nat,
    maskMethod: MaskMethod,
    quality: MaskQuality,
    maskPath: Option<string>,
    rgbMaskedPath: Option<string>,
    depthMaskedPath: Option<string>)

  datatype PreprocessMetrics = PreprocessMetrics(
    maskAreaRatioMean: Ratio,
    edgeQualityMean: Ratio,
    numProcessed: nat,
    numValid: nat)

  /** `PreprocessMetrics()`. */
  function DefaultMetrics(): (m: PreprocessMetrics)
    ensures m.numProcessed == 0 && m.numValid == 0
    ensures m.maskAreaRatioMean == 0.0 && m.edgeQualityMean == 0.0
  {
    PreprocessMetrics(0.0, 0.0, 0, 0)
  }

  datatype PreprocessSession = PreprocessSession(
    sessionId: string,
    objectId: string,
    capturedFrames: seq<CaptureSessions.CapturedFrame>,
    maskedFrames: seq<MaskedFrame>,
    metrics: PreprocessMetrics,
    isRunning: bool,
    startedAt: Option<DateTime>)
  {
    function TotalFrames(): nat
    {
      |capturedFrames|
    }

    /** `min(masked / total, 1)`, and 0 when there is nothing to mask. */
    function Progress(): (p: real)
      ensures 0.0 <= p <= 1.0
      ensures p == 1.0 <==> IsComplete()
      ensures p == 0.0 <==> TotalFrames() == 0 || maskedFrames == []
    {
      if TotalFrames() <= 0 then 0.0
      else
        var ratio := |maskedFrames| as real / TotalFrames() as real;
        if ratio < 1.0 then ratio else 1.0
    }

    /** Every captured frame has been masked, and there was at least one. */
    predicate IsComplete()
    {
      |maskedFrames| >= TotalFrames() && TotalFrames() > 0
    }

    predicate CanProceed()
    {
      IsComplete() && !isRunning
    }
  }
}
