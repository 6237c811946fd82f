/** `PreprocessService` (`scan2mesh_gui.services.preprocess_service`): the
    mask validity rule, applying a mask to the colour and depth images,
    and the session updates. Mask generation (depth threshold, GrabCut,
    contours) and file output are not modelled: the mask and its raw edge
    score are parameters. */
module PreprocessService {
  import opened Common
  import opened Timestamps
  import opened Stats
  import CaptureSessions
  import opened PreprocessSessions

  /** `MASK_AREA_RATIO_MIN`, `MASK_AREA_RATIO_MAX`, `EDGE_QUALITY_THRESHOLD`. */
  const MaskAreaRatioMin: real := 0.05
  const MaskAreaRatioMax: real := 0.8
  const EdgeQualityThreshold: real := 0.3

  /** `start_session`: nothing masked yet, running. */
  function StartSession(sessionId: string, objectId: string,
                        capturedFrames: seq<CaptureSessions.CapturedFrame>, now: DateTime): (s: PreprocessSession)
    ensures s.maskedFrames == [] && s.isRunning && s.metrics == DefaultMetrics()
    ensures s.capturedFrames == capturedFrames && s.objectId == objectId && s.startedAt == Some(now)
    ensures s.Progress() == 0.0 && !s.CanProceed()
  {
    PreprocessSession(sessionId, objectId, capturedFrames, [], DefaultMetrics(), true, Some(now))
  }

  /** The final clamp of `_calculate_edge_quality` on the combined
      circularity and smoothness score. */
  function ClampEdgeQuality(x: real): (e: Ratio)
    ensures 0.0 <= x <= 1.0 ==> e == x
    ensures x < 0.0 ==> e == 0.0
    ensures x > 1.0 ==> e == 1.0
  {
    if x > 1.0 then 1.0 else if x < 0.0 then 0.0 else x
  }

  /** The validity rule: the mask covers between 5% and 80% of the image,
      bounds included, and its edges score at least 0.3. */
  predicate IsValidMask(areaRatio: real, edgeQuality: real)
  {
    MaskAreaRatioMin <= areaRatio <= MaskAreaRatioMax && edgeQuality >= EdgeQualityThreshold
  }

  /** `calculate_mask_quality` for a mask given as rows of pixels and the
      raw edge score; an empty mask makes the ratio's division raise. */
  function CalculateMaskQuality(mask: seq<seq<int>>, rawEdgeScore: real): (r: Result<MaskQuality>)
    ensures r.Err? <==> PixelCount(mask) == 0
    ensures r.Ok? ==> r.value.maskAreaRatio == PositiveRatio(mask)
                      && r.value.edgeQuality == ClampEdgeQuality(rawEdgeScore)
    ensures r.Ok? ==> (r.value.isValid <==>
                         0.05 * PixelCount(mask) as real <= PositiveCount(mask) as real <= 0.8 * PixelCount(mask) as real
                         && r.value.edgeQuality >= 0.3)
  {
    if PixelCount(mask) == 0 then Err("float division by zero")
    else
      var ratio := PositiveRatio(mask);
      var edge := ClampEdgeQuality(rawEdgeScore);
      ScaledBounds(PositiveCount(mask) as real, PixelCount(mask) as real);
      Ok(MaskQuality(ratio, edge, IsValidMask(ratio, edge)))
  }

  /** Comparing a quotient with the two area bounds is comparing the
      dividend with the scaled bounds. */
  lemma ScaledBounds(a: real, b: real)
    requires b > 0.0
    ensures MaskAreaRatioMin <= a / b <==> MaskAreaRatioMin * b <= a
    ensures a / b <= MaskAreaRatioMax <==> a <= MaskAreaRatioMax * b
  {
    assert a / b * b == a;
  }

  /** Two images of the same height whose rows have the same widths. */
  predicate SameShape<T, U>(a: seq<seq<T>>, b: seq<seq<U>>)
  {
    |a| == |b| && forall i :: 0 <= i < |a| ==> |a[i]| == |b[i]|
  }

  /** `_apply_depth_mask`: a depth pixel survives where the mask is
      positive and becomes 0 elsewhere. */
  function ApplyDepthMask(depth: seq<seq<int>>, mask: seq<seq<int>>): (r: seq<seq<int>>)
    requires SameShape(depth, mask)
    ensures SameShape(r, depth)
    ensures forall i, j :: 0 <= i < |r| && 0 <= j < |r[i]| ==>
              r[i][j] == (if mask[i][j] > 0 then depth[i][j] else 0)
  {
    seq(|depth|, i requires 0 <= i < |depth| =>
      seq(|depth[i]|, j requires 0 <= j < |depth[i]| => if mask[i][j] > 0 then depth[i][j] else 0))
  }

  datatype Rgb = Rgb(r: int, g: int, b: int)

  const Black := Rgb(0, 0, 0)

  /** `_apply_mask`: the mask is stacked over the three channels, so a
      colour pixel survives whole where the mask is positive and is black
      elsewhere. */
  function ApplyMask(rgb: seq<seq<Rgb>>, mask: seq<seq<int>>): (r: seq<seq<Rgb>>)
    requires SameShape(rgb, mask)
    ensures SameShape(r, rgb)
    ensures forall i, j :: 0 <= i < |r| && 0 <= j < |r[i]| ==>
              r[i][j] == (if mask[i][j] > 0 then rgb[i][j] else Black)
  {
    seq(|rgb|, i requires 0 <= i < |rgb| =>
      seq(|rgb[i]|, j requires 0 <= j < |rgb[i]| => if mask[i][j] > 0 then rgb[i][j] else Black))
  }

  /** Masking twice with the same mask changes nothing more. */
  lemma ApplyDepthMaskIdempotent(depth: seq<seq<int>>, mask: seq<seq<int>>)
    requires SameShape(depth, mask)
    ensures ApplyDepthMask(ApplyDepthMask(depth, mask), mask) == ApplyDepthMask(depth, mask)
  {
    var once := ApplyDepthMask(depth, mask);
    var twice := ApplyDepthMask(once, mask);
    assert |twice| == |once|;
    forall i | 0 <= i < |once| ensures twice[i] == once[i] {
      assert |twice[i]| == |once[i]|;
    }
  }

  /** A mask that is positive everywhere keeps the depth image, and one
      that is positive nowhere clears it. */
  lemma ApplyDepthMaskExtremes(depth: seq<seq<int>>, mask: seq<seq<int>>)
    requires SameShape(depth, mask)
    ensures (forall i, j :: 0 <= i < |mask| && 0 <= j < |mask[i]| ==> mask[i][j] > 0)
            ==> ApplyDepthMask(depth, mask) == depth
    ensures (forall i, j :: 0 <= i < |mask| && 0 <= j < |mask[i]| ==> mask[i][j] <= 0)
            ==> forall i, j :: 0 <= i < |depth| && 0 <= j < |depth[i]| ==> ApplyDepthMask(depth, mask)[i][j] == 0
  {
    var r := ApplyDepthMask(depth, mask);
    if forall i, j :: 0 <= i < |mask| && 0 <= j < |mask[i]| ==> mask[i][j] > 0 {
      forall i | 0 <= i < |r| ensures r[i] == depth[i] {
        assert |r[i]| == |depth[i]|;
      }
    }
  }

  /** The per-frame values `update_metrics` averages and counts. */
  function AreaRatios(frames: seq<MaskedFrame>): (xs: seq<real>)
    ensures |xs| == |frames| && forall i :: 0 <= i < |xs| ==> 0.0 <= xs[i] <= 1.0
  {
    seq(|frames|, i requires 0 <= i < |frames| => frames[i].quality.maskAreaRatio as real)
  }

  function EdgeQualities(frames: seq<MaskedFrame>): (xs: seq<real>)
    ensures |xs| == |frames| && forall i :: 0 <= i < |xs| ==> 0.0 <= xs[i] <= 1.0
  {
    seq(|frames|, i requires 0 <= i < |frames| => frames[i].quality.edgeQuality as real)
  }

  function ValidFlags(frames: seq<MaskedFrame>): (bs: seq<bool>)
    ensures |bs| == |frames|
  {
    seq(|frames|, i requires 0 <= i < |frames| => frames[i].quality.isValid)
  }

  /** `update_metrics`: default metrics for no masked frames; otherwise the
      means of the frame values, the number processed and the number of
      valid masks among them. */
  function UpdateMetrics(session: PreprocessSession): (m: PreprocessMetrics)
    ensures session.maskedFrames == [] ==> m == DefaultMetrics()
    ensures m.numProcessed == |session.maskedFrames|
    ensures m.numValid == CountTrue(ValidFlags(session.maskedFrames)) <= m.numProcessed
    ensures session.maskedFrames != [] ==>
              m.maskAreaRatioMean == Mean(AreaRatios(session.maskedFrames))
              && m.edgeQualityMean == Mean(EdgeQualities(session.maskedFrames))
  {
    var frames := session.maskedFrames;
    if frames == [] then DefaultMetrics()
    else
      MeanBounds(AreaRatios(frames), 0.0, 1.0);
      MeanBounds(EdgeQualities(frames), 0.0, 1.0);
      PreprocessMetrics(Mean(AreaRatios(frames)), Mean(EdgeQualities(frames)),
                        |frames|, CountTrue(ValidFlags(frames)))
  }

  /** `stop_session`: only `is_running` changes. */
  function StopSession(session: PreprocessSession): (r: PreprocessSession)
    ensures !r.isRunning && (r.CanProceed() <==> r.IsComplete())
    ensures r.(isRunning := session.isRunning) == session
  {
    session.(isRunning := false)
  }

  /** `add_masked_frame_to_session`: the frame goes at the end and the
      metrics are recomputed from the new list; nothing else changes. */
  function AddMaskedFrameToSession(session: PreprocessSession, frame: MaskedFrame): (r: PreprocessSession)
    ensures r.maskedFrames == session.maskedFrames + [frame]
    ensures r.metrics == UpdateMetrics(r)
    ensures r == session.(maskedFrames := r.maskedFrames, metrics := r.metrics)
  {
    var withFrame := session.(maskedFrames := session.maskedFrames + [frame]);
    withFrame.(metrics := UpdateMetrics(withFrame))
  }

  /** Adding a masked frame counts one more processed frame, and one more
      valid one exactly when the new mask is valid. */
  lemma AddMaskedFrameCounts(session: PreprocessSession, frame: MaskedFrame)
    ensures AddMaskedFrameToSession(session, frame).metrics.numProcessed == UpdateMetrics(session).numProcessed + 1
    ensures AddMaskedFrameToSession(session, frame).metrics.numValid
            == UpdateMetrics(session).numValid + (if frame.quality.isValid then 1 else 0)
  {
    assert ValidFlags(session.maskedFrames + [frame]) == ValidFlags(session.maskedFrames) + [frame.quality.isValid];
    CountTrueAppend(ValidFlags(session.maskedFrames), frame.quality.isValid);
  }

  /** Masking every captured frame, one at a time, completes the session. */
  lemma MaskingAllCompletes(session: PreprocessSession, frames: seq<MaskedFrame>)
    requires session.maskedFrames == [] && |frames| == session.TotalFrames() > 0
    ensures AddAll(session, frames).IsComplete()
    ensures AddAll(session, frames).maskedFrames == frames
  {
    AddAllFrames(session, frames);
    assert session.maskedFrames + frames == frames;
  }

  /** `add_masked_frame_to_session` applied to each frame in turn. */
  function AddAll(session: PreprocessSession, frames: seq<MaskedFrame>): PreprocessSession
    decreases |frames|
  {
    if frames == [] then session
    else AddAll(AddMaskedFrameToSession(session, frames[0]), frames[1..])
  }

  lemma {:induction false} AddAllFrames(session: PreprocessSession, frames: seq<MaskedFrame>)
    ensures AddAll(session, frames).maskedFrames == session.maskedFrames + frames
    ensures AddAll(session, frames).capturedFrames == session.capturedFrames
    decreases |frames|
  {
    if frames != [] {
      var next := AddMaskedFrameToSession(session, frames[0]);
      AddAllFrames(next, frames[1..]);
      assert session.maskedFrames + frames == next.maskedFrames + frames[1..];
    }
  }
}
