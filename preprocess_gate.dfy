/** `PreprocessQualityGate` (`scan2mesh.gates.preprocess`): checks the
    preprocessing metrics against five thresholds, recording reason codes
    and human-readable suggestions in two lists it owns. */
module PreprocessGate {
  import opened Format

  /** `scan2mesh.gates.thresholds.QualityStatus`. */
  datatype QualityStatus = Pass | Warn | Fail

  /** How bad a status is: PASS < WARN < FAIL. */
  function Severity(s: QualityStatus): nat
  {
    match s
    case Pass => 0
    case Warn => 1
    case Fail => 2
  }

  /** The fields of `PreprocessMetrics` the gate reads, plus the rest of the
      record as carried along. */
  datatype PreprocessMetrics = PreprocessMetrics(
    numInputFrames: nat,
    numOutputFrames: nat,
    maskMethod: string,
    maskAreaRatioMean: real,
    maskAreaRatioMin: real,
    validFramesRatio: real,
    gateStatus: string,
    gateReasons: seq<string>)

  /** The `PREPROCESS_*` constants the gate imports. */
  datatype Thresholds = Thresholds(
    minValidFramesRatio: real,
    warnValidFramesRatio: real,
    minMaskAreaRatio: real,
    warnMaskAreaMin: real,
    maxMaskAreaRatio: real)

  /** The values the unit tests pin down. */
  const DefaultThresholds := Thresholds(0.8, 0.9, 0.1, 0.15, 0.9)

  /** The status returned together with the two lists it leaves behind. */
  datatype Verdict = Verdict(status: QualityStatus, reasons: seq<string>, suggestions: seq<string>)

  /** The reason codes. */
  const NoOutputFrames := "no_output_frames"
  const LowValidFramesRatio := "low_valid_frames_ratio"
  const MaskAreaTooSmall := "mask_area_too_small"
  const MaskAreaTooLarge := "mask_area_too_large"
  const ValidFramesRatioWarn := "valid_frames_ratio_warn"
  const MaskAreaMinWarn := "mask_area_min_warn"

  const NoOutputSuggestion :=
    "No frames were processed successfully. Check that keyframes exist and raw frame data is valid."

  function LowValidSuggestion(m: PreprocessMetrics, t: Thresholds): string
  {
    "Valid frames ratio (" + Percent1(m.validFramesRatio) + ") is below threshold ("
    + Percent1(t.minValidFramesRatio) + "). Check lighting conditions and object placement."
  }

  function MaskTooSmallSuggestion(m: PreprocessMetrics): string
  {
    "Minimum mask area ratio (" + Percent1(m.maskAreaRatioMin) + ") is too small. "
    + "The object may be too far from the camera or depth thresholds need adjustment."
  }

  function MaskTooLargeSuggestion(m: PreprocessMetrics): string
  {
    "Mean mask area ratio (" + Percent1(m.maskAreaRatioMean) + ") is too large. "
    + "The object may be too close or depth thresholds need adjustment."
  }

  function ValidWarnSuggestion(m: PreprocessMetrics, t: Thresholds): string
  {
    "Valid frames ratio (" + Percent1(m.validFramesRatio) + ") is below optimal ("
    + Percent1(t.warnValidFramesRatio) + "). Consider recapturing with better lighting."
  }

  function MaskWarnSuggestion(m: PreprocessMetrics, t: Thresholds): string
  {
    "Minimum mask area ratio (" + Percent1(m.maskAreaRatioMin) + ") is below optimal ("
    + Percent1(t.warnMaskAreaMin) + "). Some frames may have poor segmentation."
  }

  /** Some fail check fires. */
  predicate FailsAnyCheck(m: PreprocessMetrics, t: Thresholds)
  {
    m.numOutputFrames == 0 || m.validFramesRatio < t.minValidFramesRatio
    || m.maskAreaRatioMin < t.minMaskAreaRatio || m.maskAreaRatioMean > t.maxMaskAreaRatio
  }

  /** The warn-phase reasons, in the order they are checked. */
  function WarnReasons(m: PreprocessMetrics, t: Thresholds): seq<string>
  {
    (if m.validFramesRatio < t.warnValidFramesRatio then [ValidFramesRatioWarn] else [])
    + (if m.maskAreaRatioMin < t.warnMaskAreaMin then [MaskAreaMinWarn] else [])
  }

  /** The warn-phase suggestions, one per warn reason. */
  function WarnSuggestions(m: PreprocessMetrics, t: Thresholds): seq<string>
  {
    (if m.validFramesRatio < t.warnValidFramesRatio then [ValidWarnSuggestion(m, t)] else [])
    + (if m.maskAreaRatioMin < t.warnMaskAreaMin then [MaskWarnSuggestion(m, t)] else [])
  }

  /** What `validate` returns and leaves in the gate, as a value. */
  function Evaluate(m: PreprocessMetrics, t: Thresholds): Verdict
  {
    if FailsAnyCheck(m, t) then FailVerdict(m, t) else WarnVerdict(m, t)
  }

  /** The FAIL verdict of the first fail check that fires. */
  function FailVerdict(m: PreprocessMetrics, t: Thresholds): Verdict
    requires FailsAnyCheck(m, t)
  {
    if m.numOutputFrames == 0 then Verdict(Fail, [NoOutputFrames], [NoOutputSuggestion])
    else if m.validFramesRatio < t.minValidFramesRatio then
      Verdict(Fail, [LowValidFramesRatio], [LowValidSuggestion(m, t)])
    else if m.maskAreaRatioMin < t.minMaskAreaRatio then
      Verdict(Fail, [MaskAreaTooSmall], [MaskTooSmallSuggestion(m)])
    else
      Verdict(Fail, [MaskAreaTooLarge], [MaskTooLargeSuggestion(m)])
  }

  /** The verdict of the warn phase: WARN when a warn check fires. */
  function WarnVerdict(m: PreprocessMetrics, t: Thresholds): Verdict
  {
    var warn := m.validFramesRatio < t.warnValidFramesRatio || m.maskAreaRatioMin < t.warnMaskAreaMin;
    Verdict(if warn then Warn else Pass, WarnReasons(m, t), WarnSuggestions(m, t))
  }

  /** One suggestion per reason; PASS exactly when there is no reason; FAIL
      exactly when some fail check fires, with a single reason; otherwise
      the warn reasons in the order they are checked. */
  lemma EvaluateShape(m: PreprocessMetrics, t: Thresholds)
    ensures var v := Evaluate(m, t);
      && |v.reasons| == |v.suggestions|
      && (v.status == Pass <==> v.reasons == [])
      && (v.status == Fail <==> FailsAnyCheck(m, t))
      && (v.status == Fail ==> |v.reasons| == 1)
      && (v.status != Fail ==> v.reasons == WarnReasons(m, t))
  {
    if !FailsAnyCheck(m, t) {
      var r := WarnReasons(m, t);
      assert r != [] ==> r[0] == ValidFramesRatioWarn || r[0] == MaskAreaMinWarn;
    }
  }

  /** No output frames is decided first, whatever else the metrics say. */
  lemma NoOutputFramesFailsFirst(m: PreprocessMetrics, t: Thresholds)
    requires m.numOutputFrames == 0
    ensures Evaluate(m, t) == Verdict(Fail, [NoOutputFrames], [NoOutputSuggestion])
  {
  }

  /** A FAIL names the first fail check that fires, in the order: no output
      frames, valid-frames ratio, minimum mask area, mean mask area. */
  lemma FailReasonIsFirstFiringCheck(m: PreprocessMetrics, t: Thresholds)
    requires FailsAnyCheck(m, t)
    ensures Evaluate(m, t).reasons ==
              if m.numOutputFrames == 0 then [NoOutputFrames]
              else if m.validFramesRatio < t.minValidFramesRatio then [LowValidFramesRatio]
              else if m.maskAreaRatioMin < t.minMaskAreaRatio then [MaskAreaTooSmall]
              else [MaskAreaTooLarge]
  {
  }

  /** WARN holds exactly when no fail check fires and some warn check does. */
  lemma WarnIff(m: PreprocessMetrics, t: Thresholds)
    ensures Evaluate(m, t).status == Warn <==>
              !FailsAnyCheck(m, t)
              && (m.validFramesRatio < t.warnValidFramesRatio || m.maskAreaRatioMin < t.warnMaskAreaMin)
  {
  }

  /** The comparisons are strict: metrics sitting exactly on the warn
      thresholds pass. */
  lemma ExactlyAtThresholdsPasses(m: PreprocessMetrics)
    requires m.numOutputFrames > 0 && m.maskAreaRatioMean <= 0.9
    requires m.validFramesRatio == 0.9 && m.maskAreaRatioMin == 0.15
    ensures Evaluate(m, DefaultThresholds).status == Pass
  {
  }

  /** A better valid-frames ratio never makes the status worse. */
  lemma ValidRatioMonotone(m: PreprocessMetrics, t: Thresholds, better: real)
    requires better >= m.validFramesRatio
    ensures Severity(Evaluate(m.(validFramesRatio := better), t).status) <= Severity(Evaluate(m, t).status)
  {
  }

  class PreprocessQualityGate {
    var reasons: seq<string>
    var suggestions: seq<string>

    constructor ()
      ensures reasons == [] && suggestions == []
    {
      reasons := [];
      suggestions := [];
    }

    /** `validate`: the lists are reset first, so the outcome depends on the
        metrics alone. */
    method Validate(m: PreprocessMetrics, t: Thresholds) returns (status: QualityStatus)
      modifies this
      ensures Verdict(status, reasons, suggestions) == Evaluate(m, t)
    {
      reasons := [];
      suggestions := [];
      var failed := CheckFailures(m, t);
      if failed {
        return Fail;
      }
      status := CheckWarnings(m, t);
    }

    /** The fail checks of `validate`, in order; the first that fires records
        its reason and suggestion and ends the validation. */
    method CheckFailures(m: PreprocessMetrics, t: Thresholds) returns (failed: bool)
      requires reasons == [] && suggestions == []
      modifies this
      ensures failed == FailsAnyCheck(m, t)
      ensures failed ==> Verdict(Fail, reasons, suggestions) == FailVerdict(m, t)
      ensures !failed ==> reasons == [] && suggestions == []
    {
      failed := true;
      if m.numOutputFrames == 0 {
        reasons := reasons + [NoOutputFrames];
        suggestions := suggestions + [NoOutputSuggestion];
        return;
      }
      if m.validFramesRatio < t.minValidFramesRatio {
        reasons := reasons + [LowValidFramesRatio];
        suggestions := suggestions + [LowValidSuggestion(m, t)];
        return;
      }
      if m.maskAreaRatioMin < t.minMaskAreaRatio {
        reasons := reasons + [MaskAreaTooSmall];
        suggestions := suggestions + [MaskTooSmallSuggestion(m)];
        return;
      }
      if m.maskAreaRatioMean > t.maxMaskAreaRatio {
        reasons := reasons + [MaskAreaTooLarge];
        suggestions := suggestions + [MaskTooLargeSuggestion(m)];
        return;
      }
      failed := false;
    }

    /** The warn checks of `validate`, reached when no fail check fires: each
        one that fires records its reason and suggestion. */
    method CheckWarnings(m: PreprocessMetrics, t: Thresholds) returns (status: QualityStatus)
      requires reasons == [] && suggestions == []
      modifies this
      ensures Verdict(status, reasons, suggestions) == WarnVerdict(m, t)
    {
      var isWarn := false;
      if m.validFramesRatio < t.warnValidFramesRatio {
        reasons := reasons + [ValidFramesRatioWarn];
        suggestions := suggestions + [ValidWarnSuggestion(m, t)];
        isWarn := true;
      }
      if m.maskAreaRatioMin < t.warnMaskAreaMin {
        reasons := reasons + [MaskAreaMinWarn];
        suggestions := suggestions + [MaskWarnSuggestion(m, t)];
        isWarn := true;
      }
      assert reasons == WarnReasons(m, t) && suggestions == WarnSuggestions(m, t);
      status := if isWarn then Warn else Pass;
    }

    /** `get_suggestions`: a copy; the caller's list is a separate value,
        so changing it leaves the gate as it was. */
    method GetSuggestions() returns (r: seq<string>)
      ensures r == suggestions
    {
      r := suggestions;
    }

    /** `get_reasons`: a copy, as for `GetSuggestions`. */
    method GetReasons() returns (r: seq<string>)
      ensures r == reasons
    {
      r := reasons;
    }
  }
}
