/** `CapturePlanService` (`scan2mesh_gui.services.capture_plan_service`):
    the preset table, the spherical grid of viewpoints, the notes, the
    elevation angles shown for a preset and the path check before saving.
    Angles are exact: Python's float division by the number of positions
    is not modelled. */
module CapturePlanService {
  import opened Common
  import opened Format
  import opened Timestamps
  import CaptureModels
  import opened CapturePlans

  /** `PRESET_CONFIGS`: azimuth positions, elevation levels, minimum frames. */
  function PresetConfig(preset: CapturePlanPreset): (c: (nat, nat, nat))
    ensures c.0 == 6 && c.2 >= 1
  {
    match preset
    case Quick => (6, 3, 10)
    case Standard => (6, 6, 20)
    case HighQuality => (6, 12, 40)
  }

  /** `PRESET_TIME_ESTIMATES`. */
  function TimeEstimate(preset: CapturePlanPreset): string
  {
    match preset
    case Quick => "1-2 minutes"
    case Standard => "3-5 minutes"
    case HighQuality => "6-10 minutes"
  }

  datatype PresetInfo = PresetInfo(keyframes: nat, azimuthPositions: nat, elevationLevels: nat,
                                   minFrames: nat, timeEstimate: string)

  /** `get_preset_info`: one keyframe per grid point; richer presets have
      more keyframes and need more frames. */
  function GetPresetInfo(preset: CapturePlanPreset): (info: PresetInfo)
    ensures info.keyframes == info.azimuthPositions * info.elevationLevels
    ensures (info.azimuthPositions, info.elevationLevels, info.minFrames) == PresetConfig(preset)
    ensures preset == Quick ==> info.keyframes == 18
    ensures preset == Standard ==> info.keyframes == 36
    ensures preset == HighQuality ==> info.keyframes == 72
  {
    var (az, el, minFrames) := PresetConfig(preset);
    PresetInfo(az * el, az, el, minFrames, TimeEstimate(preset))
  }

  /** Python's `x % 360` on a float: the remainder has the sign of the
      modulus. */
  function FloatMod360(x: real): (r: real)
    ensures 0.0 <= r < 360.0
    ensures 0.0 <= x < 360.0 ==> r == x
  {
    var q := (x / 360.0).Floor;
    x - q as real * 360.0
  }

  /** The unrounded azimuth of position `a` on level `e`: `360 / n` apart,
      shifted by half a step on odd levels. */
  function RawAzimuth(n: nat, e: nat, a: nat): real
    requires n > 0
  {
    var step := 360.0 / n as real;
    var offset := if e % 2 == 1 then step / 2.0 else 0.0;
    FloatMod360(a as real * step + offset)
  }

  /** The unrounded elevation of level `e`: 0 to 150 degrees in equal
      steps, less 90; a single level stays at -90. */
  function RawElevation(levels: nat, e: nat): real
  {
    var step := if levels > 1 then 150.0 / (levels - 1) as real else 0.0;
    e as real * step - 90.0
  }

  /** The `k`-th viewpoint of the grid, row by row, before validation. */
  function AzimuthAt(n: nat, k: nat): real
    requires n > 0
  {
    RoundTo(RawAzimuth(n, k / n, k % n), 1)
  }

  function ElevationAt(n: nat, levels: nat, k: nat): real
    requires n > 0
  {
    RoundTo(RawElevation(levels, k / n), 1)
  }

  /** The `k`-th viewpoint passes the `ViewPoint` field checks. */
  predicate PointValid(n: nat, levels: nat, distance: real, k: nat)
    requires n > 0
  {
    CaptureModels.NewViewPoint(k, AzimuthAt(n, k), ElevationAt(n, levels, k), distance, k).Accepted?
  }

  /** The running index `e * n + a` is position `a` of level `e`. */
  lemma DivModRow(n: nat, e: nat, a: nat)
    requires a < n
    ensures (e * n + a) / n == e && (e * n + a) % n == a
  {
    var k := e * n + a;
    var q, r := k / n, k % n;
    assert k == q * n + r;
    assert (q - e) * n == a - r;
    assert q - e <= 0 by { MulAtLeast(q - e, n); }
    assert e - q <= 0 by { MulAtLeast(e - q, n); }
  }

  /** Level `e` ends no later than the grid. */
  lemma RowIndexBelow(n: nat, e: nat, levels: nat)
    requires e < levels
    ensures e * n + n <= n * levels
  {
    assert (levels - e) * n >= n by { MulAtLeast(levels - e, n); }
    assert (levels - e) * n == n * levels - e * n;
  }

  lemma MulAtLeast(d: int, n: int)
    requires n >= 0
    ensures d >= 1 ==> d * n >= n
  {
  }

  /** `vps` holds the first `|vps|` viewpoints of the grid, each with its
      running index as `index` and `order`, the given distance and the
      grid's angles; all of them passed the field checks. */
  predicate GridPrefix(vps: seq<ViewPoint>, n: nat, levels: nat, distance: real)
    requires n > 0
  {
    forall k :: 0 <= k < |vps| ==>
      PointValid(n, levels, distance, k)
      && vps[k].index == k && vps[k].order == k && vps[k].distanceM == distance
      && vps[k].azimuthDeg == AzimuthAt(n, k) && vps[k].elevationDeg == ElevationAt(n, levels, k)
  }

  /** Position `a` of level `e`, once it passes its checks, extends the
      prefix. */
  lemma GridPrefixAppend(vps: seq<ViewPoint>, n: nat, levels: nat, distance: real, e: nat, a: nat)
    requires a < n && |vps| == e * n + a && GridPrefix(vps, n, levels, distance)
    requires CaptureModels.NewViewPoint(|vps|, RoundTo(RawAzimuth(n, e, a), 1), RoundTo(RawElevation(levels, e), 1),
                                        distance, |vps|).Accepted?
    ensures GridPrefix(vps + [CaptureModels.NewViewPoint(|vps|, RoundTo(RawAzimuth(n, e, a), 1),
                                                         RoundTo(RawElevation(levels, e), 1), distance, |vps|).value],
                       n, levels, distance)
  {
    DivModRow(n, e, a);
  }

  /** `_generate_viewpoints`: level by level, position by position, with a
      running index used as both `index` and `order`. A zero azimuth
      count fails on the step's division; the first viewpoint that fails
      its field checks fails the call. */
  method GenerateViewpoints(azimuthPositions: nat, elevationLevels: nat, distance: real)
    returns (r: Result<seq<ViewPoint>>)
    ensures azimuthPositions == 0 ==> r.Err?
    ensures r.Ok? <==> azimuthPositions > 0
                       && forall k :: 0 <= k < azimuthPositions * elevationLevels
                                      ==> PointValid(azimuthPositions, elevationLevels, distance, k)
    ensures r.Ok? ==> |r.value| == azimuthPositions * elevationLevels
                      && GridPrefix(r.value, azimuthPositions, elevationLevels, distance)
  {
    if azimuthPositions == 0 {
      return Err("division by zero");
    }
    var n := azimuthPositions;
    var viewpoints: seq<ViewPoint> := [];
    var e := 0;
    while e < elevationLevels
      invariant 0 <= e <= elevationLevels
      invariant |viewpoints| == e * n
      invariant GridPrefix(viewpoints, n, elevationLevels, distance)
    {
      var level := AddLevel(n, elevationLevels, distance, e, viewpoints);
      if level.Err? {
        RowIndexBelow(n, e, elevationLevels);
        return Err(level.error);
      }
      viewpoints := level.value;
      e := e + 1;
    }
    assert e * n == n * elevationLevels;
    return Ok(viewpoints);
  }

  /** The inner loop of `_generate_viewpoints`: the `n` positions of level
      `e`, appended after the levels before it. */
  method AddLevel(n: nat, levels: nat, distance: real, e: nat, viewpoints: seq<ViewPoint>)
    returns (r: Result<seq<ViewPoint>>)
    requires n > 0 && |viewpoints| == e * n && GridPrefix(viewpoints, n, levels, distance)
    ensures r.Ok? ==> |r.value| == (e + 1) * n && GridPrefix(r.value, n, levels, distance)
    ensures r.Err? ==> exists k :: e * n <= k < e * n + n && !PointValid(n, levels, distance, k)
  {
    var vps := viewpoints;
    var index := |vps|;
    var a := 0;
    while a < n
      invariant 0 <= a <= n
      invariant index == |vps| == e * n + a
      invariant GridPrefix(vps, n, levels, distance)
    {
      var azimuth := RoundTo(RawAzimuth(n, e, a), 1);
      var elevation := RoundTo(RawElevation(levels, e), 1);
      var v := CaptureModels.NewViewPoint(index, azimuth, elevation, distance, index);
      if v.Rejected? {
        DivModRow(n, e, a);
        assert !PointValid(n, levels, distance, index);
        return Err("ViewPoint validation error");
      }
      GridPrefixAppend(vps, n, levels, distance, e, a);
      vps := vps + [v.value];
      index := index + 1;
      a := a + 1;
    }
    assert e * n + n == (e + 1) * n;
    return Ok(vps);
  }

  /** Rounding to tenths stays within the tenths that bound `x`. */
  lemma RoundTenthsWithin(x: real, lo: int, hi: int)
    requires lo as real - 0.5 < x * 10.0 < hi as real + 0.5
    ensures lo as real / 10.0 <= RoundTo(x, 1) <= hi as real / 10.0
  {
    assert Pow10(1) == 10;
    var units := RoundHalfEven(x * 10.0);
    assert lo <= units <= hi;
  }

  /** Positions are `360 / n` apart and the last one is at most half a
      step short of 360, which is more than 0.05 degrees for fewer than
      3600 positions. */
  lemma AzimuthStepBound(n: nat, a: nat, offset: real)
    requires 0 < n < 3600 && a < n
    requires 0.0 <= offset <= 180.0 / n as real
    ensures 0.0 <= a as real * (360.0 / n as real) + offset < 359.95
  {
    var step := 360.0 / n as real;
    assert step * n as real == 360.0;
    assert a as real * step <= (n - 1) as real * step;
    assert step / 2.0 > 0.05 by {
      assert step * 3600.0 > step * n as real;
    }
  }

  /** Every grid azimuth lies within the `ViewPoint` bounds as long as
      there are fewer than 3600 positions; with more, half a step is at
      most 0.05 degrees and the last odd-level azimuth rounds up to 360. */
  lemma AzimuthInRange(n: nat, e: nat, a: nat)
    requires 0 < n < 3600 && a < n
    ensures 0.0 <= RoundTo(RawAzimuth(n, e, a), 1) < 360.0
  {
    var step := 360.0 / n as real;
    var offset := if e % 2 == 1 then step / 2.0 else 0.0;
    AzimuthStepBound(n, a, offset);
    RoundTenthsWithin(RawAzimuth(n, e, a), 0, 3599);
  }

  /** Every grid elevation lies in [-90, 60]. */
  lemma ElevationInRange(levels: nat, e: nat)
    requires e < levels
    ensures -90.0 <= RoundTo(RawElevation(levels, e), 1) <= 60.0
  {
    var step := if levels > 1 then 150.0 / (levels - 1) as real else 0.0;
    assert 0.0 <= e as real * step <= 150.0 by {
      if levels > 1 {
        assert step * (levels - 1) as real == 150.0;
        assert e as real * step <= (levels - 1) as real * step;
      }
    }
    RoundTenthsWithin(RawElevation(levels, e), -900, 600);
  }

  /** With fewer than 3600 azimuth positions the grid fails only for a
      distance that is not positive (and then only when it is not empty). */
  lemma GridValid(n: nat, levels: nat, distance: real)
    requires 0 < n < 3600
    ensures (forall k :: 0 <= k < n * levels ==> PointValid(n, levels, distance, k))
            <==> distance > 0.0 || n * levels == 0
  {
    forall k | 0 <= k < n * levels && distance > 0.0
      ensures PointValid(n, levels, distance, k)
    {
      PointValidAt(n, levels, distance, k);
    }
    if n * levels > 0 && distance <= 0.0 {
      assert !PointValid(n, levels, distance, 0);
    }
  }

  lemma PointValidAt(n: nat, levels: nat, distance: real, k: nat)
    requires 0 < n < 3600 && k < n * levels && distance > 0.0
    ensures PointValid(n, levels, distance, k)
  {
    LevelBelow(n, levels, k);
    AzimuthInRange(n, k / n, k % n);
    ElevationInRange(levels, k / n);
  }

  /** An index inside the grid lies on one of its levels. */
  lemma LevelBelow(n: nat, levels: nat, k: nat)
    requires 0 < n && k < n * levels
    ensures k / n < levels
  {
    var e := k / n;
    assert k == e * n + k % n;
    MulAtLeast(e - levels + 1, n);
    assert (e - levels + 1) * n == e * n - n * levels + n;
  }

  /** `_generate_notes`: three general tips, then one note for the quick and
      standard presets and two for the high-quality one. */
  method GenerateNotes(preset: CapturePlanPreset) returns (notes: seq<string>)
    ensures |notes| == if preset == HighQuality then 5 else 4
    ensures notes[..3] == GeneralNotes
    ensures notes[3..] == PresetNotes(preset)
  {
    notes := GeneralNotes;
    if preset == Quick {
      notes := notes + ["Quick preset - suitable for simple objects"];
    } else if preset == Standard {
      notes := notes + ["Standard preset - balanced coverage for most objects"];
    } else if preset == HighQuality {
      notes := notes + ["High quality preset - detailed coverage for complex objects"];
      notes := notes + ["Consider using a turntable for consistent rotation"];
    }
  }

  const GeneralNotes: seq<string> := [
    "Keep the object centered in frame",
    "Move the camera slowly and steadily",
    "Ensure consistent lighting"]

  /** The notes a preset adds after the general tips. */
  function PresetNotes(preset: CapturePlanPreset): seq<string>
  {
    match preset
    case Quick => ["Quick preset - suitable for simple objects"]
    case Standard => ["Standard preset - balanced coverage for most objects"]
    case HighQuality => ["High quality preset - detailed coverage for complex objects",
                         "Consider using a turntable for consistent rotation"]
  }

  /** `generate_plan`: the preset's grid at the given distance (exactly the
      viewpoints `GenerateViewpoints` builds), its minimum frame count and
      its notes. Every preset's grid is valid, so the call
      fails exactly when the distance is not positive. */
  method GeneratePlan(preset: CapturePlanPreset, distance: real, now: DateTime) returns (r: Result<CapturePlan>)
    ensures r.Ok? <==> distance > 0.0
    ensures r.Ok? ==> r.value.preset == preset && r.value.recommendedDistanceM == distance
                      && |r.value.viewpoints| == GetPresetInfo(preset).keyframes
                      && r.value.minRequiredFrames == PresetConfig(preset).2
                      && r.value.notes == GeneralNotes + PresetNotes(preset)
                      && r.value.createdAt == now
    ensures r.Ok? ==> PresetConfig(preset).0 > 0
                      && GridPrefix(r.value.viewpoints, PresetConfig(preset).0, PresetConfig(preset).1, distance)
  {
    var (az, el, minFrames) := PresetConfig(preset);
    GridValid(az, el, distance);
    var viewpoints := GenerateViewpoints(az, el, distance);
    if viewpoints.Err? {
      return Err(viewpoints.error);
    }
    var notes := GenerateNotes(preset);
    assert notes == notes[..3] + notes[3..];
    var plan := NewCapturePlan(preset, viewpoints.value, minFrames, distance, notes, now);
    if plan.Rejected? {
      return Err("CapturePlan validation error");
    }
    return Ok(plan.value);
  }

  /** Level `i` of `levels` evenly spaced levels, truncated to whole
      degrees. */
  function LevelAngle(levels: nat, i: nat): int
    requires levels > 1
  {
    (i as real * (150.0 / (levels - 1) as real)).Floor
  }

  lemma LevelAngleBounds(levels: nat, i: nat)
    requires levels > 1 && i < levels
    ensures 0 <= LevelAngle(levels, i) <= 150
    ensures i == 0 ==> LevelAngle(levels, i) == 0
    ensures i == levels - 1 ==> LevelAngle(levels, i) == 150
  {
    var step := 150.0 / (levels - 1) as real;
    assert step * (levels - 1) as real == 150.0;
    assert i as real * step <= (levels - 1) as real * step;
  }

  /** Truncation keeps the angles in order; with at most 151 levels the
      steps are at least one degree apart, so no two levels share an
      angle. */
  lemma LevelAngleIncreasing(levels: nat, i: nat, j: nat)
    requires levels > 1 && i < j < levels
    ensures LevelAngle(levels, i) <= LevelAngle(levels, j)
    ensures levels <= 151 ==> LevelAngle(levels, i) < LevelAngle(levels, j)
  {
    var step := 150.0 / (levels - 1) as real;
    assert step > 0.0;
    assert j as real * step >= i as real * step + (j - i) as real * step;
    assert (j - i) as real * step >= step;
    assert levels <= 151 ==> step >= 1.0 by {
      assert step * (levels - 1) as real == 150.0;
      if levels <= 151 {
        UnitStep(step, (levels - 1) as real);
      }
    }
  }

  lemma UnitStep(step: real, count: real)
    requires 0.0 < count <= 150.0 && step * count == 150.0
    ensures step >= 1.0
  {
    assert step * count >= count || step >= 1.0;
  }

  /** The elevation angles of `levels` evenly spaced levels; a single level
      is shown at 75. */
  function ElevationAngles(levels: nat): (angles: seq<int>)
    ensures levels == 1 ==> angles == [75]
    ensures levels != 1 ==> |angles| == levels
    ensures levels > 1 ==> angles[0] == 0 && angles[levels - 1] == 150
    ensures forall i :: 0 <= i < |angles| ==> 0 <= angles[i] <= 150
    ensures forall i, j :: 0 <= i < j < |angles| ==> angles[i] <= angles[j]
    ensures levels <= 151 ==> forall i, j :: 0 <= i < j < |angles| ==> angles[i] < angles[j]
  {
    if levels == 1 then [75]
    else if levels == 0 then []
    else
      var angles := seq(levels, i requires 0 <= i < levels => LevelAngle(levels, i));
      assert forall i :: 0 <= i < levels ==> 0 <= angles[i] <= 150 by {
        forall i | 0 <= i < levels ensures 0 <= angles[i] <= 150 {
          LevelAngleBounds(levels, i);
        }
      }
      LevelAngleBounds(levels, 0);
      LevelAngleBounds(levels, levels - 1);
      assert forall i, j :: 0 <= i < j < levels ==>
               angles[i] <= angles[j] && (levels <= 151 ==> angles[i] < angles[j]) by {
        forall i, j | 0 <= i < j < levels
          ensures angles[i] <= angles[j] && (levels <= 151 ==> angles[i] < angles[j]) {
          LevelAngleIncreasing(levels, i, j);
        }
      }
      angles
  }

  /** `get_elevation_angles`. */
  function GetElevationAngles(preset: CapturePlanPreset): (angles: seq<int>)
    ensures |angles| == PresetConfig(preset).1
    ensures angles[0] == 0 && angles[|angles| - 1] == 150
  {
    ElevationAngles(PresetConfig(preset).1)
  }

  /** The path check before `save_plan` writes `capture_plan.json`: any
      path holding ".." is refused, and otherwise the plan file goes
      inside it. */
  function PlanFilePath(projectPath: string): (r: Result<string>)
    ensures r.Err? <==> Contains(projectPath, "..")
    ensures r.Ok? ==> r.value == JoinPath(projectPath, "capture_plan.json")
  {
    if Contains(projectPath, "..") then Err("Invalid project path")
    else Ok(JoinPath(projectPath, "capture_plan.json"))
  }
}
