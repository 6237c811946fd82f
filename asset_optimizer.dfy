/** The deterministic part of `AssetOptimizer` (`scan2mesh.stages.optimize`):
    the lazily loaded configuration, moving the origin, applying a known
    scale, the bounding box and the LOD budgets. Coordinates are exact
    reals; mesh repair, simplification and rendering are not modelled. */
module AssetOptimizerStage {
  import opened Common
  import opened ProjectConfigs

  datatype Vec3 = Vec3(x: real, y: real, z: real)

  datatype Axis = X | Y | Z

  function Coord(v: Vec3, a: Axis): real
  {
    match a
    case X => v.x
    case Y => v.y
    case Z => v.z
  }

  /** A triangle is three vertex indices. */
  datatype Triangle = Triangle(a: nat, b: nat, c: nat)

  /** `LOD_LIMITS`, finest level first. */
  const LodLimits: seq<nat> := [100000, 30000, 10000]

  lemma LodLimitsDescending()
    ensures StrictlyDescending(LodLimits) && |LodLimits| == 3
  {
  }

  /** `np.min(vertices, axis=0)[a]`. */
  function MinAlong(vs: seq<Vec3>, a: Axis): real
    requires |vs| > 0
  {
    if |vs| == 1 then Coord(vs[0], a)
    else
      var rest := MinAlong(vs[..|vs| - 1], a);
      var last := Coord(vs[|vs| - 1], a);
      if last < rest then last else rest
  }

  /** `np.max(vertices, axis=0)[a]`. */
  function MaxAlong(vs: seq<Vec3>, a: Axis): real
    requires |vs| > 0
  {
    if |vs| == 1 then Coord(vs[0], a)
    else
      var rest := MaxAlong(vs[..|vs| - 1], a);
      var last := Coord(vs[|vs| - 1], a);
      if last > rest then last else rest
  }

  /** The minimum is a lower bound attained by some vertex, the maximum an
      upper bound attained by some vertex. */
  lemma {:induction false} ExtremesAttained(vs: seq<Vec3>, a: Axis)
    requires |vs| > 0
    ensures forall i :: 0 <= i < |vs| ==> MinAlong(vs, a) <= Coord(vs[i], a) <= MaxAlong(vs, a)
    ensures exists i :: 0 <= i < |vs| && MinAlong(vs, a) == Coord(vs[i], a)
    ensures exists i :: 0 <= i < |vs| && MaxAlong(vs, a) == Coord(vs[i], a)
  {
    if |vs| == 1 {
      assert MinAlong(vs, a) == Coord(vs[0], a);
    } else {
      var init := vs[..|vs| - 1];
      ExtremesAttained(init, a);
      assert forall i :: 0 <= i < |init| ==> vs[i] == init[i];
      var last := |vs| - 1;
      if Coord(vs[last], a) >= MinAlong(init, a) {
        var j :| 0 <= j < |init| && MinAlong(init, a) == Coord(init[j], a);
        assert MinAlong(vs, a) == Coord(vs[j], a);
      }
      if Coord(vs[last], a) <= MaxAlong(init, a) {
        var j :| 0 <= j < |init| && MaxAlong(init, a) == Coord(init[j], a);
        assert MaxAlong(vs, a) == Coord(vs[j], a);
      }
    }
  }

  lemma MinBelowMax(vs: seq<Vec3>, a: Axis)
    requires |vs| > 0
    ensures MinAlong(vs, a) <= MaxAlong(vs, a)
  {
    ExtremesAttained(vs, a);
    assert MinAlong(vs, a) <= Coord(vs[0], a) <= MaxAlong(vs, a);
  }

  /** The axis-aligned size along one axis. */
  function Extent(vs: seq<Vec3>, a: Axis): (e: real)
    requires |vs| > 0
    ensures e >= 0.0
  {
    MinBelowMax(vs, a);
    MaxAlong(vs, a) - MinAlong(vs, a)
  }

  /** `sum(vertices, axis=0)[a]`. */
  function SumAlong(vs: seq<Vec3>, a: Axis): real
  {
    if vs == [] then 0.0 else SumAlong(vs[..|vs| - 1], a) + Coord(vs[|vs| - 1], a)
  }

  function Shift(v: Vec3, t: Vec3): (r: Vec3)
    ensures forall a :: Coord(r, a) == Coord(v, a) - Coord(t, a)
  {
    Vec3(v.x - t.x, v.y - t.y, v.z - t.z)
  }

  function Stretch(v: Vec3, f: real): Vec3
  {
    Vec3(v.x * f, v.y * f, v.z * f)
  }

  /** `vertices - t`. */
  function Translate(vs: seq<Vec3>, t: Vec3): (r: seq<Vec3>)
    ensures |r| == |vs|
    ensures forall i :: 0 <= i < |r| ==> r[i] == Shift(vs[i], t)
  {
    seq(|vs|, i requires 0 <= i < |vs| => Shift(vs[i], t))
  }

  /** `vertices * f`. */
  function Scale(vs: seq<Vec3>, f: real): (r: seq<Vec3>)
    ensures |r| == |vs|
    ensures forall i :: 0 <= i < |r| ==> r[i] == Stretch(vs[i], f)
  {
    seq(|vs|, i requires 0 <= i < |vs| => Stretch(vs[i], f))
  }

  /** Translating moves every minimum and maximum by the translation. */
  lemma {:induction false} TranslateBounds(vs: seq<Vec3>, t: Vec3, a: Axis)
    requires |vs| > 0
    ensures MinAlong(Translate(vs, t), a) == MinAlong(vs, a) - Coord(t, a)
    ensures MaxAlong(Translate(vs, t), a) == MaxAlong(vs, a) - Coord(t, a)
  {
    if |vs| > 1 {
      var init := vs[..|vs| - 1];
      TranslateBounds(init, t, a);
      assert Translate(vs, t)[..|vs| - 1] == Translate(init, t);
    }
  }

  /** Translating moves the sum by `n` times the translation. */
  lemma {:induction false} TranslateSum(vs: seq<Vec3>, t: Vec3, a: Axis)
    ensures SumAlong(Translate(vs, t), a) == SumAlong(vs, a) - |vs| as real * Coord(t, a)
  {
    if vs != [] {
      var init := vs[..|vs| - 1];
      TranslateSum(init, t, a);
      assert Translate(vs, t)[..|vs| - 1] == Translate(init, t);
    }
  }

  /** Multiplying by a positive factor keeps the order of two reals. */
  lemma ScalePreservesOrder(u: real, v: real, f: real)
    requires f > 0.0
    ensures u < v <==> u * f < v * f
  {
    if u < v {
      assert (v - u) * f > 0.0;
    } else {
      assert (u - v) * f >= 0.0;
    }
  }

  /** A lower bound that some vertex attains is the minimum; an upper
      bound that some vertex attains is the maximum. */
  lemma ExtremesUnique(ws: seq<Vec3>, a: Axis, lo: real, hi: real, j: nat, k: nat)
    requires j < |ws| && k < |ws|
    requires forall i :: 0 <= i < |ws| ==> lo <= Coord(ws[i], a) <= hi
    requires Coord(ws[j], a) == lo && Coord(ws[k], a) == hi
    ensures MinAlong(ws, a) == lo && MaxAlong(ws, a) == hi
  {
    ExtremesAttained(ws, a);
    assert MinAlong(ws, a) <= lo && MaxAlong(ws, a) >= hi;
  }

  /** Bounds `lo <= c <= hi` on every coordinate survive scaling. */
  lemma ScaledCoordBounds(vs: seq<Vec3>, f: real, a: Axis, lo: real, hi: real)
    requires f > 0.0
    requires forall i :: 0 <= i < |vs| ==> lo <= Coord(vs[i], a) <= hi
    ensures forall i :: 0 <= i < |vs| ==> lo * f <= Coord(Scale(vs, f)[i], a) <= hi * f
  {
    var ws := Scale(vs, f);
    forall i | 0 <= i < |vs| ensures lo * f <= Coord(ws[i], a) <= hi * f {
      ScaledCoord(vs, f, a, i, Coord(vs[i], a));
      ScalePreservesOrder(Coord(vs[i], a), lo, f);
      ScalePreservesOrder(hi, Coord(vs[i], a), f);
    }
  }

  lemma ScaledCoord(vs: seq<Vec3>, f: real, a: Axis, i: nat, c: real)
    requires i < |vs| && c == Coord(vs[i], a)
    ensures Coord(Scale(vs, f)[i], a) == c * f
  {
    assert Scale(vs, f)[i] == Stretch(vs[i], f);
  }

  /** A positive factor scales the minimum `lo` and the maximum `hi`. */
  lemma ScaleBounds(vs: seq<Vec3>, f: real, a: Axis, lo: real, hi: real)
    requires |vs| > 0 && f > 0.0 && lo == MinAlong(vs, a) && hi == MaxAlong(vs, a)
    ensures MinAlong(Scale(vs, f), a) == lo * f
    ensures MaxAlong(Scale(vs, f), a) == hi * f
  {
    ExtremesAttained(vs, a);
    var j :| 0 <= j < |vs| && Coord(vs[j], a) == lo;
    var k :| 0 <= k < |vs| && Coord(vs[k], a) == hi;
    ScaledCoordBounds(vs, f, a, lo, hi);
    ScaledCoord(vs, f, a, j, lo);
    ScaledCoord(vs, f, a, k, hi);
    ExtremesUnique(Scale(vs, f), a, lo * f, hi * f, j, k);
  }

  /** The centre of the bottom face: mid-x, mid-y and the lowest z. */
  function BottomCenter(vs: seq<Vec3>): Vec3
    requires |vs| > 0
  {
    Vec3((MinAlong(vs, X) + MaxAlong(vs, X)) / 2.0, (MinAlong(vs, Y) + MaxAlong(vs, Y)) / 2.0, MinAlong(vs, Z))
  }

  /** `np.mean(vertices, axis=0)`. */
  function Centroid(vs: seq<Vec3>): Vec3
    requires |vs| > 0
  {
    var n := |vs| as real;
    Vec3(SumAlong(vs, X) / n, SumAlong(vs, Y) / n, SumAlong(vs, Z) / n)
  }

  /** The translation `normalize_axes` applies for a non-empty mesh: the
      centroid for origin "centroid", the bottom centre for "bottom_center"
      and for any other value. */
  function Normalized(vs: seq<Vec3>, origin: string): seq<Vec3>
    requires |vs| > 0
  {
    if origin == "bottom_center" then Translate(vs, BottomCenter(vs))
    else if origin == "centroid" then Translate(vs, Centroid(vs))
    else Translate(vs, BottomCenter(vs))
  }

  /** Except for "centroid", the mesh then stands on z = 0 and is centred
      on the z axis. */
  lemma NormalizedBottomCenter(vs: seq<Vec3>, origin: string)
    requires |vs| > 0 && origin != "centroid"
    ensures MinAlong(Normalized(vs, origin), Z) == 0.0
    ensures MinAlong(Normalized(vs, origin), X) == -MaxAlong(Normalized(vs, origin), X)
    ensures MinAlong(Normalized(vs, origin), Y) == -MaxAlong(Normalized(vs, origin), Y)
    ensures forall a :: Extent(Normalized(vs, origin), a) == Extent(vs, a)
  {
    var t := BottomCenter(vs);
    var ns := Normalized(vs, origin);
    assert ns == Translate(vs, t);
    TranslateBounds(vs, t, X);
    TranslateBounds(vs, t, Y);
    TranslateBounds(vs, t, Z);
    forall a ensures Extent(ns, a) == Extent(vs, a) {
      TranslateBounds(vs, t, a);
    }
  }

  /** With origin "centroid" the vertex mean moves to the origin. */
  lemma NormalizedCentroid(vs: seq<Vec3>)
    requires |vs| > 0
    ensures Centroid(Normalized(vs, "centroid")) == Vec3(0.0, 0.0, 0.0)
  {
    var t := Centroid(vs);
    var n := |vs| as real;
    TranslateSum(vs, t, X);
    TranslateSum(vs, t, Y);
    TranslateSum(vs, t, Z);
    assert n * (SumAlong(vs, X) / n) == SumAlong(vs, X);
    assert n * (SumAlong(vs, Y) / n) == SumAlong(vs, Y);
    assert n * (SumAlong(vs, Z) / n) == SumAlong(vs, Z);
  }

  /** The dimension a known size refers to: the larger of x and y for
      "diameter" (and for an absent or unknown type), x for "width", z for
      "height", y for "length" and "depth". */
  function SelectedDimension(vs: seq<Vec3>, dimensionType: Option<string>): (d: real)
    requires |vs| > 0
    ensures d >= 0.0
  {
    Select(Extent(vs, X), Extent(vs, Y), Extent(vs, Z), dimensionType)
  }

  /** The choice among the three extents that `SelectedDimension` makes. */
  function Select(dx: real, dy: real, dz: real, dimensionType: Option<string>): (d: real)
    ensures d == dx || d == dy || d == dz
    ensures dimensionType == Some("width") ==> d == dx
    ensures dimensionType == Some("height") ==> d == dz
    ensures dimensionType == Some("length") || dimensionType == Some("depth") ==> d == dy
    ensures (dimensionType.None? || dimensionType.value !in ["width", "height", "length", "depth"]) ==>
              d == (if dx > dy then dx else dy)
  {
    var dimType := if dimensionType.None? || dimensionType.value == "" then "diameter" else dimensionType.value;
    if dimType == "diameter" then (if dx > dy then dx else dy)
    else if dimType == "width" then dx
    else if dimType == "height" then dz
    else if dimType == "length" || dimType == "depth" then dy
    else if dx > dy then dx else dy
  }

  /** Python truthiness of `known_dimension_mm`: present and not zero. */
  predicate HasKnownDimension(info: ScaleInfo)
  {
    info.knownDimensionMm.Some? && info.knownDimensionMm.value != 0.0
  }

  /** `apply_scale` once the scale information is known: the vertices and
      the scale uncertainty. */
  function Scaled(vs: seq<Vec3>, scaleInfo: Option<ScaleInfo>): (r: (seq<Vec3>, string))
    ensures vs == [] || scaleInfo.None? ==> r == (vs, "high")
    ensures r.0 != vs ==> r.1 == "low" && scaleInfo.Some? && scaleInfo.value.scaleMethod == "known_dimension"
    ensures |vs| > 0 && scaleInfo.Some? && scaleInfo.value.scaleMethod == "realsense_depth_scale" ==> r == (vs, "medium")
    ensures (|vs| > 0 && scaleInfo.Some? && scaleInfo.value.scaleMethod == "known_dimension" &&
             HasKnownDimension(scaleInfo.value) && SelectedDimension(vs, scaleInfo.value.dimensionType) == 0.0) ==>
              r == (vs, "high")
    ensures (|vs| > 0 && scaleInfo.Some? &&
             !(scaleInfo.value.scaleMethod == "known_dimension" && HasKnownDimension(scaleInfo.value)) &&
             scaleInfo.value.scaleMethod != "realsense_depth_scale") ==>
              r == (vs, scaleInfo.value.uncertainty)
  {
    if |vs| == 0 || scaleInfo.None? then (vs, "high")
    else
      var info := scaleInfo.value;
      if info.scaleMethod == "known_dimension" && HasKnownDimension(info) then
        var current := SelectedDimension(vs, info.dimensionType);
        var target := info.knownDimensionMm.value / 1000.0;
        if current > 0.0 then (Scale(vs, target / current), "low")
        else (vs, "high")
      else if info.scaleMethod == "realsense_depth_scale" then (vs, "medium")
      else (vs, info.uncertainty)
  }

  /** A positive factor scales the extent `e` along every axis. */
  lemma ScaleExtent(vs: seq<Vec3>, f: real, a: Axis, e: real)
    requires |vs| > 0 && f > 0.0 && e == Extent(vs, a)
    ensures Extent(Scale(vs, f), a) == e * f
  {
    var lo, hi := MinAlong(vs, a), MaxAlong(vs, a);
    ScaleBounds(vs, f, a, lo, hi);
    var ws := Scale(vs, f);
    ScaledDifference(Extent(ws, a), MaxAlong(ws, a), MinAlong(ws, a), hi, lo, f, e);
  }

  /** The arithmetic step of `ScaleExtent`, kept apart from the vertices. */
  lemma ScaledDifference(d: real, mx: real, mn: real, hi: real, lo: real, f: real, e: real)
    requires d == mx - mn && mx == hi * f && mn == lo * f && e == hi - lo
    ensures d == e * f
  {
  }

  /** Scaling all three extents by a positive factor scales the choice. */
  lemma ScaledSelect(sx: real, sy: real, sz: real, dx: real, dy: real, dz: real, f: real,
                     dimensionType: Option<string>, d: real)
    requires f > 0.0 && sx == dx * f && sy == dy * f && sz == dz * f
    requires d == Select(dx, dy, dz, dimensionType)
    ensures Select(sx, sy, sz, dimensionType) == d * f
  {
    ScalePreservesOrder(dy, dx, f);
  }

  /** A positive factor scales the selected dimension `d`. */
  lemma ScaleSelectedDimension(vs: seq<Vec3>, f: real, dimensionType: Option<string>, d: real)
    requires |vs| > 0 && f > 0.0 && d == SelectedDimension(vs, dimensionType)
    ensures SelectedDimension(Scale(vs, f), dimensionType) == d * f
  {
    var ws := Scale(vs, f);
    var dx, dy, dz := Extent(vs, X), Extent(vs, Y), Extent(vs, Z);
    ScaleExtent(vs, f, X, dx);
    ScaleExtent(vs, f, Y, dy);
    ScaleExtent(vs, f, Z, dz);
    ScaledSelect(Extent(ws, X), Extent(ws, Y), Extent(ws, Z), dx, dy, dz, f, dimensionType, d);
  }

  /** Multiplying by `t / c` turns `c` into `t`. */
  lemma RatioCancels(x: real, c: real, t: real)
    requires c != 0.0 && x == c * (t / c)
    ensures x == t
  {
  }

  /** On the known-dimension path with a positive known size, the scaled
      mesh measures exactly the known size, in metres, along the selected
      dimension. */
  lemma KnownDimensionIsMet(vs: seq<Vec3>, info: ScaleInfo)
    requires |vs| > 0 && info.scaleMethod == "known_dimension" && HasKnownDimension(info)
    requires info.knownDimensionMm.value > 0.0 && SelectedDimension(vs, info.dimensionType) > 0.0
    ensures Scaled(vs, Some(info)).1 == "low"
    ensures SelectedDimension(Scaled(vs, Some(info)).0, info.dimensionType) == info.knownDimensionMm.value / 1000.0
  {
    var current := SelectedDimension(vs, info.dimensionType);
    var target := info.knownDimensionMm.value / 1000.0;
    ScaleSelectedDimension(vs, target / current, info.dimensionType, current);
    RatioCancels(SelectedDimension(Scale(vs, target / current), info.dimensionType), current, target);
  }

  /** `_calculate_bounding_box`: zeros for no vertices, otherwise the
      axis-aligned size, also used as the oriented one. */
  function BoundingBox(vs: seq<Vec3>): (r: (Vec3, Vec3))
    ensures r.1 == r.0
    ensures vs == [] ==> r.0 == Vec3(0.0, 0.0, 0.0)
    ensures vs != [] ==> r.0 == Vec3(Extent(vs, X), Extent(vs, Y), Extent(vs, Z))
    ensures r.0.x >= 0.0 && r.0.y >= 0.0 && r.0.z >= 0.0
  {
    if vs == [] then (Vec3(0.0, 0.0, 0.0), Vec3(0.0, 0.0, 0.0))
    else
      var aabb := Vec3(MaxAlong(vs, X) - MinAlong(vs, X), MaxAlong(vs, Y) - MinAlong(vs, Y),
                       MaxAlong(vs, Z) - MinAlong(vs, Z));
      (aabb, aabb)
  }

  /** Moving the origin leaves the bounding box unchanged. */
  lemma BoundingBoxTranslationInvariant(vs: seq<Vec3>, t: Vec3)
    ensures BoundingBox(Translate(vs, t)) == BoundingBox(vs)
  {
    if vs != [] {
      TranslateBounds(vs, t, X);
      TranslateBounds(vs, t, Y);
      TranslateBounds(vs, t, Z);
    }
  }

  /** `generate_lod` when no simplification is needed: a mesh within the
      budget comes back unchanged; over the budget the mesh library
      decides, which is not modelled (None). */
  function LodWithinBudget(vs: seq<Vec3>, tris: seq<Triangle>, targetTriangles: int)
    : (r: Option<(seq<Vec3>, seq<Triangle>)>)
    ensures r.Some? <==> |tris| <= targetTriangles
    ensures r.Some? ==> r.value == (vs, tris)
  {
    if |tris| <= targetTriangles then Some((vs, tris)) else None
  }

  /** The optimizer's configuration state: `_config`, `_output_preset` and
      `_scale_info` start unset and are filled together, on first use, from
      the stored project configuration (`stored`, an error when it cannot
      be loaded). */
  class AssetOptimizer {
    var config: Option<ProjectConfig>
    var outputPreset: Option<OutputPreset>
    var scaleInfo: Option<ScaleInfo>
    const stored: Result<ProjectConfig>

    /** Either nothing is loaded, or all three fields come from `stored`. */
    predicate Valid()
      reads this
    {
      (config.None? ==> outputPreset.None? && scaleInfo.None?)
      && (config.Some? ==> stored.Ok? && config.value == stored.value
                           && outputPreset == Some(stored.value.outputPreset)
                           && scaleInfo == stored.value.scaleInfo)
    }

    constructor (stored: Result<ProjectConfig>)
      ensures Valid() && this.stored == stored
      ensures config.None? && outputPreset.None? && scaleInfo.None?
    {
      this.stored := stored;
      config, outputPreset, scaleInfo := None, None, None;
    }

    /** `_load_config`: a load failure becomes a pipeline error and leaves
        the fields as they were. */
    method LoadConfig() returns (r: Result<ProjectConfig>)
      requires Valid()
      modifies this
      ensures Valid()
      ensures r.Ok? <==> stored.Ok?
      ensures stored.Ok? ==> r == stored && config == Some(stored.value)
      ensures stored.Err? ==> r.error == "Failed to load project configuration: " + stored.error
      ensures stored.Err? ==> config == old(config) && outputPreset == old(outputPreset) && scaleInfo == old(scaleInfo)
    {
      if stored.Err? {
        return Err("Failed to load project configuration: " + stored.error);
      }
      config := Some(stored.value);
      outputPreset := Some(stored.value.outputPreset);
      scaleInfo := stored.value.scaleInfo;
      return Ok(stored.value);
    }

    /** The `output_preset` property. */
    method GetOutputPreset() returns (r: Result<OutputPreset>)
      requires Valid()
      modifies this
      ensures Valid()
      ensures r.Ok? <==> stored.Ok?
      ensures r.Ok? ==> r.value == stored.value.outputPreset && config == Some(stored.value)
      ensures old(config).Some? ==> config == old(config)
    {
      if outputPreset.None? {
        var loaded := LoadConfig();
        if loaded.Err? {
          return Err(loaded.error);
        }
      }
      return Ok(outputPreset.value);
    }

    /** The `scale_info` property; a loaded configuration may have none. */
    method GetScaleInfo() returns (r: Result<Option<ScaleInfo>>)
      requires Valid()
      modifies this
      ensures Valid()
      ensures r.Ok? <==> stored.Ok?
      ensures r.Ok? ==> r.value == stored.value.scaleInfo && config == Some(stored.value)
      ensures old(config).Some? ==> config == old(config)
    {
      if config.None? {
        var loaded := LoadConfig();
        if loaded.Err? {
          return Err(loaded.error);
        }
      }
      return Ok(scaleInfo);
    }

    /** `normalize_axes`: an empty mesh comes back before the configuration
        is read; otherwise the origin named by the output preset. */
    method NormalizeAxes(vertices: seq<Vec3>) returns (r: Result<seq<Vec3>>)
      requires Valid()
      modifies this
      ensures Valid()
      ensures vertices == [] ==> r == Ok(vertices) && config == old(config)
      ensures vertices != [] ==> (r.Ok? <==> stored.Ok?)
      ensures vertices != [] && r.Ok? ==>
                r.value == Normalized(vertices, stored.value.outputPreset.coordinateSystem.origin)
    {
      if |vertices| == 0 {
        return Ok(vertices);
      }
      var preset := GetOutputPreset();
      if preset.Err? {
        return Err(preset.error);
      }
      return Ok(Normalized(vertices, preset.value.coordinateSystem.origin));
    }

    /** `apply_scale`: an empty mesh comes back as "high" before the
        configuration is read; otherwise as `Scaled` says for the stored
        scale information. */
    method ApplyScale(vertices: seq<Vec3>) returns (r: Result<(seq<Vec3>, string)>)
      requires Valid()
      modifies this
      ensures Valid()
      ensures vertices == [] ==> r == Ok((vertices, "high")) && config == old(config)
      ensures vertices != [] ==> (r.Ok? <==> stored.Ok?)
      ensures vertices != [] && r.Ok? ==> r.value == Scaled(vertices, stored.value.scaleInfo)
    {
      if |vertices| == 0 {
        return Ok((vertices, "high"));
      }
      var info := GetScaleInfo();
      if info.Err? {
        return Err(info.error);
      }
      return Ok(Scaled(vertices, info.value));
    }
  }
}
