/** `ImageService` (`scan2mesh.services.image`): the counting reductions
    over a depth image and the input checks of the blur score. A depth
    image is a list of rows of millimetre values; numpy's row-major order
    is the order of `Flatten`. The Laplacian filter itself is not
    modelled: its variance is a parameter. */
module ImageService {
  import opened Common
  import opened Stats
  import Format

  /** `BLUR_LAPLACIAN_LOW` and `BLUR_LAPLACIAN_HIGH`. */
  const BlurLaplacianLow: real := 100.0
  const BlurLaplacianHigh: real := 500.0

  /** `np.clip(x, 0.0, 1.0)`. */
  function Clip01(x: real): (r: real)
    ensures 0.0 <= r <= 1.0
    ensures 0.0 <= x <= 1.0 ==> r == x
    ensures x < 0.0 ==> r == 0.0
    ensures x > 1.0 ==> r == 1.0
  {
    if x < 0.0 then 0.0 else if x > 1.0 then 1.0 else x
  }

  /** `a.size` for an array of the given shape. */
  function Size(shape: seq<nat>): nat
  {
    if shape == [] then 1 else Size(shape[..|shape| - 1]) * shape[|shape| - 1]
  }

  /** Python's `repr` of a shape tuple: "(480, 640, 3)", with a trailing
      comma for one element, "(4,)", and "()" for none. */
  function ShapeRepr(shape: seq<nat>): (r: string)
    ensures |r| >= 2 && r[0] == '(' && r[|r| - 1] == ')'
    ensures |shape| == 1 ==> r == "(" + Format.NatToString(shape[0]) + ",)"
  {
    if |shape| == 1 then "(" + Format.NatToString(shape[0]) + ",)"
    else "(" + ShapeItems(shape) + ")"
  }

  /** The elements of a shape separated by ", ". */
  function ShapeItems(shape: seq<nat>): (r: string)
    ensures |shape| > 0 ==> EndsWith(r, Format.NatToString(shape[|shape| - 1]))
  {
    if shape == [] then ""
    else if |shape| == 1 then Format.NatToString(shape[0])
    else ShapeItems(shape[..|shape| - 1]) + ", " + Format.NatToString(shape[|shape| - 1])
  }

  /** `calculate_blur_score` for an array of the given shape whose
      Laplacian has the given variance: an empty array, then any shape
      other than (H, W, 3), is refused; otherwise the variance is mapped
      linearly from [100, 500] onto [0, 1] and clipped. */
  function CalculateBlurScore(shape: seq<nat>, laplacianVariance: real): (r: Result<real>)
    ensures r.Err? <==> Size(shape) == 0 || |shape| != 3 || shape[2] != 3
    ensures r.Err? ==> (r.error == "Image is empty" <==> Size(shape) == 0)
    ensures r.Err? && Size(shape) != 0 ==>
              r.error == "Expected RGB image with shape (H, W, 3), got " + ShapeRepr(shape)
    ensures r.Ok? ==> 0.0 <= r.value <= 1.0
    ensures r.Ok? ==> (r.value == 0.0 <==> laplacianVariance <= BlurLaplacianLow)
    ensures r.Ok? ==> (r.value == 1.0 <==> laplacianVariance >= BlurLaplacianHigh)
  {
    if Size(shape) == 0 then Err("Image is empty")
    else if |shape| != 3 || shape[2] != 3 then Err("Expected RGB image with shape (H, W, 3), got " + ShapeRepr(shape))
    else Ok(Clip01((laplacianVariance - BlurLaplacianLow) / (BlurLaplacianHigh - BlurLaplacianLow)))
  }

  /** The pixels of an image in row-major order; `np.count_nonzero` of a
      depth image counts its positive pixels. */
  function Flatten(img: seq<seq<int>>): (flat: seq<int>)
    ensures |flat| == PixelCount(img)
    ensures CountPositive(flat) == PositiveCount(img)
  {
    if img == [] then []
    else
      CountPositiveConcat(Flatten(img[..|img| - 1]), img[|img| - 1]);
      Flatten(img[..|img| - 1]) + img[|img| - 1]
  }

  lemma {:induction false} CountPositiveConcat(a: seq<int>, b: seq<int>)
    ensures CountPositive(a + b) == CountPositive(a) + CountPositive(b)
    decreases |b|
  {
    if b != [] {
      var b' := b[..|b| - 1];
      assert (a + b)[..|a + b| - 1] == a + b';
      CountPositiveConcat(a, b');
    } else {
      assert a + b == a;
    }
  }

  /** `calculate_depth_valid_ratio`: the share of nonzero pixels; an empty
      image is refused. */
  function CalculateDepthValidRatio(depth: seq<seq<int>>): (r: Result<real>)
    ensures r.Err? <==> PixelCount(depth) == 0
    ensures r.Ok? ==> 0.0 <= r.value <= 1.0
    ensures r.Ok? ==> r.value == PositiveCount(depth) as real / PixelCount(depth) as real
  {
    if PixelCount(depth) == 0 then Err("Depth image is empty")
    else Ok(PositiveRatio(depth))
  }

  /** Counting the positive pixels of an all-positive image counts them
      all; of an all-zero image, none. */
  lemma {:induction false} PositiveCountExtremes(img: seq<seq<int>>)
    ensures (forall r, c :: 0 <= r < |img| && 0 <= c < |img[r]| ==> img[r][c] > 0)
            ==> PositiveCount(img) == PixelCount(img)
    ensures (forall r, c :: 0 <= r < |img| && 0 <= c < |img[r]| ==> img[r][c] == 0)
            ==> PositiveCount(img) == 0
  {
    if img != [] {
      PositiveCountExtremes(img[..|img| - 1]);
      CountPositiveExtremes(img[|img| - 1]);
    }
  }

  lemma UnitQuotient(a: nat, b: nat)
    requires a == b > 0
    ensures a as real / b as real == 1.0
  {
  }

  /** An image whose every pixel is valid has ratio 1. */
  lemma AllPixelsValid(depth: seq<seq<int>>)
    requires PixelCount(depth) > 0
    requires forall r, c :: 0 <= r < |depth| && 0 <= c < |depth[r]| ==> depth[r][c] > 0
    ensures CalculateDepthValidRatio(depth) == Ok(1.0)
  {
    PositiveCountExtremes(depth);
    UnitQuotient(PositiveCount(depth), PixelCount(depth));
  }

  /** An image without a valid pixel has ratio 0. */
  lemma NoPixelValid(depth: seq<seq<int>>)
    requires PixelCount(depth) > 0
    requires forall r, c :: 0 <= r < |depth| && 0 <= c < |depth[r]| ==> depth[r][c] == 0
    ensures CalculateDepthValidRatio(depth) == Ok(0.0)
  {
    PositiveCountExtremes(depth);
  }

  /** The number of values strictly between `lo` and `hi`. */
  function CountInRange(xs: seq<int>, lo: int, hi: int): (n: nat)
    ensures n <= |xs|
  {
    if xs == [] then 0
    else CountInRange(xs[..|xs| - 1], lo, hi) + (if lo < xs[|xs| - 1] < hi then 1 else 0)
  }

  /** With a non-negative lower bound only positive values are in range. */
  lemma {:induction false} InRangeArePositive(xs: seq<int>, lo: int, hi: int)
    requires lo >= 0
    ensures CountInRange(xs, lo, hi) <= CountPositive(xs)
  {
    if xs != [] {
      InRangeArePositive(xs[..|xs| - 1], lo, hi);
    }
  }

  /** `estimate_object_occupancy`: the share of pixels strictly between the
      two depths (200 and 1000 mm by default); an empty image is refused. */
  function EstimateObjectOccupancy(depth: seq<seq<int>>, minDepthMm: int, maxDepthMm: int): (r: Result<real>)
    ensures r.Err? <==> PixelCount(depth) == 0
    ensures r.Ok? ==> 0.0 <= r.value <= 1.0
    ensures r.Ok? ==> r.value == CountInRange(Flatten(depth), minDepthMm, maxDepthMm) as real
                                 / PixelCount(depth) as real
  {
    if PixelCount(depth) == 0 then Err("Depth image is empty")
    else
      var n := PixelCount(depth) as real;
      var inRange := CountInRange(Flatten(depth), minDepthMm, maxDepthMm) as real;
      QuotientMonotone(inRange, n, n);
      Ok(inRange / n)
  }

  /** Dividing by the same positive number keeps the order. */
  lemma QuotientMonotone(a: real, b: real, n: real)
    requires 0.0 <= a <= b && n > 0.0
    ensures 0.0 <= a / n <= b / n
  {
    assert a / n * n == a && b / n * n == b;
  }

  /** Missing depth reads as 0 mm, so with a non-negative minimum the
      occupancy never exceeds the valid ratio. */
  lemma OccupancyWithinValidRatio(depth: seq<seq<int>>, minDepthMm: int, maxDepthMm: int)
    requires PixelCount(depth) > 0 && minDepthMm >= 0
    ensures EstimateObjectOccupancy(depth, minDepthMm, maxDepthMm).value
            <= CalculateDepthValidRatio(depth).value
  {
    InRangeArePositive(Flatten(depth), minDepthMm, maxDepthMm);
    QuotientMonotone(CountInRange(Flatten(depth), minDepthMm, maxDepthMm) as real,
                     PositiveCount(depth) as real, PixelCount(depth) as real);
  }

  /** `depth[depth > 0]`: the positive pixels in order. */
  function ValidDepths(xs: seq<int>): (v: seq<int>)
    ensures |v| == CountPositive(xs)
    ensures forall i :: 0 <= i < |v| ==> v[i] > 0
    ensures forall i :: 0 <= i < |v| ==> v[i] in xs
  {
    if xs == [] then []
    else
      var rest := ValidDepths(xs[..|xs| - 1]);
      var last := xs[|xs| - 1];
      assert forall y :: y in rest ==> y in xs by {
        forall y | y in rest ensures y in xs {
          assert y in xs[..|xs| - 1];
        }
      }
      if last > 0 then rest + [last] else rest
  }

  function AsReals(xs: seq<int>): (r: seq<real>)
    ensures |r| == |xs| && forall i :: 0 <= i < |r| ==> r[i] == xs[i] as real
  {
    seq(|xs|, i requires 0 <= i < |xs| => xs[i] as real)
  }

  function MinOf(xs: seq<int>): (m: int)
    requires |xs| > 0
    ensures m in xs && forall i :: 0 <= i < |xs| ==> m <= xs[i]
  {
    if |xs| == 1 then xs[0]
    else
      var rest := MinOf(xs[..|xs| - 1]);
      assert rest in xs;
      assert forall i :: 0 <= i < |xs| - 1 ==> xs[i] == xs[..|xs| - 1][i];
      if xs[|xs| - 1] < rest then xs[|xs| - 1] else rest
  }

  function MaxOf(xs: seq<int>): (m: int)
    requires |xs| > 0
    ensures m in xs && forall i :: 0 <= i < |xs| ==> xs[i] <= m
  {
    if |xs| == 1 then xs[0]
    else
      var rest := MaxOf(xs[..|xs| - 1]);
      assert rest in xs;
      assert forall i :: 0 <= i < |xs| - 1 ==> xs[i] == xs[..|xs| - 1][i];
      if xs[|xs| - 1] > rest then xs[|xs| - 1] else rest
  }

  /** The squared deviations from `mean`, whose mean is `np.var`. */
  function SquaredDeviations(xs: seq<real>, mean: real): (r: seq<real>)
    ensures |r| == |xs| && forall i :: 0 <= i < |r| ==> r[i] >= 0.0
  {
    seq(|xs|, i requires 0 <= i < |xs| => Square(xs[i] - mean))
  }

  function Square(d: real): (r: real)
    ensures r >= 0.0
  {
    if d >= 0.0 then d * d else (-d) * (-d)
  }

  /** The five statistics `calculate_depth_statistics` reports; the
      spread is given as the variance (the square of `std_depth_mm`). */
  datatype DepthStatistics = DepthStatistics(
    validRatio: real, meanDepthMm: real, varianceDepthMm: real, minDepthMm: real, maxDepthMm: real)

  const ZeroStatistics := DepthStatistics(0.0, 0.0, 0.0, 0.0, 0.0)

  lemma {:induction false} NonNegativeSum(xs: seq<real>)
    requires forall i :: 0 <= i < |xs| ==> xs[i] >= 0.0
    ensures Sum(xs) >= 0.0
  {
    if xs != [] {
      NonNegativeSum(xs[..|xs| - 1]);
    }
  }

  /** The statistics of a non-empty list of valid depths. */
  function ValidStatistics(validRatio: real, valid: seq<int>): (s: DepthStatistics)
    requires |valid| > 0 && forall i :: 0 <= i < |valid| ==> valid[i] > 0
    ensures s.validRatio == validRatio
    ensures 0.0 < s.minDepthMm <= s.meanDepthMm <= s.maxDepthMm && s.varianceDepthMm >= 0.0
    ensures s.minDepthMm == MinOf(valid) as real && s.maxDepthMm == MaxOf(valid) as real
    ensures s.meanDepthMm == Mean(AsReals(valid))
  {
    var values := AsReals(valid);
    var lo := MinOf(valid);
    var hi := MaxOf(valid);
    MeanBounds(values, lo as real, hi as real);
    var mean := Mean(values);
    var squares := SquaredDeviations(values, mean);
    NonNegativeSum(squares);
    DepthStatistics(validRatio, mean, Sum(squares) / |squares| as real, lo as real, hi as real)
  }

  /** `calculate_depth_statistics`: all zeros for an empty image or one
      without a valid pixel; otherwise the valid ratio, and the mean,
      spread, minimum and maximum of the valid pixels only. */
  function CalculateDepthStatistics(depth: seq<seq<int>>): (s: DepthStatistics)
    ensures PositiveCount(depth) == 0 ==> s == ZeroStatistics
    ensures PositiveCount(depth) > 0 ==>
              PixelCount(depth) > 0 && s.validRatio == PositiveRatio(depth) && 0.0 < s.validRatio <= 1.0
              && s == ValidStatistics(s.validRatio, ValidDepths(Flatten(depth)))
  {
    if PixelCount(depth) == 0 then ZeroStatistics
    else
      var valid := ValidDepths(Flatten(depth));
      if |valid| == 0 then ZeroStatistics
      else
        assert PositiveRatio(depth) > 0.0;
        ValidStatistics(PositiveRatio(depth), valid)
  }
}
