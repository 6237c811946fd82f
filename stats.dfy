/** Sums, means and counts over Python lists, as the session services
    compute them with `sum(...)`, `len(...)` and generator counts. */
module Stats {

  /** `sum(xs)`, folded from the end so that appending is one step. */
  function Sum(xs: seq<real>): real
  {
    if xs == [] then 0.0 else Sum(xs[..|xs| - 1]) + xs[|xs| - 1]
  }

  /** Appending a value adds it to the sum. */
  lemma SumAppend(xs: seq<real>, x: real)
    ensures Sum(xs + [x]) == Sum(xs) + x
  {
    assert (xs + [x])[..|xs|] == xs;
  }

  /** A sum of values in [lo, hi] lies in [n·lo, n·hi]. */
  lemma {:induction false} SumBounds(xs: seq<real>, lo: real, hi: real)
    requires forall i :: 0 <= i < |xs| ==> lo <= xs[i] <= hi
    ensures |xs| as real * lo <= Sum(xs) <= |xs| as real * hi
  {
    if xs != [] {
      SumBounds(xs[..|xs| - 1], lo, hi);
    }
  }

  /** `sum(xs) / len(xs)`. */
  function Mean(xs: seq<real>): real
    requires |xs| > 0
  {
    Sum(xs) / |xs| as real
  }

  /** The mean times the count gives back the sum. */
  lemma MeanTimesCount(xs: seq<real>)
    requires |xs| > 0
    ensures Mean(xs) * |xs| as real == Sum(xs)
  {
  }

  /** The mean of values in [lo, hi] lies in [lo, hi]. */
  lemma MeanBounds(xs: seq<real>, lo: real, hi: real)
    requires |xs| > 0
    requires forall i :: 0 <= i < |xs| ==> lo <= xs[i] <= hi
    ensures lo <= Mean(xs) <= hi
  {
    SumBounds(xs, lo, hi);
    MeanTimesCount(xs);
  }

  /** `sum(1 for b in bs if b)`. */
  function CountTrue(bs: seq<bool>): (n: nat)
    ensures n <= |bs|
  {
    if bs == [] then 0 else CountTrue(bs[..|bs| - 1]) + (if bs[|bs| - 1] then 1 else 0)
  }

  /** Appending a flag counts it when it is set. */
  lemma CountTrueAppend(bs: seq<bool>, b: bool)
    ensures CountTrue(bs + [b]) == CountTrue(bs) + (if b then 1 else 0)
  {
    assert (bs + [b])[..|bs|] == bs;
  }

  /** `np.sum(a > 0)` over the pixels of an image, row by row. */
  function CountPositive(row: seq<int>): (n: nat)
    ensures n <= |row|
  {
    if row == [] then 0 else CountPositive(row[..|row| - 1]) + (if row[|row| - 1] > 0 then 1 else 0)
  }

  /** The positive entries of an all-positive row are all of it; of an
      all-zero row, none. */
  lemma {:induction false} CountPositiveExtremes(row: seq<int>)
    ensures (forall i :: 0 <= i < |row| ==> row[i] > 0) ==> CountPositive(row) == |row|
    ensures (forall i :: 0 <= i < |row| ==> row[i] <= 0) ==> CountPositive(row) == 0
  {
    if row != [] {
      CountPositiveExtremes(row[..|row| - 1]);
    }
  }

  /** Pixel count and positive count of a row-major image. */
  function PixelCount(img: seq<seq<int>>): nat
  {
    if img == [] then 0 else PixelCount(img[..|img| - 1]) + |img[|img| - 1]|
  }

  function PositiveCount(img: seq<seq<int>>): (n: nat)
    ensures n <= PixelCount(img)
  {
    if img == [] then 0 else PositiveCount(img[..|img| - 1]) + CountPositive(img[|img| - 1])
  }

  /** `np.sum(a > 0) / a.size` for a non-empty image. */
  function PositiveRatio(img: seq<seq<int>>): (r: real)
    requires PixelCount(img) > 0
    ensures 0.0 <= r <= 1.0
  {
    PositiveCount(img) as real / PixelCount(img) as real
  }
}
