// The size arithmetic of the upload path: before an image is re-encoded its
// longer side is capped at 1536 pixels, keeping the width/height ratio.
module Downscale {

  const MaxDim: real := 1536.0

  /**
   * The canvas size computed from the decoded size, as the upload path writes
   * it: untouched when both sides fit, otherwise the longer side (the height
   * on a tie) is set to the cap and the other one is scaled by the ratio.
   */
  function ScaledSize(width: real, height: real): (r: (real, real))
    requires width >= 0.0 && height >= 0.0
    ensures width <= MaxDim && height <= MaxDim ==> r == (width, height)
    ensures width > height && width > MaxDim ==> r.0 == MaxDim
    ensures height >= width && height > MaxDim ==> r.1 == MaxDim
    ensures 0.0 <= r.0 <= MaxDim && 0.0 <= r.1 <= MaxDim
    ensures r.0 * height == r.1 * width
  {
    if width > MaxDim || height > MaxDim then
      if width > height then
        assert (height / width) * MaxDim * width == height * MaxDim;
        (MaxDim, (height / width) * MaxDim)
      else
        assert (width / height) * MaxDim * height == width * MaxDim;
        RatioAtMostOne(width, height);
        ((width / height) * MaxDim, MaxDim)
    else
      (width, height)
  }

  lemma RatioAtMostOne(a: real, b: real)
    requires 0.0 <= a <= b && b > 0.0
    ensures 0.0 <= a / b <= 1.0
  {
  }

  /** The factor both sides are multiplied by: 1, or the cap over the longer side. */
  function ScaleFactor(width: real, height: real): (k: real)
    requires width >= 0.0 && height >= 0.0
  {
    if width <= MaxDim && height <= MaxDim then 1.0
    else if width > height then MaxDim / width
    else MaxDim / height
  }

  /** Both sides are scaled by one common factor in (0, 1]. */
  lemma SameFactor(width: real, height: real)
    requires width >= 0.0 && height >= 0.0
    ensures 0.0 < ScaleFactor(width, height) <= 1.0
    ensures ScaledSize(width, height).0 == ScaleFactor(width, height) * width
    ensures ScaledSize(width, height).1 == ScaleFactor(width, height) * height
  {
  }

  /** A size that has been capped once is not changed by capping it again. */
  lemma ScaledSizeIdempotent(width: real, height: real)
    requires width >= 0.0 && height >= 0.0
    ensures var r := ScaledSize(width, height); ScaledSize(r.0, r.1) == r
  {
  }
}
