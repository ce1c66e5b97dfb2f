/**
 * Openness ratios computed once per detected face and frame.
 *
 * The eye aspect ratio is built from three landmark distances: two vertical
 * spans A and B between the upper and lower eyelid points, and the
 * horizontal span C between the eye corners. The Euclidean distances
 * themselves come from a numerical library and are inputs here, as are the
 * height and width of the mouth's bounding rectangle.
 */
module Ratio {

  /** The eye aspect ratio (A + B) / (2 C); the eye corners must not coincide. */
  function EyeAspectRatio(a: real, b: real, c: real): (r: real)
    requires a >= 0.0 && b >= 0.0 && c > 0.0
    ensures r >= 0.0
    ensures r * (2.0 * c) == a + b
    ensures r == 0.0 <==> a == 0.0 && b == 0.0
  {
    (a + b) / (2.0 * c)
  }

  /** A closed eye (both vertical pairs coincide) has ratio 0. */
  lemma ClosedEyeRatio(c: real)
    requires c > 0.0
    ensures EyeAspectRatio(0.0, 0.0, c) == 0.0
  {
  }

  /** For a top/bottom symmetric eye (A = B) the ratio is the opening over the width. */
  lemma SymmetricEyeRatio(a: real, c: real)
    requires a >= 0.0 && c > 0.0
    ensures EyeAspectRatio(a, a, c) == a / c
  {
  }

  /** Scaling all three distances by the same positive factor leaves the ratio unchanged. */
  lemma EyeAspectRatioScaleInvariant(a: real, b: real, c: real, k: real)
    requires a >= 0.0 && b >= 0.0 && c > 0.0 && k > 0.0
    ensures EyeAspectRatio(k * a, k * b, k * c) == EyeAspectRatio(a, b, c)
  {
  }

  /** A wider vertical opening never lowers the ratio; wider eye corners never raise it. */
  lemma EyeAspectRatioMonotone(a: real, b: real, c: real, a': real, b': real, c': real)
    requires 0.0 <= a <= a' && 0.0 <= b <= b' && 0.0 < c' <= c
    ensures EyeAspectRatio(a, b, c) <= EyeAspectRatio(a', b', c')
  {
    var q := EyeAspectRatio(a', b', c);
    assert q * (2.0 * c) == a' + b';
    assert (q - EyeAspectRatio(a, b, c)) * (2.0 * c) == (a' - a) + (b' - b);
    var r' := EyeAspectRatio(a', b', c');
    assert r' * (2.0 * c') == q * (2.0 * c);
    assert (r' - q) * (2.0 * c') == q * (2.0 * (c - c'));
    NonNegativeFactor(q - EyeAspectRatio(a, b, c), 2.0 * c);
    NonNegativeProduct(q, 2.0 * (c - c'));
    NonNegativeFactor(r' - q, 2.0 * c');
  }

  lemma NonNegativeFactor(x: real, p: real)
    requires p > 0.0 && x * p >= 0.0
    ensures x >= 0.0
  {
  }

  lemma NonNegativeProduct(x: real, y: real)
    requires x >= 0.0 && y >= 0.0
    ensures x * y >= 0.0
  {
  }

  /** The combined eye ratio of a face: the arithmetic mean of both eyes' ratios. */
  function MeanRatio(left: real, right: real): (r: real)
    ensures r - left == right - r
    ensures left <= right ==> left <= r <= right
    ensures right <= left ==> right <= r <= left
  {
    (left + right) / 2.0
  }

  /** The mean lies below a threshold when both eyes do, and at or above it when both eyes do. */
  lemma MeanRatioAgreesWithBothEyes(left: real, right: real, threshold: real)
    ensures left < threshold && right < threshold ==> MeanRatio(left, right) < threshold
    ensures left >= threshold && right >= threshold ==> MeanRatio(left, right) >= threshold
    ensures MeanRatio(left, right) == MeanRatio(right, left)
  {
  }

  /** The mouth aspect ratio: height over width of the mouth's bounding rectangle. */
  function MouthAspectRatio(height: nat, width: nat): (r: real)
    requires width > 0
    ensures r >= 0.0
    ensures r * (width as real) == height as real
    ensures r == 1.0 <==> height == width
    ensures r < 1.0 <==> height < width
  {
    (height as real) / (width as real)
  }
}
