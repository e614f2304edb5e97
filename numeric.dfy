/** Python's built-in `min` and `max` on two numbers, as used throughout `generate()`. */
module Numeric {

  /** `min(a, b)` on numbers: the smaller of the two. */
  function Min(a: real, b: real): (r: real)
    ensures r <= a && r <= b
    ensures r == a || r == b
  {
    if b < a then b else a
  }

  /** `max(a, b)` on numbers: the larger of the two. */
  function Max(a: real, b: real): (r: real)
    ensures a <= r && b <= r
    ensures r == a || r == b
  {
    if b > a then b else a
  }

  /** Dividing by a positive number keeps the order. */
  lemma QuotientMonotone(a: real, b: real, den: real)
    requires a <= b && den > 0.0
    ensures a / den <= b / den
  {
  }

  /** Dividing by a larger positive number gives a smaller quotient. */
  lemma QuotientAntitone(k: real, small: real, large: real)
    requires k > 0.0 && 0.0 < small < large
    ensures k / large < k / small
  {
    assert k / small - k / large == k * (large - small) / (small * large);
  }

  /** The fraction of `c` left over after taking `b` away. */
  lemma ShortfallFraction(c: real, b: real)
    requires c > 0.0
    ensures (c - b) / c == 1.0 - b / c
  {
    assert c / c == 1.0;
    assert (c - b) / c == c / c - b / c;
  }

  /** Scaling a non-negative number by a factor in [1, 1.25]. */
  lemma ScaleBounds(x: real, f: real)
    requires x >= 0.0 && 1.0 <= f <= 1.25
    ensures x <= x * f <= 1.25 * x
    ensures x * f == x <==> f == 1.0 || x == 0.0
  {
  }
}
