/** What several modules need of the reals: magnitude, bounds, rounding and the signs of products. */
module Reals {
  function Abs(x: real): real {
    if x < 0.0 then -x else x
  }

  function Clamp(x: real, lo: real, hi: real): real {
    if x < lo then lo else if x > hi then hi else x
  }

  /** The nearest integer, a half rounding up. */
  function Rounded(x: real): int {
    (x + 0.5).Floor
  }

  lemma ProductNotNegative(x: real, y: real)
    requires x >= 0.0 && y >= 0.0
    ensures x * y >= 0.0
  {
  }

  lemma ProductIsPositive(x: real, y: real)
    requires x > 0.0 && y > 0.0
    ensures x * y > 0.0
  {
  }

  lemma Regroup(x: real, y: real, z: real)
    ensures x * (y * z) == x * y * z
  {
  }

  /** A share of a loudness, a length or a rate is no more than the whole. */
  lemma ShareIsLess(share: real, whole: real)
    requires 0.0 <= share <= 1.0 && 0.0 <= whole
    ensures 0.0 <= share * whole <= whole
  {
    ProductNotNegative(share, whole);
    ProductNotNegative(1.0 - share, whole);
    assert (1.0 - share) * whole == whole - share * whole;
  }
}
