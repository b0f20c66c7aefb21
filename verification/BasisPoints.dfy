/** Shares in hundredths of a percent, computed with saturating products and rounded down. */
module BasisPoints {
  import opened Base

  const BPS_DENOMINATOR := 10_000

  /** A saturating share never exceeds the true share, and saturates only above it. */
  lemma ShareBounds(x: i128, share: nat)
    requires 0 <= x && share <= BPS_DENOMINATOR
    ensures 0 <= SatMul(x, share) / BPS_DENOMINATOR <= x * share / BPS_DENOMINATOR <= x
    ensures x * share <= I128_MAX ==> SatMul(x, share) / BPS_DENOMINATOR == x * share / BPS_DENOMINATOR
  {
    MulLe(x, share, BPS_DENOMINATOR);
  }

  /** `share` hundredths of a percent of `x`, rounded down; where the product does not fit, of the largest one that does. */
  predicate FlooredShare(f: int, x: int, share: int) {
    if x * share <= I128_MAX then f * 10_000 <= x * share < (f + 1) * 10_000
    else f == 0x7FFF_FFFF_FFFF_FFFF_FFFF_FFFF_FFFF_FFFF / 10_000
  }

  lemma ShareIsFloored(x: i128, share: nat)
    requires 0 <= x
    ensures FlooredShare(SatMul(x, share) / BPS_DENOMINATOR, x, share)
  {
    MulLe(x, 0, share);
  }

  /** A share grows with the amount, and by no more than the amount does. */
  lemma ShareGrowth(x: i128, y: i128, share: nat)
    requires 0 <= x <= y && share <= BPS_DENOMINATOR
    ensures 0 <= SatMul(y, share) / BPS_DENOMINATOR - SatMul(x, share) / BPS_DENOMINATOR <= y - x
  {
    hide SatMul;
    var d := y - x;
    assert y * share == x * share + d * share;
    MulLe(d, 0, share);
    MulLe(d, share, BPS_DENOMINATOR);
    MulLe(x, 0, share);
    SaturatedGrowth(x, y, share, d * BPS_DENOMINATOR);
    DivGrowth(SatMul(x, share), SatMul(y, share), d);
  }

  lemma SaturatedGrowth(x: i128, y: i128, share: nat, growth: nat)
    requires 0 <= x * share <= y * share <= x * share + growth
    ensures 0 <= SatMul(x, share) <= SatMul(y, share) <= SatMul(x, share) + growth
  {
  }

  lemma DivGrowth(a: nat, b: nat, d: nat)
    requires a <= b <= a + d * BPS_DENOMINATOR
    ensures 0 <= b / BPS_DENOMINATOR - a / BPS_DENOMINATOR <= d
  {
  }
}
