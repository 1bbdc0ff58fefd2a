/** The second copy of the impermanent-loss formulas kept in the repository's
    helpers file. It is written out again here, from that file, and proved to
    agree everywhere with the estimator's copy, so every property proved there
    holds of this one too. */
module Helpers {
  import opened Wrappers
  import opened Reals
  import ImpermanentLoss

  /** imperLoss, as the helpers file writes it. */
  function ImperLoss(sqrt: real -> real, newPrice: real, oldPrice: real, lowerPriceLimit: real, higherPriceLimit: real): (r: Option<real>)
    requires IsSqrt(sqrt)
    ensures r == ImpermanentLoss.ImperLoss(sqrt, newPrice, oldPrice, lowerPriceLimit, higherPriceLimit)
  {
    if oldPrice == 0.0 || higherPriceLimit == 0.0 then None
    else
      var k := newPrice / oldPrice;
      var lowerRatio, upperRatio := lowerPriceLimit / oldPrice, oldPrice / higherPriceLimit;
      if k < 0.0 || lowerRatio < 0.0 || upperRatio < 0.0 then None
      else
        var numerator := 2.0 * sqrt(k) - 1.0 - k;
        var denominator := 1.0 + k - sqrt(lowerRatio) - k * sqrt(upperRatio);
        assert numerator == ImpermanentLoss.LossNumerator(sqrt, k);
        assert denominator == ImpermanentLoss.LossDenominator(sqrt, k, oldPrice, lowerPriceLimit, higherPriceLimit);
        if denominator == 0.0 then None else Some(numerator / denominator)
  }

  /** imperLossBelowStablecoin, as the helpers file writes it. */
  function ImperLossBelowStablecoin(sqrt: real -> real, ratioBelow: real, intervalRatioBelow: real): (r: Option<real>)
    requires IsSqrt(sqrt)
    ensures r == ImpermanentLoss.ImperLossBelowStablecoin(sqrt, ratioBelow, intervalRatioBelow)
  {
    ImperLoss(sqrt, ratioBelow, 1.0, intervalRatioBelow, 1.0)
  }

  /** Through the agreement: no movement gives no loss, and relative to a top
      price of 1 the loss is (2 sqrt(r) - 1 - r) / (1 - sqrt(i)), never
      positive for 0 <= i < 1. */
  lemma HelpersLossProperties(sqrt: real -> real, price: real, lower: real, higher: real, ratioBelow: real, intervalRatioBelow: real)
    requires IsSqrt(sqrt)
    ensures ImperLoss(sqrt, price, price, lower, higher).Some? ==> ImperLoss(sqrt, price, price, lower, higher).value == 0.0
    ensures ratioBelow >= 0.0 && intervalRatioBelow >= 0.0 && intervalRatioBelow != 1.0 ==>
      ImperLossBelowStablecoin(sqrt, ratioBelow, intervalRatioBelow)
        == Some((2.0 * sqrt(ratioBelow) - 1.0 - ratioBelow) / (1.0 - sqrt(intervalRatioBelow)))
    ensures ratioBelow >= 0.0 && 0.0 <= intervalRatioBelow < 1.0 ==>
      ImperLossBelowStablecoin(sqrt, ratioBelow, intervalRatioBelow).Some? &&
      ImperLossBelowStablecoin(sqrt, ratioBelow, intervalRatioBelow).value <= 0.0
  {
    ImpermanentLoss.NoMovementNoLoss(sqrt, price, lower, higher);
  }
}
