/** The impermanent loss of a concentrated-liquidity position: the closed-form
    ratio between the position's value and the value of simply holding its
    assets, after the price moves from oldPrice to newPrice, for a range
    [lowerPriceLimit, higherPriceLimit]; and the estimate derived from it for
    an exit at a fraction of the range.

    The original computes with JavaScript numbers: a division by zero or the
    square root of a negative number gives NaN or an infinity there. Here the
    arithmetic is exact and every input that divides by zero or takes the
    square root of a negative number gives None. */
module ImpermanentLoss {
  import opened Wrappers
  import opened Reals
  import opened StopLossThreshold

  /** 2 * sqrt(k) - 1 - k, for the price ratio k. */
  function LossNumerator(sqrt: real -> real, k: real): real {
    2.0 * sqrt(k) - 1.0 - k
  }

  /** 1 + k - sqrt(lower / old) - k * sqrt(old / higher). */
  function LossDenominator(sqrt: real -> real, k: real, oldPrice: real, lowerPriceLimit: real, higherPriceLimit: real): real
    requires oldPrice != 0.0 && higherPriceLimit != 0.0
  {
    1.0 + k - sqrt(lowerPriceLimit / oldPrice) - k * sqrt(oldPrice / higherPriceLimit)
  }

  /** imperLoss: the loss ratio, or None where the computation divides by
      zero or takes the square root of a negative number. The ratio times the
      denominator is -(sqrt(k) - 1)^2. */
  function ImperLoss(sqrt: real -> real, newPrice: real, oldPrice: real, lowerPriceLimit: real, higherPriceLimit: real): (r: Option<real>)
    requires IsSqrt(sqrt)
    ensures r.None? <==>
      || oldPrice == 0.0 || higherPriceLimit == 0.0
      || newPrice / oldPrice < 0.0 || lowerPriceLimit / oldPrice < 0.0 || oldPrice / higherPriceLimit < 0.0
      || LossDenominator(sqrt, newPrice / oldPrice, oldPrice, lowerPriceLimit, higherPriceLimit) == 0.0
    ensures r.Some? ==>
      var k := newPrice / oldPrice;
      r.value * LossDenominator(sqrt, k, oldPrice, lowerPriceLimit, higherPriceLimit) == -(sqrt(k) - 1.0) * (sqrt(k) - 1.0)
  {
    if oldPrice == 0.0 || higherPriceLimit == 0.0 then None
    else
      var k := newPrice / oldPrice;
      if k < 0.0 || lowerPriceLimit / oldPrice < 0.0 || oldPrice / higherPriceLimit < 0.0 then None
      else
        var denominator := LossDenominator(sqrt, k, oldPrice, lowerPriceLimit, higherPriceLimit);
        if denominator == 0.0 then None
        else
          NumeratorIsNegativeSquare(sqrt, k);
          Some(LossNumerator(sqrt, k) / denominator)
  }

  /** imperLossBelowStablecoin: the loss when the old price is the top of the
      range, with prices expressed relative to it. */
  function ImperLossBelowStablecoin(sqrt: real -> real, ratioBelow: real, intervalRatioBelow: real): (r: Option<real>)
    requires IsSqrt(sqrt)
    ensures ratioBelow >= 0.0 && intervalRatioBelow >= 0.0 && intervalRatioBelow != 1.0 ==>
      r == Some(LossNumerator(sqrt, ratioBelow) / (1.0 - sqrt(intervalRatioBelow)))
    ensures ratioBelow >= 0.0 && 0.0 <= intervalRatioBelow < 1.0 ==> r.Some? && r.value <= 0.0
  {
    BelowStablecoinClosedForm(sqrt, ratioBelow, intervalRatioBelow);
    ImperLoss(sqrt, ratioBelow, 1.0, intervalRatioBelow, 1.0)
  }

  /** The figures lossEstimation reports for an exit a fraction of the way
      down the range [low, high]. A loss figure is None where imperLoss
      divides by zero or takes the square root of a negative number, and the
      range figures are None for a zero top of the range. */
  datatype Estimates = Estimates(
    stopLoss: real,
    impLoss: Option<real>,
    impLossPercent: Option<real>,
    impLoss1000: Option<real>,
    impLoss5000: Option<real>,
    rangeFraction: Option<real>,
    rangePercent: Option<real>)

  /** `x` times `factor`, where `x` is defined. */
  function Scaled(x: Option<real>, factor: real): (r: Option<real>)
    ensures r.Some? <==> x.Some?
    ensures r.Some? && factor != 0.0 ==> r.value / factor == x.value
  {
    match x
    case None => None
    case Some(v) => Some(v * factor)
  }

  /** lossEstimation: the exit price, the loss from the top of the range down
      to it (as a ratio and scaled by 100, 1000 and 5000), and the width of
      the range relative to its top (as a ratio and in percent). */
  function LossEstimation(sqrt: real -> real, high: real, low: real, fraction: real): (r: Estimates)
    requires IsSqrt(sqrt)
    ensures r.stopLoss == StopLossPrice(high, low, fraction)
    ensures r.impLoss == ImperLoss(sqrt, r.stopLoss, high, low, high)
    ensures r.impLossPercent == Scaled(r.impLoss, 100.0)
    ensures r.impLoss1000 == Scaled(r.impLoss, 1000.0)
    ensures r.impLoss5000 == Scaled(r.impLoss, 5000.0)
    ensures r.rangeFraction.Some? <==> high != 0.0
    ensures r.rangeFraction.Some? ==> r.rangeFraction.value * high == high - low
    ensures r.rangePercent == Scaled(r.rangeFraction, 100.0)
    ensures 0.0 < low < high && 0.0 <= fraction <= 1.0 ==>
      && low <= r.stopLoss <= high
      && r.impLoss.Some? && r.impLoss.value <= 0.0
      && r.rangeFraction.Some? && 0.0 < r.rangeFraction.value < 1.0
  {
    var stopLoss := StopLossPrice(high, low, fraction);
    var impLoss := ImperLoss(sqrt, stopLoss, high, low, high);
    var rangeFraction := if high == 0.0 then None else Some((high - low) / high);
    EstimationInRange(sqrt, high, low, fraction);
    Estimates(stopLoss, impLoss, Scaled(impLoss, 100.0), Scaled(impLoss, 1000.0), Scaled(impLoss, 5000.0),
              rangeFraction, Scaled(rangeFraction, 100.0))
  }

  /** For an ordered range with positive bounds and a fraction in [0, 1] the
      exit lies in the range, its loss exists and is not positive, and the
      range is a proper fraction of its top. */
  lemma EstimationInRange(sqrt: real -> real, high: real, low: real, fraction: real)
    requires IsSqrt(sqrt)
    ensures 0.0 < low < high && 0.0 <= fraction <= 1.0 ==>
      && ImperLoss(sqrt, StopLossPrice(high, low, fraction), high, low, high).Some?
      && ImperLoss(sqrt, StopLossPrice(high, low, fraction), high, low, high).value <= 0.0
      && 0.0 < (high - low) / high < 1.0
  {
    if 0.0 < low < high && 0.0 <= fraction <= 1.0 {
      LossFromTopOfRange(sqrt, StopLossPrice(high, low, fraction), low, high);
      RangeFractionBelowOne(low, high);
    }
  }

  // ---------------------------------------------------------------------
  // Properties

  /** The numerator is -(sqrt(k) - 1)^2, so it is never positive. */
  lemma NumeratorIsNegativeSquare(sqrt: real -> real, k: real)
    requires IsSqrt(sqrt) && k >= 0.0
    ensures LossNumerator(sqrt, k) == -(sqrt(k) - 1.0) * (sqrt(k) - 1.0)
    ensures LossNumerator(sqrt, k) <= 0.0
  {
    var s := sqrt(k);
    assert s * s == k;
    assert (s - 1.0) * (s - 1.0) == s * s - 2.0 * s + 1.0;
  }

  /** No price movement, no loss. */
  lemma NoMovementNoLoss(sqrt: real -> real, price: real, lowerPriceLimit: real, higherPriceLimit: real)
    requires IsSqrt(sqrt)
    ensures ImperLoss(sqrt, price, price, lowerPriceLimit, higherPriceLimit).Some? ==>
      ImperLoss(sqrt, price, price, lowerPriceLimit, higherPriceLimit).value == 0.0
  {
    if price != 0.0 {
      SqrtOfOne(sqrt);
      assert price / price == 1.0;
      assert LossNumerator(sqrt, 1.0) == 0.0;
    }
  }

  /** Seen from the top of the range the denominator is 1 - sqrt(low / high),
      which is positive, so the loss down to any non-negative price exists and
      is never positive. */
  lemma LossFromTopOfRange(sqrt: real -> real, newPrice: real, low: real, high: real)
    requires IsSqrt(sqrt)
    requires 0.0 <= low < high && newPrice >= 0.0
    ensures LossDenominator(sqrt, newPrice / high, high, low, high) == 1.0 - sqrt(low / high)
    ensures 0.0 < 1.0 - sqrt(low / high)
    ensures ImperLoss(sqrt, newPrice, high, low, high).Some?
    ensures ImperLoss(sqrt, newPrice, high, low, high).value <= 0.0
  {
    var k := newPrice / high;
    SqrtOfOne(sqrt);
    assert high / high == 1.0;
    RatioBelowOne(low, high);
    SqrtBelowOne(sqrt, low / high);
    NumeratorIsNegativeSquare(sqrt, k);
    var n, d := LossNumerator(sqrt, k), 1.0 - sqrt(low / high);
    assert n / d <= 0.0 by {
      QuotientSign(n, d);
    }
  }

  lemma RatioBelowOne(a: real, b: real)
    requires 0.0 <= a < b
    ensures 0.0 <= a / b < 1.0
  {
    var q := a / b;
    assert q * b == a;
    assert (1.0 - q) * b == b - a;
  }

  /** Relative to a top price of 1 the loss ratio has the closed form
      (2 sqrt(r) - 1 - r) / (1 - sqrt(i)), never positive for 0 <= i < 1. */
  lemma BelowStablecoinClosedForm(sqrt: real -> real, ratioBelow: real, intervalRatioBelow: real)
    requires IsSqrt(sqrt)
    ensures ratioBelow >= 0.0 && intervalRatioBelow >= 0.0 && intervalRatioBelow != 1.0 ==>
      ImperLoss(sqrt, ratioBelow, 1.0, intervalRatioBelow, 1.0)
        == Some(LossNumerator(sqrt, ratioBelow) / (1.0 - sqrt(intervalRatioBelow)))
    ensures ratioBelow >= 0.0 && 0.0 <= intervalRatioBelow < 1.0 ==>
      ImperLoss(sqrt, ratioBelow, 1.0, intervalRatioBelow, 1.0).Some? &&
      ImperLoss(sqrt, ratioBelow, 1.0, intervalRatioBelow, 1.0).value <= 0.0
  {
    if ratioBelow >= 0.0 && intervalRatioBelow >= 0.0 && intervalRatioBelow != 1.0 {
      SqrtOfOne(sqrt);
      assert sqrt(intervalRatioBelow) != 1.0 by {
        if sqrt(intervalRatioBelow) == 1.0 {
          assert intervalRatioBelow == sqrt(intervalRatioBelow) * sqrt(intervalRatioBelow);
        }
      }
      assert LossDenominator(sqrt, ratioBelow, 1.0, intervalRatioBelow, 1.0) == 1.0 - sqrt(intervalRatioBelow);
      if intervalRatioBelow < 1.0 {
        LossFromTopOfRange(sqrt, ratioBelow, intervalRatioBelow, 1.0);
      }
    }
  }

  /** The width of a range with positive bounds, relative to its top. */
  lemma RangeFractionBelowOne(low: real, high: real)
    requires 0.0 < low < high
    ensures 0.0 < (high - low) / high < 1.0
  {
    var q, x := low / high, (high - low) / high;
    assert q * high == low;
    assert x * high == high - low;
    assert (1.0 - q) * high == high - low;
    CancelFactor(x, 1.0 - q, high);
    RatioBelowOne(low, high);
  }

  /** The worked example: high 2000, low 1000 and fraction 0.5 exit at 1500
      with a loss that is not positive. */
  lemma LossEstimationHalfWay(sqrt: real -> real)
    requires IsSqrt(sqrt)
    ensures LossEstimation(sqrt, 2000.0, 1000.0, 0.5).stopLoss == 1500.0
    ensures LossEstimation(sqrt, 2000.0, 1000.0, 0.5).rangeFraction == Some(0.5)
    ensures LossEstimation(sqrt, 2000.0, 1000.0, 0.5).impLoss.Some?
    ensures LossEstimation(sqrt, 2000.0, 1000.0, 0.5).impLoss.value <= 0.0
  {
    StopLossHalfWay();
  }
}
