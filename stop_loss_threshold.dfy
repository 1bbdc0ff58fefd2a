/** The exit threshold of a range position: the price a given fraction of the
    way down from the upper bound to the lower bound. The liquidity manager
    triggers on it and the loss estimator evaluates the loss at it. */
module StopLossThreshold {

  /** upper - (upper - lower) * fraction. */
  function StopLossPrice(upper: real, lower: real, fraction: real): (r: real)
    ensures lower <= upper && 0.0 <= fraction <= 1.0 ==> lower <= r <= upper
  {
    var span := upper - lower;
    assert 0.0 <= span && 0.0 <= fraction <= 1.0 ==> 0.0 <= span * fraction <= span;
    upper - span * fraction
  }

  /** Fraction 0 is the upper bound itself and fraction 1 the lower bound. */
  lemma StopLossEndpoints(upper: real, lower: real)
    ensures StopLossPrice(upper, lower, 0.0) == upper
    ensures StopLossPrice(upper, lower, 1.0) == lower
  {
  }

  /** A larger fraction puts the threshold lower in the range. */
  lemma StopLossAntitone(upper: real, lower: real, f1: real, f2: real)
    requires lower <= upper && f1 <= f2
    ensures StopLossPrice(upper, lower, f2) <= StopLossPrice(upper, lower, f1)
  {
    var span := upper - lower;
    assert span * f2 - span * f1 == span * (f2 - f1);
    assert span * (f2 - f1) >= 0.0;
  }

  /** The worked example: half-way between 1000 and 2000 is 1500. */
  lemma StopLossHalfWay()
    ensures StopLossPrice(2000.0, 1000.0, 0.5) == 1500.0
  {
  }
}
