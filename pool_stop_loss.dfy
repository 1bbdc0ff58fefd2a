/** The older stop-loss check, which works in inverted prices (token0 per
    token1): the threshold is a fraction of the way from the inverted upper
    bound to the inverted lower bound, and the check is whether the inverted
    pool price is below it.

    The pool price and the two tick prices are read with the tokens'
    on-chain decimals: the `decimals` array the check is given is passed only
    to the one-argument price inversion, which does not use it. */
module PoolStopLoss {
  import opened Wrappers
  import opened Reals
  import opened PriceOracle
  import opened StopLossThreshold

  /** The range of the position, as positions(positionId) reports it. */
  datatype PositionTicks = PositionTicks(tickLower: int, tickUpper: int)

  /** (invLower - invUpper) * fraction + invUpper: the liquidity manager's
      threshold with the inverted upper bound as the top, so for a fraction
      in [0, 1] it lies between the two inverted bounds. */
  function InvertedStopLossPrice(invLower: real, invUpper: real, fractionToBottom: real): (r: real)
    ensures r == StopLossPrice(invUpper, invLower, fractionToBottom)
    ensures invUpper <= invLower && 0.0 <= fractionToBottom <= 1.0 ==> invUpper <= r <= invLower
  {
    var r := (invLower - invUpper) * fractionToBottom + invUpper;
    SpanFraction(invLower, invUpper, fractionToBottom, r);
    r
  }

  /** The interpolation from `top` towards `bottom`, written either way round,
      stays between them for a fraction in [0, 1]. */
  lemma SpanFraction(bottom: real, top: real, fraction: real, r: real)
    requires r == (bottom - top) * fraction + top
    ensures r == top - (top - bottom) * fraction
    ensures top <= bottom && 0.0 <= fraction <= 1.0 ==> top <= r <= bottom
  {
    var span := bottom - top;
    assert (top - bottom) * fraction == -(span * fraction);
    if top <= bottom && 0.0 <= fraction <= 1.0 {
      assert span * fraction >= 0.0;
      assert span * (1.0 - fraction) >= 0.0;
    }
  }

  /** poolStopLoss: None where the original throws, which is when the ticks
      are still the empty strings of an uninitialised checker (parseInt gives
      NaN) or when the pool price is zero and cannot be inverted; otherwise
      whether the inverted pool price is strictly below the threshold.
      `verbose` only selects logging. */
  function PoolStopLossCheck(fractionToBottom: real, positionTicks: Option<PositionTicks>, decimals: seq<int>,
                             verbose: bool, slot0SqrtPriceX96: nat, onChain: Decimals): (r: Option<bool>)
    ensures r.None? <==> positionTicks.None? || slot0SqrtPriceX96 == 0
    ensures r.Some? ==>
      r.value == (1.0 / PoolPrice(slot0SqrtPriceX96, onChain)
                  < InvertedThreshold(positionTicks.value, fractionToBottom, onChain))
  {
    var rawPrice := PoolPrice(slot0SqrtPriceX96, onChain);
    match InvertedPrice(rawPrice)
    case None => None
    case Some(price) =>
      match positionTicks
      case None => None
      case Some(ticks) =>
        var token1PriceLower := InvertedPrice(TickToPrice(ticks.tickLower, onChain)).value;
        var token1PriceUpper := InvertedPrice(TickToPrice(ticks.tickUpper, onChain)).value;
        Some(price < InvertedStopLossPrice(token1PriceLower, token1PriceUpper, fractionToBottom))
  }

  /** The threshold of a range of ticks, in inverted prices. */
  function InvertedThreshold(ticks: PositionTicks, fractionToBottom: real, d: Decimals): real {
    InvertedStopLossPrice(1.0 / TickToPrice(ticks.tickLower, d), 1.0 / TickToPrice(ticks.tickUpper, d), fractionToBottom)
  }

  // ---------------------------------------------------------------------
  // Properties

  /** Fraction 0 gives the inverted upper bound and fraction 1 the inverted
      lower bound; measured from the inverted lower bound the fraction is
      1 - fraction. */
  lemma InvertedIsStopLossPrice(invLower: real, invUpper: real, fractionToBottom: real)
    ensures InvertedStopLossPrice(invLower, invUpper, 0.0) == invUpper
    ensures InvertedStopLossPrice(invLower, invUpper, 1.0) == invLower
    ensures InvertedStopLossPrice(invLower, invUpper, fractionToBottom) == StopLossPrice(invLower, invUpper, 1.0 - fractionToBottom)
  {
    var span := invLower - invUpper;
    assert span * (1.0 - fractionToBottom) == span - span * fractionToBottom;
  }

  /** For an ordered range and a fraction in [0, 1] the threshold lies
      between the two inverted bounds, and is positive. */
  lemma ThresholdBetweenInvertedBounds(ticks: PositionTicks, fractionToBottom: real, d: Decimals)
    requires ticks.tickLower <= ticks.tickUpper && 0.0 <= fractionToBottom <= 1.0
    ensures 1.0 / TickToPrice(ticks.tickUpper, d) <= InvertedThreshold(ticks, fractionToBottom, d)
    ensures InvertedThreshold(ticks, fractionToBottom, d) <= 1.0 / TickToPrice(ticks.tickLower, d)
    ensures InvertedThreshold(ticks, fractionToBottom, d) > 0.0
  {
    var lower, upper := TickToPrice(ticks.tickLower, d), TickToPrice(ticks.tickUpper, d);
    TickToPriceStrictlyIncreasing(ticks.tickUpper, ticks.tickLower, d);
    ReciprocalAntitone(lower, upper);
  }

  /** In raw prices: once initialised and with a non-zero pool price the check
      is true exactly when the pool price (token1 per token0) is above the
      reciprocal of the threshold. So, for an ordered range and a fraction in
      [0, 1], it is true above the upper bound and false at or below the
      lower bound. */
  lemma CheckInRawPrices(fractionToBottom: real, ticks: PositionTicks, decimals: seq<int>, verbose: bool,
                         slot0SqrtPriceX96: nat, onChain: Decimals)
    requires slot0SqrtPriceX96 != 0
    requires ticks.tickLower <= ticks.tickUpper && 0.0 <= fractionToBottom <= 1.0
    ensures InvertedThreshold(ticks, fractionToBottom, onChain) > 0.0
    ensures PoolStopLossCheck(fractionToBottom, Some(ticks), decimals, verbose, slot0SqrtPriceX96, onChain)
      == Some(PoolPrice(slot0SqrtPriceX96, onChain) > 1.0 / InvertedThreshold(ticks, fractionToBottom, onChain))
    ensures PoolPrice(slot0SqrtPriceX96, onChain) > TickToPrice(ticks.tickUpper, onChain) ==>
      PoolStopLossCheck(fractionToBottom, Some(ticks), decimals, verbose, slot0SqrtPriceX96, onChain) == Some(true)
    ensures PoolPrice(slot0SqrtPriceX96, onChain) <= TickToPrice(ticks.tickLower, onChain) ==>
      PoolStopLossCheck(fractionToBottom, Some(ticks), decimals, verbose, slot0SqrtPriceX96, onChain) == Some(false)
  {
    var r := PoolStopLossCheck(fractionToBottom, Some(ticks), decimals, verbose, slot0SqrtPriceX96, onChain);
    var x, t := PoolPrice(slot0SqrtPriceX96, onChain), InvertedThreshold(ticks, fractionToBottom, onChain);
    var lower, upper := TickToPrice(ticks.tickLower, onChain), TickToPrice(ticks.tickUpper, onChain);
    assert r == Some(1.0 / x < t);
    ThresholdBetweenInvertedBounds(ticks, fractionToBottom, onChain);
    TriggerInRawPrices(x, t, lower, upper);
  }

  /** The comparison on named prices: raw price x, threshold t between the
      reciprocals of the bounds. */
  lemma TriggerInRawPrices(x: real, t: real, lower: real, upper: real)
    requires x > 0.0 && lower > 0.0 && upper > 0.0
    requires 1.0 / upper <= t <= 1.0 / lower && t > 0.0
    ensures 1.0 / x < t <==> x > 1.0 / t
    ensures x > upper ==> 1.0 / x < t
    ensures x <= lower ==> !(1.0 / x < t)
  {
    ReciprocalLess(x, t);
    if x > upper {
      ReciprocalAntitone(upper, x);
    }
    if x <= lower {
      ReciprocalAntitone(x, lower);
    }
  }

  /** For positive x and t: 1/x < t exactly when x > 1/t. */
  lemma ReciprocalLess(x: real, t: real)
    requires x > 0.0 && t > 0.0
    ensures 1.0 / x < t <==> x > 1.0 / t
  {
    var a, b := 1.0 / x, 1.0 / t;
    assert a * x == 1.0 && b * t == 1.0;
    ScaleLess(a, t, x, a * x, t * x);
    ScaleLess(b, x, t, b * t, x * t);
  }

  // ---------------------------------------------------------------------
  // The checker object

  class PoolStopLoss {
    var fractionToBottom: real
    var positionId: nat
    /** Empty until init reads the tokens' decimals. */
    var decimals: seq<int>
    /** None while the ticks are the empty strings the object starts with. */
    var positionTicks: Option<PositionTicks>

    constructor (fractionToBottom: real, positionId: nat)
      ensures this.fractionToBottom == fractionToBottom && this.positionId == positionId
      ensures decimals == [] && positionTicks == None
    {
      this.fractionToBottom := fractionToBottom;
      this.positionId := positionId;
      decimals := [];
      positionTicks := None;
    }

    /** init: keeps the tokens' decimals and the range of the position
        `positionId` (`ticks` is what the position manager returned for it). */
    method Init(onChain: Decimals, ticks: PositionTicks)
      modifies this
      ensures decimals == [onChain.token0, onChain.token1] && positionTicks == Some(ticks)
      ensures fractionToBottom == old(fractionToBottom) && positionId == old(positionId)
    {
      decimals := [onChain.token0, onChain.token1];
      positionTicks := Some(ticks);
    }

    /** check: poolStopLoss on the stored fraction, ticks and decimals. Before
        init it fails, whatever the pool price. */
    method Check(verbose: bool, slot0SqrtPriceX96: nat, onChain: Decimals) returns (r: Option<bool>)
      ensures r == PoolStopLossCheck(fractionToBottom, positionTicks, decimals, verbose, slot0SqrtPriceX96, onChain)
      ensures positionTicks.None? ==> r.None?
    {
      r := PoolStopLossCheck(fractionToBottom, positionTicks, decimals, verbose, slot0SqrtPriceX96, onChain);
    }
  }
}
