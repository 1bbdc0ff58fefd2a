/** Price conversions of the pool: a Q64.96 square-root price to a human
    price, the inverse of a price, and a tick to a price, each corrected for
    the difference between the two tokens' decimal counts.

    The contract reads of the original (the pool's `slot0` and the tokens'
    `decimals()`) are parameters here, and Big.js / IEEE arithmetic is taken
    as exact real arithmetic. */
module PriceOracle {
  import opened Wrappers
  import opened Reals

  /** 2^192, the scale of a squared Q64.96 square-root price. */
  const Q192: real := 6277101735386680763835789423207666416102355444464034512896.0

  /** One tick moves the price by one basis point. */
  const TickBase: real := 1.0001

  /** The decimal counts of token0 and token1. */
  datatype Decimals = Decimals(token0: int, token1: int)

  /** The decimals a price function works with: the supplied array when it is
      not empty, otherwise the tokens' own (read from the chain). A one-element
      array leaves token1's decimals undefined, the exponent becomes NaN and
      Big.js throws. */
  function ResolveDecimals(supplied: seq<int>, onChain: Decimals): (r: Option<Decimals>)
    ensures |supplied| == 0 ==> r == Some(onChain)
    ensures |supplied| == 1 ==> r == None
    ensures |supplied| >= 2 ==> r == Some(Decimals(supplied[0], supplied[1]))
  {
    if |supplied| == 0 then Some(onChain)
    else if |supplied| == 1 then None
    else Some(Decimals(supplied[0], supplied[1]))
  }

  /** 10^(token0 decimals - token1 decimals). */
  function DecimalScale(d: Decimals): (r: real)
    ensures r > 0.0
  {
    Pow(10.0, d.token0 - d.token1)
  }

  /** The price in raw token units: sqrtRatioX96^2 / 2^192. */
  function SharePrice(sqrtRatioX96: nat): real {
    (sqrtRatioX96 * sqrtRatioX96) as real / Q192
  }

  /** The human price of token0 in token1 for a square-root price. */
  function PoolPrice(sqrtRatioX96: nat, d: Decimals): (r: real)
    ensures r >= 0.0
    ensures r > 0.0 <==> sqrtRatioX96 != 0
  {
    SharePrice(sqrtRatioX96) * DecimalScale(d)
  }

  /** getPoolPrice: the supplied square-root price when one is given (a
      non-empty string), otherwise the pool's current one from slot0. */
  function GetPoolPrice(supplied: Option<nat>, decimals: seq<int>, slot0SqrtPriceX96: nat, onChain: Decimals): (r: Option<real>)
    ensures r.Some? <==> |decimals| != 1
    ensures r.Some? ==> r.value >= 0.0
    ensures r.Some? ==> (r.value > 0.0 <==> supplied.GetOr(slot0SqrtPriceX96) != 0)
  {
    match ResolveDecimals(decimals, onChain)
    case None => None
    case Some(d) =>
      var sqrtRatioX96 := if supplied.Some? then supplied.value else slot0SqrtPriceX96;
      Some(PoolPrice(sqrtRatioX96, d))
  }

  /** getInvertedPrice: the reciprocal; Big.js throws on division by zero. */
  function InvertedPrice(price: real): (r: Option<real>)
    ensures r.Some? <==> price != 0.0
    ensures r.Some? ==> r.value * price == 1.0
  {
    if price == 0.0 then None else Some(1.0 / price)
  }

  /** `Math.pow(1.0001, tick)`: the price of a tick in raw token units. */
  function TickPrice(tick: int): (r: real)
    ensures r > 0.0
  {
    Pow(TickBase, tick)
  }

  /** The human price of a tick. */
  function TickToPrice(tick: int, d: Decimals): (r: real)
    ensures r > 0.0
  {
    TickPrice(tick) * DecimalScale(d)
  }

  /** tickToPrice, with the decimals resolved as for getPoolPrice. */
  function GetTickToPrice(tick: int, decimals: seq<int>, onChain: Decimals): (r: Option<real>)
    ensures r.Some? <==> |decimals| != 1
    ensures r.Some? ==> r.value > 0.0
  {
    match ResolveDecimals(decimals, onChain)
    case None => None
    case Some(d) => Some(TickToPrice(tick, d))
  }

  // ---------------------------------------------------------------------
  // Properties

  /** A supplied square-root price makes the pool's slot0 irrelevant. */
  lemma SuppliedSqrtIgnoresSlot0(s: nat, decimals: seq<int>, slot0A: nat, slot0B: nat, onChain: Decimals)
    ensures GetPoolPrice(Some(s), decimals, slot0A, onChain) == GetPoolPrice(Some(s), decimals, slot0B, onChain)
    ensures |decimals| >= 2 ==>
      GetPoolPrice(Some(s), decimals, slot0A, onChain) == Some(PoolPrice(s, Decimals(decimals[0], decimals[1])))
  {
  }

  /** A negative decimals difference divides the share price by 10^|difference|;
      equal decimals leave it unscaled. */
  lemma PoolPriceDecimalCorrection(s: nat, d: Decimals)
    ensures d.token0 < d.token1 ==> PoolPrice(s, d) == SharePrice(s) / Pow(10.0, d.token1 - d.token0)
    ensures d.token0 == d.token1 ==> PoolPrice(s, d) == SharePrice(s)
  {
    PowNeg(10.0, d.token1 - d.token0);
  }

  /** One more decimal on token0 multiplies the price by ten. */
  lemma PoolPriceDecimalStep(s: nat, d: Decimals)
    ensures PoolPrice(s, Decimals(d.token0 + 1, d.token1)) == 10.0 * PoolPrice(s, d)
  {
    PowSucc(10.0, d.token0 - d.token1);
  }

  /** Inverting twice gives back any non-zero price. */
  lemma InvertTwice(price: real)
    requires price != 0.0
    ensures InvertedPrice(price).Some?
    ensures InvertedPrice(InvertedPrice(price).value) == Some(price)
  {
    var q := 1.0 / price;
    assert q * price == 1.0;
    assert q != 0.0;
    assert 1.0 / q == price;
  }

  /** Each tick multiplies the price by 1.0001. */
  lemma TickToPriceStep(tick: int, d: Decimals)
    ensures TickToPrice(tick + 1, d) == TickBase * TickToPrice(tick, d)
  {
    PowSucc(TickBase, tick);
  }

  /** The tick price is strictly increasing in the tick, and so one-to-one. */
  lemma TickToPriceStrictlyIncreasing(t1: int, t2: int, d: Decimals)
    ensures TickToPrice(t1, d) < TickToPrice(t2, d) <==> t1 < t2
  {
    PowLess(TickBase, t1, t2);
    ScaleLess(TickPrice(t1), TickPrice(t2), DecimalScale(d), TickToPrice(t1, d), TickToPrice(t2, d));
  }

  /** With equal decimals tick 0 is the price 1. */
  lemma TickZeroIsParity(d: Decimals)
    requires d.token0 == d.token1
    ensures TickToPrice(0, d) == 1.0
  {
  }

  /** Inverting a tick price negates the tick and swaps the tokens; with equal
      decimals this is invert(tickToPrice(t)) == tickToPrice(-t). */
  lemma InvertTickPrice(tick: int, d: Decimals)
    ensures InvertedPrice(TickToPrice(tick, d)) == Some(TickToPrice(-tick, Decimals(d.token1, d.token0)))
    ensures d.token0 == d.token1 ==> InvertedPrice(TickToPrice(tick, d)) == Some(TickToPrice(-tick, d))
  {
    PowNeg(TickBase, tick);
    PowNeg(10.0, d.token0 - d.token1);
    var a, b := TickPrice(tick), DecimalScale(d);
    assert 1.0 / a == TickPrice(-tick);
    assert 1.0 / b == DecimalScale(Decimals(d.token1, d.token0));
    ReciprocalOfProduct(a, b);
    assert TickToPrice(tick, d) == a * b;
    assert 1.0 / (a * b) == TickToPrice(-tick, Decimals(d.token1, d.token0));
  }

  lemma ReciprocalOfProduct(a: real, b: real)
    requires a != 0.0 && b != 0.0
    ensures 1.0 / (a * b) == (1.0 / a) * (1.0 / b)
  {
  }
}
