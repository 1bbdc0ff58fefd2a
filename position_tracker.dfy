/** The position tracker: the one object that holds the current state of the
    monitored pool and position (price, tick, range, liquidity, token data and
    the token balances implied by them), overwritten in place on every
    refresh.

    The contract reads are parameters: `Slot0` is what the pool's `slot0()`
    returned, `PositionInfo` what the position manager's `positions(id)`
    returned, `TokenMetadata` what a token contract's `decimals()`, `symbol()`
    and `name()` returned. The square root Big.js computes is the parameter
    `sqrt`. */
module PositionTracker {
  import opened Wrappers
  import opened Reals
  import opened PriceOracle

  datatype Slot0 = Slot0(sqrtPriceX96: nat, tick: int)

  datatype PositionInfo = PositionInfo(
    tickLower: int, tickUpper: int, fee: nat, liquidity: real, token0: string, token1: string)

  datatype TokenMetadata = TokenMetadata(decimals: nat, symbol: string, name: string)

  /** The pool part of the tracker. `sqrtRatioX96` is None while it is the
      empty string the tracker starts with. */
  datatype Pool = Pool(sqrtRatioX96: Option<nat>, price: real, invertedPrice: real, tick: int)

  /** The position part of the tracker. */
  datatype Position = Position(
    positionId: nat, tickLower: int, tickUpper: int, fee: nat, liquidity: real,
    priceLowerBound: real, priceUpperBound: real, token0Balance: real, token1Balance: real)

  /** One token of the pair. */
  datatype Token = Token(address: string, decimals: nat, symbol: string, name: string)

  const InitialPool := Pool(None, 0.0, 0.0, 0)
  const InitialPosition := Position(0, 0, 0, 0, 0.0, 0.0, 0.0, 0.0, 0.0)
  const InitialToken := Token("", 0, "", "")

  /** Amounts of token0 and token1. */
  datatype Amounts = Amounts(token0: real, token1: real)

  // ---------------------------------------------------------------------
  // The reserve formula

  /** The price used for the reserves: the pool price moved into the range. */
  function ClampPrice(price: real, lower: real, upper: real): (r: real)
    ensures lower <= upper ==> lower <= r <= upper
    ensures lower <= price <= upper ==> r == price
    ensures price > upper ==> r == upper
    ensures price < lower && lower <= upper ==> r == lower
  {
    if price > upper then upper
    else if price < lower then lower
    else price
  }

  /** The concentrated-liquidity reserves for liquidity L at a price, in raw
      token units: L (sqrt(upper) - sqrt(p)) / (sqrt(p) sqrt(upper)) of token0
      and L (sqrt(p) - sqrt(lower)) of token1, at the clamped price p. With
      the virtual amounts L / sqrt(upper) of token0 and L sqrt(lower) of
      token1 added, they lie on the constant-product curve x y = L^2, and the
      price of that curve is the clamped price. */
  function ClampedReserves(sqrt: real -> real, liquidity: real, price: real, lower: real, upper: real): (r: Amounts)
    requires IsSqrt(sqrt) && price > 0.0 && lower > 0.0 && upper > 0.0
    ensures OnCurve(r, liquidity, sqrt(lower), sqrt(upper), ClampPrice(price, lower, upper))
  {
    var p := ClampPrice(price, lower, upper);
    SqrtPositive(sqrt, p);
    SqrtPositive(sqrt, upper);
    var sp, sl, su := sqrt(p), sqrt(lower), sqrt(upper);
    assert sp * sp == p;
    VirtualReserves(liquidity, p, sp, sl, su);
    Formula(liquidity, sp, sl, su)
  }

  /** The amounts `r` plus the virtual amounts L / su of token0 and L sl of
      token1 lie on the constant-product curve x y = L^2, at the price p of
      token0 in token1. */
  ghost predicate OnCurve(r: Amounts, liquidity: real, sl: real, su: real, p: real) {
    && su != 0.0
    && (r.token0 + liquidity / su) * (r.token1 + liquidity * sl) == liquidity * liquidity
    && r.token1 + liquidity * sl == p * (r.token0 + liquidity / su)
  }

  /** The two amounts of the reserve formula, on the square roots `sp`, `sl`
      and `su` of the clamped price and the range ends. */
  function Formula(liquidity: real, sp: real, sl: real, su: real): Amounts
    requires sp > 0.0 && su > 0.0
  {
    Amounts(liquidity * ((su - sp) / (sp * su)), liquidity * (sp - sl))
  }

  /** The real amounts plus the virtual ones are L / sqrt(p) of token0 and
      L sqrt(p) of token1, so their product is L^2 and their ratio p. */
  lemma VirtualReserves(liquidity: real, p: real, sp: real, sl: real, su: real)
    requires sp > 0.0 && su > 0.0 && sp * sp == p
    ensures OnCurve(Formula(liquidity, sp, sl, su), liquidity, sl, su, p)
  {
    var x, y := Formula(liquidity, sp, sl, su).token0, Formula(liquidity, sp, sl, su).token1;
    var q := (su - sp) / (sp * su);
    assert q * (sp * su) == su - sp;
    assert (q + 1.0 / su) * (sp * su) == su;
    assert q + 1.0 / su == 1.0 / sp by {
      assert (1.0 / sp) * (sp * su) == su;
      CancelFactor(q + 1.0 / su, 1.0 / sp, sp * su);
    }
    var a := liquidity / sp;
    assert x + liquidity / su == liquidity * (q + 1.0 / su);
    assert x + liquidity / su == a;
    assert y + liquidity * sl == liquidity * sp;
    assert a * sp == liquidity;
    assert a * (liquidity * sp) == liquidity * liquidity;
    assert sp * sp * a == liquidity * sp;
  }

  /** The raw reserves of the position at the pool's tick; the three prices
      are `Math.pow(1.0001, tick)` without any decimals correction. A pool
      tick above tickUpper leaves no token0, one below tickLower no token1,
      and an ordered range with non-negative liquidity never a negative
      amount. */
  function ReservesAt(sqrt: real -> real, liquidity: real, tick: int, tickLower: int, tickUpper: int): (r: Amounts)
    requires IsSqrt(sqrt)
    ensures tick > tickUpper ==> r.token0 == 0.0
    ensures tick < tickLower <= tickUpper ==> r.token1 == 0.0
    ensures liquidity >= 0.0 && tickLower <= tickUpper ==> r.token0 >= 0.0 && r.token1 >= 0.0
  {
    ReservesByTick(sqrt, liquidity, tick, tickLower, tickUpper);
    ClampedReserves(sqrt, liquidity, TickPrice(tick), TickPrice(tickLower), TickPrice(tickUpper))
  }

  /** The clamped reserves at the three tick prices, by the order of the
      ticks. */
  lemma ReservesByTick(sqrt: real -> real, liquidity: real, tick: int, tickLower: int, tickUpper: int)
    requires IsSqrt(sqrt)
    ensures var r := ClampedReserves(sqrt, liquidity, TickPrice(tick), TickPrice(tickLower), TickPrice(tickUpper));
      && (tick > tickUpper ==> r.token0 == 0.0)
      && (tick < tickLower <= tickUpper ==> r.token1 == 0.0)
      && (liquidity >= 0.0 && tickLower <= tickUpper ==> r.token0 >= 0.0 && r.token1 >= 0.0)
  {
    var p, l, u := TickPrice(tick), TickPrice(tickLower), TickPrice(tickUpper);
    PowLess(TickBase, tickUpper, tick);
    PowLess(TickBase, tick, tickLower);
    PowLess(TickBase, tickLower, tickUpper);
    if tick > tickUpper {
      ReservesAboveRange(sqrt, liquidity, p, l, u);
    }
    if tick < tickLower <= tickUpper {
      ReservesBelowRange(sqrt, liquidity, p, l, u);
    }
    if liquidity >= 0.0 && tickLower <= tickUpper {
      ReservesNonNegative(sqrt, liquidity, p, l, u);
    }
  }

  /** `Big(10).pow(-decimals)`: the value of one raw unit of a token, the
      reciprocal of 10^decimals. */
  function TokenUnit(decimals: nat): (r: real)
    ensures r > 0.0
    ensures r * Pow(10.0, decimals) == 1.0
  {
    PowNeg(10.0, decimals);
    Pow(10.0, -(decimals as int))
  }

  /** The balances: each raw reserve times 10^-decimals of its token. Scaled
      back by 10^decimals a balance is its raw reserve, and it has the sign of
      that reserve. */
  function TokenBalances(sqrt: real -> real, liquidity: real, tick: int, tickLower: int, tickUpper: int,
                         decimals0: nat, decimals1: nat): (r: Amounts)
    requires IsSqrt(sqrt)
    ensures ScaledFrom(r.token0, ReservesAt(sqrt, liquidity, tick, tickLower, tickUpper).token0, decimals0)
    ensures ScaledFrom(r.token1, ReservesAt(sqrt, liquidity, tick, tickLower, tickUpper).token1, decimals1)
  {
    var reserves := ReservesAt(sqrt, liquidity, tick, tickLower, tickUpper);
    Amounts(ScaledBalance(reserves.token0, decimals0), ScaledBalance(reserves.token1, decimals1))
  }

  /** `balance` is the raw amount `x` of a token with `decimals` decimals:
      times 10^decimals it is `x`, and it is zero, or non-negative, exactly
      when `x` is. */
  ghost predicate ScaledFrom(balance: real, x: real, decimals: nat) {
    && balance * Pow(10.0, decimals) == x
    && (balance == 0.0 <==> x == 0.0)
    && (balance >= 0.0 <==> x >= 0.0)
  }

  /** A raw amount in whole tokens. */
  function ScaledBalance(x: real, decimals: nat): (r: real)
    ensures ScaledFrom(r, x, decimals)
  {
    var unit := TokenUnit(decimals);
    UnscaleBalance(x, unit, Pow(10.0, decimals));
    ScaleKeepsSign(x, unit);
    x * unit
  }

  lemma UnscaleBalance(x: real, unit: real, scale: real)
    requires unit * scale == 1.0
    ensures x * unit * scale == x
  {
    assert x * unit * scale == x * (unit * scale);
  }

  lemma ScaleKeepsSign(x: real, unit: real)
    requires unit > 0.0
    ensures x * unit == 0.0 <==> x == 0.0
    ensures x * unit >= 0.0 <==> x >= 0.0
  {
    if x < 0.0 {
      assert (-x) * unit > 0.0;
    }
    if x > 0.0 {
      assert x * unit > 0.0;
    }
  }

  /** Above the range the position holds no token0. */
  lemma ReservesAboveRange(sqrt: real -> real, liquidity: real, price: real, lower: real, upper: real)
    requires IsSqrt(sqrt) && price > 0.0 && lower > 0.0 && upper > 0.0
    requires price > upper
    ensures ClampedReserves(sqrt, liquidity, price, lower, upper).token0 == 0.0
  {
    var su := sqrt(upper);
    SqrtPositive(sqrt, upper);
    assert (su - su) / (su * su) == 0.0;
  }

  /** Below the range the position holds no token1. */
  lemma ReservesBelowRange(sqrt: real -> real, liquidity: real, price: real, lower: real, upper: real)
    requires IsSqrt(sqrt) && price > 0.0 && lower > 0.0 && upper > 0.0
    requires price < lower <= upper
    ensures ClampedReserves(sqrt, liquidity, price, lower, upper).token1 == 0.0
  {
  }

  /** With non-negative liquidity and an ordered range both reserves are
      non-negative. */
  lemma ReservesNonNegative(sqrt: real -> real, liquidity: real, price: real, lower: real, upper: real)
    requires IsSqrt(sqrt) && price > 0.0 && lower > 0.0 && upper > 0.0
    requires liquidity >= 0.0 && lower <= upper
    ensures ClampedReserves(sqrt, liquidity, price, lower, upper).token0 >= 0.0
    ensures ClampedReserves(sqrt, liquidity, price, lower, upper).token1 >= 0.0
  {
    var p := ClampPrice(price, lower, upper);
    SqrtMonotone(sqrt, lower, p);
    SqrtMonotone(sqrt, p, upper);
    SqrtPositive(sqrt, lower);
    SqrtPositive(sqrt, p);
    SqrtPositive(sqrt, upper);
    FormulaSigns(liquidity, sqrt(lower), sqrt(p), sqrt(upper));
  }

  /** Strictly inside the range a position with liquidity holds both tokens. */
  lemma ReservesInsideRange(sqrt: real -> real, liquidity: real, price: real, lower: real, upper: real)
    requires IsSqrt(sqrt) && price > 0.0 && lower > 0.0 && upper > 0.0
    requires liquidity > 0.0 && lower < price < upper
    ensures ClampedReserves(sqrt, liquidity, price, lower, upper).token0 > 0.0
    ensures ClampedReserves(sqrt, liquidity, price, lower, upper).token1 > 0.0
  {
    assert ClampPrice(price, lower, upper) == price;
    SqrtStrictlyIncreasing(sqrt, lower, price);
    SqrtStrictlyIncreasing(sqrt, price, upper);
    SqrtPositive(sqrt, lower);
    SqrtPositive(sqrt, price);
    SqrtPositive(sqrt, upper);
    FormulaSigns(liquidity, sqrt(lower), sqrt(price), sqrt(upper));
  }

  /** The signs of the two amounts of the reserve formula, on the square
      roots of the three prices. */
  lemma FormulaSigns(liquidity: real, sl: real, sp: real, su: real)
    requires 0.0 < sl <= sp <= su
    ensures var r := Formula(liquidity, sp, sl, su);
      liquidity >= 0.0 ==> r.token0 >= 0.0 && r.token1 >= 0.0
    ensures var r := Formula(liquidity, sp, sl, su);
      liquidity > 0.0 && sl < sp < su ==> r.token0 > 0.0 && r.token1 > 0.0
  {
    var x, y := Formula(liquidity, sp, sl, su).token0, Formula(liquidity, sp, sl, su).token1;
    ProductPositive(sp, su);
    QuotientSign(su - sp, sp * su);
    if liquidity >= 0.0 {
      ProductNonNegative(liquidity, (su - sp) / (sp * su));
      ProductNonNegative(liquidity, sp - sl);
    }
    if liquidity > 0.0 && sl < sp < su {
      ProductPositive(liquidity, (su - sp) / (sp * su));
      ProductPositive(liquidity, sp - sl);
      assert y == liquidity * (sp - sl);
    }
  }

  // ---------------------------------------------------------------------
  // The tracker

  class PositionTracker {
    var initialized: bool
    var pool: Pool
    var position: Position
    var token0: Token
    var token1: Token

    constructor ()
      ensures !initialized
      ensures pool == InitialPool && position == InitialPosition
      ensures token0 == InitialToken && token1 == InitialToken
    {
      initialized := false;
      pool := InitialPool;
      position := InitialPosition;
      token0 := InitialToken;
      token1 := InitialToken;
    }

    /** The decimals the tracker passes to the price functions. */
    function TokenDecimals(): Decimals
      reads this`token0, this`token1
    {
      Decimals(token0.decimals, token1.decimals)
    }

    /** The prices agree with the loaded square-root price, ticks and decimals. */
    ghost predicate PricesDerived()
      reads this`pool, this`position, this`token0, this`token1
    {
      && pool.sqrtRatioX96.Some?
      && pool.price == PoolPrice(pool.sqrtRatioX96.value, TokenDecimals())
      && pool.price > 0.0
      && pool.invertedPrice * pool.price == 1.0
      && position.priceLowerBound == TickToPrice(position.tickLower, TokenDecimals())
      && position.priceUpperBound == TickToPrice(position.tickUpper, TokenDecimals())
    }

    /** The balances agree with the loaded liquidity, ticks and decimals. */
    ghost predicate BalancesDerived(sqrt: real -> real)
      requires IsSqrt(sqrt)
      reads this`pool, this`position, this`token0, this`token1
    {
      Amounts(position.token0Balance, position.token1Balance)
        == TokenBalances(sqrt, position.liquidity, pool.tick, position.tickLower, position.tickUpper,
                         token0.decimals, token1.decimals)
    }

    /** Everything derived agrees with everything loaded. */
    ghost predicate Refreshed(sqrt: real -> real)
      requires IsSqrt(sqrt)
      reads this`pool, this`position, this`token0, this`token1
    {
      PricesDerived() && BalancesDerived(sqrt)
    }

    /** loadPoolData: keeps the square-root price and the tick of slot0. */
    method LoadPoolData(slot0: Slot0)
      modifies this
      ensures pool == old(pool).(sqrtRatioX96 := Some(slot0.sqrtPriceX96), tick := slot0.tick)
      ensures position == old(position) && token0 == old(token0) && token1 == old(token1)
      ensures initialized == old(initialized)
    {
      pool := pool.(sqrtRatioX96 := Some(slot0.sqrtPriceX96), tick := slot0.tick);
    }

    /** loadPositionData: keeps the range, fee and liquidity of the position and
        the two token addresses; `info` is what positions(positionId) returned. */
    method LoadPositionData(info: PositionInfo)
      modifies this
      ensures position == old(position).(tickLower := info.tickLower, tickUpper := info.tickUpper,
                                         fee := info.fee, liquidity := info.liquidity)
      ensures token0 == old(token0).(address := info.token0)
      ensures token1 == old(token1).(address := info.token1)
      ensures pool == old(pool) && initialized == old(initialized)
    {
      position := position.(tickLower := info.tickLower, tickUpper := info.tickUpper,
                            fee := info.fee, liquidity := info.liquidity);
      token0 := token0.(address := info.token0);
      token1 := token1.(address := info.token1);
    }

    /** loadTokenData: keeps the decimals, symbol and name of both tokens. */
    method LoadTokenData(meta0: TokenMetadata, meta1: TokenMetadata)
      modifies this
      ensures token0 == old(token0).(decimals := meta0.decimals, symbol := meta0.symbol, name := meta0.name)
      ensures token1 == old(token1).(decimals := meta1.decimals, symbol := meta1.symbol, name := meta1.name)
      ensures pool == old(pool) && position == old(position) && initialized == old(initialized)
    {
      token0 := token0.(decimals := meta0.decimals, symbol := meta0.symbol, name := meta0.name);
      token1 := token1.(decimals := meta1.decimals, symbol := meta1.symbol, name := meta1.name);
    }

    /** derivePoolPrices: the pool price from the kept square-root price (so
        getPoolPrice does not use its own slot0 read), its inverse, and the
        prices of the two range ticks, all with the tokens' decimals. The
        inversion throws when the price is zero, before anything is written. */
    method DerivePoolPrices() returns (ok: bool)
      requires pool.sqrtRatioX96.Some?
      modifies this
      ensures ok <==> old(pool.sqrtRatioX96.value) != 0
      ensures ok ==> PricesDerived()
      ensures ok ==>
        && pool == old(pool).(price := pool.price, invertedPrice := pool.invertedPrice)
        && position == old(position).(priceLowerBound := position.priceLowerBound,
                                      priceUpperBound := position.priceUpperBound)
      ensures !ok ==> pool == old(pool) && position == old(position)
      ensures token0 == old(token0) && token1 == old(token1) && initialized == old(initialized)
    {
      var decimals := TokenDecimals();
      var price := PoolPrice(pool.sqrtRatioX96.value, decimals);
      var inverted := InvertedPrice(price);
      if inverted.None? {
        return false;
      }
      var lowerBound := TickToPrice(position.tickLower, decimals);
      var upperBound := TickToPrice(position.tickUpper, decimals);
      pool := pool.(price := price, invertedPrice := inverted.value);
      position := position.(priceLowerBound := lowerBound, priceUpperBound := upperBound);
      ok := true;
    }

    /** deriveTokenBalances: the clamped reserves at the pool's tick, scaled by
        each token's decimals. */
    method DeriveTokenBalances(sqrt: real -> real)
      requires IsSqrt(sqrt)
      modifies this
      ensures BalancesDerived(sqrt)
      ensures old(PricesDerived()) ==> PricesDerived()
      ensures position == old(position).(token0Balance := position.token0Balance,
                                         token1Balance := position.token1Balance)
      ensures pool == old(pool) && token0 == old(token0) && token1 == old(token1)
      ensures initialized == old(initialized)
    {
      var balances := TokenBalances(sqrt, position.liquidity, pool.tick, position.tickLower, position.tickUpper,
                                    token0.decimals, token1.decimals);
      position := position.(token0Balance := balances.token0, token1Balance := balances.token1);
    }

    /** initialize: the one full load, pool then position then tokens, then the
        derived prices and balances; only a load that gets to the end marks the
        tracker initialized. */
    method Initialize(positionId: nat, slot0: Slot0, info: PositionInfo,
                      meta0: TokenMetadata, meta1: TokenMetadata, sqrt: real -> real) returns (ok: bool)
      requires IsSqrt(sqrt)
      modifies this
      ensures ok <==> slot0.sqrtPriceX96 != 0
      ensures ok ==> initialized && Refreshed(sqrt)
      ensures !ok ==> initialized == old(initialized)
      ensures position.positionId == positionId
      ensures pool.sqrtRatioX96 == Some(slot0.sqrtPriceX96) && pool.tick == slot0.tick
      ensures position.tickLower == info.tickLower && position.tickUpper == info.tickUpper
      ensures position.fee == info.fee && position.liquidity == info.liquidity
      ensures token0 == Token(info.token0, meta0.decimals, meta0.symbol, meta0.name)
      ensures token1 == Token(info.token1, meta1.decimals, meta1.symbol, meta1.name)
    {
      position := position.(positionId := positionId);
      LoadPoolData(slot0);
      LoadPositionData(info);
      LoadTokenData(meta0, meta1);
      ok := DerivePoolPrices();
      if !ok {
        return;
      }
      DeriveTokenBalances(sqrt);
      initialized := true;
    }

    /** updateBalances: reloads the pool and the position (by the kept
        position id, whose answer is `info`) and derives prices and balances
        again. Token decimals, symbols and names are never reloaded, and
        `initialized` is left as it is. */
    method UpdateBalances(slot0: Slot0, info: PositionInfo, sqrt: real -> real) returns (ok: bool)
      requires IsSqrt(sqrt)
      modifies this
      ensures ok <==> slot0.sqrtPriceX96 != 0
      ensures ok ==> Refreshed(sqrt)
      ensures initialized == old(initialized)
      ensures position.positionId == old(position.positionId)
      ensures pool.sqrtRatioX96 == Some(slot0.sqrtPriceX96) && pool.tick == slot0.tick
      ensures position.tickLower == info.tickLower && position.tickUpper == info.tickUpper
      ensures position.fee == info.fee && position.liquidity == info.liquidity
      ensures token0 == old(token0).(address := info.token0)
      ensures token1 == old(token1).(address := info.token1)
      ensures !ok ==>
        && pool.price == old(pool.price) && pool.invertedPrice == old(pool.invertedPrice)
        && position.priceLowerBound == old(position.priceLowerBound)
        && position.priceUpperBound == old(position.priceUpperBound)
        && position.token0Balance == old(position.token0Balance)
        && position.token1Balance == old(position.token1Balance)
    {
      LoadPoolData(slot0);
      LoadPositionData(info);
      ok := DerivePoolPrices();
      if !ok {
        return;
      }
      DeriveTokenBalances(sqrt);
    }
  }

  /** The static `instance` slot of the tracker class. */
  class TrackerRegistry {
    var instance: PositionTracker?

    constructor ()
      ensures instance == null
    {
      instance := null;
    }

    /** getInstance: the first call creates the tracker, stores it and loads
        it for `positionId`; every later call returns that same tracker and
        ignores its arguments, also when the first load failed. */
    method GetInstance(positionId: nat, slot0: Slot0, info: PositionInfo,
                       meta0: TokenMetadata, meta1: TokenMetadata, sqrt: real -> real)
      returns (tracker: PositionTracker, ok: bool)
      requires IsSqrt(sqrt)
      modifies this
      ensures instance == tracker
      ensures old(instance) != null ==> tracker == old(instance) && ok && unchanged(tracker)
      ensures old(instance) == null ==>
        && fresh(tracker)
        && tracker.position.positionId == positionId
        && tracker.pool.sqrtRatioX96 == Some(slot0.sqrtPriceX96) && tracker.pool.tick == slot0.tick
        && tracker.position.tickLower == info.tickLower && tracker.position.tickUpper == info.tickUpper
        && tracker.position.fee == info.fee && tracker.position.liquidity == info.liquidity
        && tracker.token0 == Token(info.token0, meta0.decimals, meta0.symbol, meta0.name)
        && tracker.token1 == Token(info.token1, meta1.decimals, meta1.symbol, meta1.name)
        && (ok <==> slot0.sqrtPriceX96 != 0)
        && (ok <==> tracker.initialized)
        && (ok ==> tracker.Refreshed(sqrt))
    {
      if instance != null {
        return instance, true;
      }
      tracker := new PositionTracker();
      instance := tracker;
      ok := tracker.Initialize(positionId, slot0, info, meta0, meta1, sqrt);
    }
  }
}
