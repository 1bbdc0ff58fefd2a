/** The liquidity manager: on every call it refreshes the shared position
    tracker, compares the pool price with the exit threshold and, the first
    time the price is below it, withdraws the whole position, collects the
    fees and swaps one token for the other.

    The transactions themselves (decreaseLiquidity, collectFees, swapTokens)
    are foreign calls; each becomes an entry of the ghost log `actions`, and
    whether the awaited call resolved or rejected is a parameter. */
module LiquidityManager {
  import opened Wrappers
  import opened Reals
  import opened StopLossThreshold
  import PT = PositionTracker

  /** A transaction the manager issues. */
  datatype Action =
    | DecreaseLiquidity(positionId: nat, all: bool)
    | CollectFees(positionId: nat)
    | SwapTokens(tokenIn: string, tokenOut: string, fee: nat, amountIn: real)

  /** The options of stopLoss: `test` stops before any transaction, `inverse`
      swaps token1 for token0 instead of token0 for token1. */
  datatype Options = Options(test: bool, inverse: bool)

  /** The fraction of the range below its top at which the position exits
      when the caller gives none. */
  const DefaultFractionToBottom: real := 0.6

  /** The trigger: the price strictly below the threshold. */
  predicate BelowStopLoss(price: real, upper: real, lower: real, fractionToBottom: real) {
    price < StopLossPrice(upper, lower, fractionToBottom)
  }

  /** The swap of an exit: the whole balance of the token going in, at the
      position's fee tier. */
  function ExitSwap(token0: string, token1: string, fee: nat, balance0: real, balance1: real, inverse: bool): (a: Action)
    ensures a.SwapTokens? && a.fee == fee
    ensures !inverse ==> a.tokenIn == token0 && a.tokenOut == token1 && a.amountIn == balance0
    ensures inverse ==> a.tokenIn == token1 && a.tokenOut == token0 && a.amountIn == balance1
  {
    if inverse then SwapTokens(token1, token0, fee, balance1)
    else SwapTokens(token0, token1, fee, balance0)
  }

  /** The transactions withdraw issues: decreaseLiquidity for all of the
      liquidity, then collectFees, which is not reached when the first
      rejects. */
  function WithdrawActions(positionId: nat, decreaseOk: bool): (r: seq<Action>)
    ensures 1 <= |r| <= 2 && r[0] == DecreaseLiquidity(positionId, true)
    ensures |r| == 2 <==> decreaseOk
    ensures |r| == 2 ==> r[1] == CollectFees(positionId)
  {
    [DecreaseLiquidity(positionId, true)] + if decreaseOk then [CollectFees(positionId)] else []
  }

  /** The transactions of an exit: withdraw, then the swap, which is not
      reached when withdraw rejects. */
  function ExitActions(positionId: nat, swap: Action, decreaseOk: bool, collectOk: bool): (r: seq<Action>)
    requires swap.SwapTokens?
    ensures |WithdrawActions(positionId, decreaseOk)| <= |r|
    ensures r[..|WithdrawActions(positionId, decreaseOk)|] == WithdrawActions(positionId, decreaseOk)
    ensures Withdrawals(r) == 1
    ensures Collects(r) == (if decreaseOk then 1 else 0)
    ensures Swaps(r) == (if decreaseOk && collectOk then 1 else 0)
    ensures decreaseOk && collectOk ==> r == [DecreaseLiquidity(positionId, true), CollectFees(positionId), swap]
    ensures !(decreaseOk && collectOk) ==> r == WithdrawActions(positionId, decreaseOk)
  {
    var w := WithdrawActions(positionId, decreaseOk);
    var r := w + if decreaseOk && collectOk then [swap] else [];
    assert r[..|w|] == w;
    CountsAppend(w, if decreaseOk && collectOk then [swap] else []);
    CountsAppend([DecreaseLiquidity(positionId, true)], if decreaseOk then [CollectFees(positionId)] else []);
    r
  }

  /** The number of decreaseLiquidity transactions in a log. */
  function Withdrawals(log: seq<Action>): nat {
    if log == [] then 0 else (if log[0].DecreaseLiquidity? then 1 else 0) + Withdrawals(log[1..])
  }

  /** The number of collectFees transactions in a log. */
  function Collects(log: seq<Action>): nat {
    if log == [] then 0 else (if log[0].CollectFees? then 1 else 0) + Collects(log[1..])
  }

  /** The number of swaps in a log. */
  function Swaps(log: seq<Action>): nat {
    if log == [] then 0 else (if log[0].SwapTokens? then 1 else 0) + Swaps(log[1..])
  }

  /** The counts add up over a concatenation. */
  lemma {:induction false} CountsAppend(a: seq<Action>, b: seq<Action>)
    ensures Withdrawals(a + b) == Withdrawals(a) + Withdrawals(b)
    ensures Collects(a + b) == Collects(a) + Collects(b)
    ensures Swaps(a + b) == Swaps(a) + Swaps(b)
  {
    if a != [] {
      assert (a + b)[1..] == a[1..] + b;
      CountsAppend(a[1..], b);
    } else {
      assert a + b == b;
    }
  }

  /** Within an ordered range and for a fraction in [0, 1]: a price at or
      above the top never triggers, a price below the bottom always does, and
      a price exactly at the threshold does not. */
  lemma TriggerBounds(price: real, upper: real, lower: real, fractionToBottom: real)
    requires lower <= upper && 0.0 <= fractionToBottom <= 1.0
    ensures price >= upper ==> !BelowStopLoss(price, upper, lower, fractionToBottom)
    ensures price < lower ==> BelowStopLoss(price, upper, lower, fractionToBottom)
    ensures !BelowStopLoss(StopLossPrice(upper, lower, fractionToBottom), upper, lower, fractionToBottom)
  {
  }

  /** With the default fraction the threshold is 40% of the range above its
      bottom. */
  lemma DefaultThreshold(upper: real, lower: real)
    ensures StopLossPrice(upper, lower, DefaultFractionToBottom) == lower + 0.4 * (upper - lower)
  {
  }

  class LiquidityManager {
    const tracker: PT.PositionTracker
    /** Set on the first exit and never reset, so that a position is exited
        at most once. */
    var exited: bool
    /** The transactions issued so far, in order. */
    ghost var actions: seq<Action>

    constructor (tracker: PT.PositionTracker)
      ensures this.tracker == tracker && !exited && actions == []
      ensures Valid()
    {
      this.tracker := tracker;
      exited := false;
      actions := [];
    }

    /** The manager has withdrawn exactly when it has exited, once, and has
        collected fees and swapped at most that once. */
    ghost predicate Valid()
      reads this
    {
      && Withdrawals(actions) == (if exited then 1 else 0)
      && Collects(actions) <= Withdrawals(actions)
      && Swaps(actions) <= Withdrawals(actions)
    }

    /** The refreshed tracker's price is below the threshold of its range. */
    ghost predicate Triggered(fractionToBottom: real)
      reads tracker
    {
      BelowStopLoss(tracker.pool.price, tracker.position.priceUpperBound,
                    tracker.position.priceLowerBound, fractionToBottom)
    }

    /** The swap an exit makes with the refreshed tracker's data. */
    ghost function TrackerSwap(inverse: bool): (a: Action)
      reads tracker
      ensures a.SwapTokens?
    {
      ExitSwap(tracker.token0.address, tracker.token1.address, tracker.position.fee,
               tracker.position.token0Balance, tracker.position.token1Balance, inverse)
    }

    /** withdraw: decreaseLiquidity of all the liquidity, then collectFees,
        for the tracker's position. Calling it directly, outside stopLoss,
        does not touch `exited`. */
    method Withdraw(decreaseOk: bool, collectOk: bool) returns (ok: bool)
      modifies this`actions
      ensures actions == old(actions) + WithdrawActions(tracker.position.positionId, decreaseOk)
      ensures ok <==> decreaseOk && collectOk
    {
      var positionId := tracker.position.positionId;
      actions := actions + [DecreaseLiquidity(positionId, true)];
      if !decreaseOk {
        return false;
      }
      actions := actions + [CollectFees(positionId)];
      ok := collectOk;
    }

    /** The exit itself: set `exited`, withdraw, and when both withdraw
        transactions resolve swap the balance of the token going in. */
    method Exit(inverse: bool, decreaseOk: bool, collectOk: bool, swapOk: bool) returns (ok: bool)
      requires Valid() && !exited
      modifies this`exited, this`actions
      ensures Valid() && exited
      ensures actions == old(actions) + ExitActions(tracker.position.positionId, TrackerSwap(inverse), decreaseOk, collectOk)
      ensures ok <==> decreaseOk && collectOk && swapOk
    {
      exited := true;
      var tokenIn := if inverse then tracker.token1.address else tracker.token0.address;
      var tokenOut := if inverse then tracker.token0.address else tracker.token1.address;
      var amountIn := if inverse then tracker.position.token1Balance else tracker.position.token0Balance;
      ghost var before := actions;
      var withdrawn := Withdraw(decreaseOk, collectOk);
      if !withdrawn {
        CountsAppend(before, actions[|before|..]);
        assert actions == before + ExitActions(tracker.position.positionId, TrackerSwap(inverse), decreaseOk, collectOk);
        return false;
      }
      actions := actions + [SwapTokens(tokenIn, tokenOut, tracker.position.fee, amountIn)];
      assert actions == before + ExitActions(tracker.position.positionId, TrackerSwap(inverse), decreaseOk, collectOk);
      CountsAppend(before, actions[|before|..]);
      ok := swapOk;
    }

    /** stopLoss: refresh the tracker (the pool answers `slot0`, the
        position manager `info`), compute the threshold and the trigger, and
        on the first trigger outside test mode exit: set `exited`, withdraw,
        and swap the balance of the token going in, as the refresh computed
        it. A refresh that fails (a zero square-root price cannot be
        inverted) rejects before the trigger is computed. `ok` is false when
        the refresh or one of the transactions rejects. */
    method StopLoss(fractionToBottom: real, options: Options, slot0: PT.Slot0, info: PT.PositionInfo,
                    sqrt: real -> real, decreaseOk: bool, collectOk: bool, swapOk: bool) returns (ok: bool)
      requires IsSqrt(sqrt) && Valid()
      modifies this`exited, this`actions, tracker
      ensures Valid()
      ensures old(exited) ==> exited
      ensures slot0.sqrtPriceX96 == 0 ==> !ok && exited == old(exited) && actions == old(actions)
      ensures slot0.sqrtPriceX96 != 0 ==> tracker.Refreshed(sqrt)
      ensures tracker.pool.sqrtRatioX96 == Some(slot0.sqrtPriceX96) && tracker.pool.tick == slot0.tick
      ensures tracker.position.tickLower == info.tickLower && tracker.position.tickUpper == info.tickUpper
      ensures tracker.position.fee == info.fee && tracker.position.liquidity == info.liquidity
      ensures tracker.position.positionId == old(tracker.position.positionId)
      ensures tracker.token0 == old(tracker.token0).(address := info.token0)
      ensures tracker.token1 == old(tracker.token1).(address := info.token1)
      ensures tracker.initialized == old(tracker.initialized)
      ensures slot0.sqrtPriceX96 == 0 ==>
        && tracker.pool.price == old(tracker.pool.price)
        && tracker.pool.invertedPrice == old(tracker.pool.invertedPrice)
        && tracker.position.priceLowerBound == old(tracker.position.priceLowerBound)
        && tracker.position.priceUpperBound == old(tracker.position.priceUpperBound)
        && tracker.position.token0Balance == old(tracker.position.token0Balance)
        && tracker.position.token1Balance == old(tracker.position.token1Balance)
      ensures slot0.sqrtPriceX96 != 0 ==>
        var fires := !options.test && !old(exited) && Triggered(fractionToBottom);
        && exited == (old(exited) || fires)
        && actions == old(actions) +
             (if fires then ExitActions(tracker.position.positionId, TrackerSwap(options.inverse), decreaseOk, collectOk)
              else [])
        && (ok <==> !fires || (decreaseOk && collectOk && swapOk))
    {
      var refreshed := tracker.UpdateBalances(slot0, info, sqrt);
      if !refreshed {
        return false;
      }
      var price := tracker.pool.price;
      var upperPrice := tracker.position.priceUpperBound;
      var lowerPrice := tracker.position.priceLowerBound;
      var belowStopLossPrice := price < StopLossPrice(upperPrice, lowerPrice, fractionToBottom);
      if options.test {
        return true;
      }
      if belowStopLossPrice {
        if exited {
          return true;
        }
        ok := Exit(options.inverse, decreaseOk, collectOk, swapOk);
        return;
      }
      return true;
    }
  }
}
