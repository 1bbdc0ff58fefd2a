# lptoolz stop-loss bot, modelled in Dafny

lptoolz watches one Uniswap v3 concentrated-liquidity position. On every swap
in the pool it refreshes a single position tracker, which holds the pool
price, the price range of the position and the token balances implied by its
liquidity. It then compares the price with a threshold a fraction of the way
down the range. The first time the price falls below the threshold, it
withdraws all the liquidity, collects the fees and swaps one token for the
other. Next to this sit:

- an older, inverted-price variant of the stop-loss check;
- an impermanent-loss estimator;
- a WebSocket provider that reconnects and re-sends what was pending on the
  dropped socket.

The model covers these pieces:

- `PriceOracle` (`price_oracle.dfy`): the pool price from a Q64.96
  square-root price, price inversion and tick-to-price conversion, each
  corrected for the tokens' decimals.
- `PositionTracker` (`position_tracker.dfy`): the concentrated-liquidity
  reserve formula with the price clamped into the range. The tracker is a
  class whose fields the load and derive steps overwrite. Its singleton slot
  is the class `TrackerRegistry`.
- `StopLossThreshold` (`stop_loss_threshold.dfy`): the threshold
  `upper - (upper - lower) * fraction`.
- `LiquidityManager` (`liquidity_manager.dfy`): the manager class. It has
  the monotone `exited` flag and a ghost log of the transactions it issues.
- `PoolStopLoss` (`pool_stop_loss.dfy`): the inverted-bound check and its
  small checker class.
- `ImpermanentLoss` and `Helpers` (`impermanent_loss.dfy`, `helpers.dfy`):
  the closed-form loss ratio, its stablecoin special case and the exit
  estimate. The helper file's duplicate is proved equal to the main
  definition.
- `WebSocket` (`websocket.dfy`): the reconnecting provider as a state
  machine. Each socket or timer callback is a method. The pending
  subscriptions are a `seq` drained by a pop loop. The pending requests are a
  `map` drained in ascending id order by a loop.
- `Reals` and `Wrappers` (`reals.dfy`, `wrappers.dfy`): integer powers,
  the square-root property and `Option`.

Arithmetic is exact real arithmetic throughout. Two things become parameters:

- the square root (`sqrt: real -> real`), constrained by `Reals.IsSqrt`;
- every contract read: `slot0`, `positions`, the ERC-20 metadata, and
  whether each transaction resolved.

## Model

| member | source | states |
|---|---|---|
| PriceOracle.ResolveDecimals | src/domain/PriceOracle.ts:17-19 | an empty decimals array falls back to the on-chain decimals; a one-element array fails (NaN exponent); otherwise the first two entries are used |
| PriceOracle.DecimalScale | src/domain/PriceOracle.ts:20-26 | the decimals correction 10^(d0-d1) is positive |
| PriceOracle.PoolPrice | src/domain/PriceOracle.ts:24-26 | the price is never negative, and is positive exactly when the square-root price is non-zero |
| PriceOracle.GetPoolPrice | src/domain/PriceOracle.ts:15-28 | getPoolPrice fails exactly for a one-element decimals array; otherwise it is non-negative and positive exactly when the square-root price it uses (the supplied one, else slot0's) is non-zero |
| PriceOracle.SuppliedSqrtIgnoresSlot0 | src/domain/PriceOracle.ts:22-24 | with a supplied square-root price the result does not depend on slot0, and with two decimals it is PoolPrice of the supplied value |
| PriceOracle.PoolPriceDecimalCorrection | src/domain/PriceOracle.ts:20-26 | a negative decimals difference divides the share price by 10^abs(difference); equal decimals leave it unscaled |
| PriceOracle.PoolPriceDecimalStep | src/domain/PriceOracle.ts:26 | one more token0 decimal multiplies the price by 10 |
| PriceOracle.InvertedPrice | src/domain/PriceOracle.ts:42-48 | inversion fails exactly on a zero price (Big.js division by zero); otherwise result times price is 1 |
| PriceOracle.InvertTwice | src/domain/PriceOracle.ts:46 | inverting a non-zero price twice gives it back |
| PriceOracle.TickPrice | src/domain/PriceOracle.ts:77 | 1.0001^tick is positive |
| PriceOracle.TickToPrice | src/domain/PriceOracle.ts:76-77 | a tick price with the decimals correction is positive |
| PriceOracle.GetTickToPrice | src/domain/PriceOracle.ts:72-79 | tickToPrice fails exactly for a one-element decimals array, and is positive otherwise |
| PriceOracle.TickToPriceStep | src/domain/PriceOracle.ts:77 | tickToPrice(t + 1) = 1.0001 * tickToPrice(t) |
| PriceOracle.TickToPriceStrictlyIncreasing | src/domain/PriceOracle.ts:77 | the tick price order is exactly the tick order |
| PriceOracle.TickZeroIsParity | src/domain/PriceOracle.ts:77 | with equal decimals tick 0 has price 1 |
| PriceOracle.InvertTickPrice | src/domain/PriceOracle.ts:77 | the inverse of a tick price is the price of the negated tick with the decimals swapped (the same decimals when they are equal) |
| PositionTracker.ClampPrice | src/domain/PositionTracker.ts:243-250 | the reserve price is upper above the range, lower below it, the pool price inside it, and lies in [lower, upper] for an ordered range |
| PositionTracker.ReservesAboveRange | src/domain/PositionTracker.ts:244-258 | above the range the token0 reserve is exactly 0 |
| PositionTracker.ReservesBelowRange | src/domain/PositionTracker.ts:246-261 | below the range the token1 reserve is exactly 0 |
| PositionTracker.ReservesNonNegative | src/domain/PositionTracker.ts:252-261 | non-negative liquidity and an ordered range give non-negative reserves |
| PositionTracker.ReservesInsideRange | src/domain/PositionTracker.ts:252-261 | strictly inside the range, positive liquidity gives positive reserves of both tokens |
| PositionTracker.ClampedReserves | src/domain/PositionTracker.ts:243-261 | the amounts plus the virtual reserves L/sqrt(upper) of token0 and L sqrt(lower) of token1 lie on the constant-product curve x y = L^2, whose price is the clamped price |
| PositionTracker.ReservesByTick | src/domain/PositionTracker.ts:239-261 | with the three tick prices: tick above tickUpper gives no token0, tick below tickLower no token1, an ordered range with non-negative liquidity no negative amount |
| PositionTracker.ReservesAt | src/domain/PositionTracker.ts:239-261 | the raw reserves at the pool tick: zero token0 above tickUpper, zero token1 below tickLower, never negative for an ordered range and non-negative liquidity |
| PositionTracker.TokenUnit | src/domain/PositionTracker.ts:264-265 | 10^-decimals is positive and the reciprocal of 10^decimals |
| PositionTracker.TokenBalances | src/domain/PositionTracker.ts:264-265 | each balance times 10^decimals of its token is its raw reserve, and is zero, or non-negative, exactly when that reserve is |
| PositionTracker.PositionTracker.constructor | src/domain/PositionTracker.ts:57-107 | a new tracker is uninitialised with the empty pool, position and token records |
| PositionTracker.PositionTracker.LoadPoolData | src/domain/PositionTracker.ts:141-152 | the square-root price and tick of slot0 replace the pool's, nothing else changes |
| PositionTracker.PositionTracker.LoadPositionData | src/domain/PositionTracker.ts:154-178 | range, fee, liquidity and the two token addresses are replaced, nothing else changes |
| PositionTracker.PositionTracker.LoadTokenData | src/domain/PositionTracker.ts:181-206 | decimals, symbol and name of both tokens are replaced, addresses and everything else kept |
| PositionTracker.PositionTracker.DerivePoolPrices | src/domain/PositionTracker.ts:208-235 | succeeds exactly when the kept square-root price is non-zero; then price, inverse (price times inverse is 1) and both bounds agree with the loaded data and decimals; on failure nothing is written |
| PositionTracker.PositionTracker.DeriveTokenBalances | src/domain/PositionTracker.ts:237-280 | the balances become the clamped reserves scaled by each token's decimals; derived prices stay valid; only the balances change |
| PositionTracker.PositionTracker.Initialize | src/domain/PositionTracker.ts:109-122 | loads everything in order; marks the tracker initialised only when the whole load succeeds, and then all derived values agree with the loaded ones |
| PositionTracker.PositionTracker.UpdateBalances | src/domain/PositionTracker.ts:132-139 | reloads pool and position for the kept id and rederives prices and balances; token metadata other than addresses and `initialized` never change; a failed refresh leaves every derived value as it was |
| PositionTracker.TrackerRegistry.constructor | src/domain/PositionTracker.ts:103 | the singleton slot starts empty |
| PositionTracker.TrackerRegistry.GetInstance | src/domain/PositionTracker.ts:124-130 | the first call creates and stores a fresh tracker and loads it for the given id: pool from slot0, range, fee, liquidity and addresses from positions(id), the tokens' metadata; it is initialised exactly when the load succeeds; later calls return the stored tracker unchanged and ignore their arguments |
| StopLossThreshold.StopLossPrice | src/domain/LiquidityManager.ts:53-56 | for an ordered range and a fraction in [0, 1] the threshold lies in [lower, upper] |
| StopLossThreshold.StopLossEndpoints | src/domain/LiquidityManager.ts:53-56 | fraction 0 gives the upper bound, fraction 1 the lower |
| StopLossThreshold.StopLossAntitone | src/domain/LiquidityManager.ts:53-56 | a larger fraction never raises the threshold |
| StopLossThreshold.StopLossHalfWay | src/domain/impermanentLoss.ts:36 | high 2000, low 1000 and fraction 0.5 give 1500 |
| LiquidityManager.ExitSwap | src/domain/LiquidityManager.ts:102-104 | `inverse` swaps token1 to token0 with the token1 balance, otherwise token0 to token1 with the token0 balance, at the position's fee |
| LiquidityManager.WithdrawActions | src/domain/LiquidityManager.ts:25-32 | withdraw issues decreaseLiquidity for all of the liquidity, then collectFees, which a rejected decrease does not reach |
| LiquidityManager.ExitActions | src/domain/LiquidityManager.ts:108-124 | an exit is withdraw followed by the swap: exactly decreaseLiquidity, collectFees, swap when both withdraw transactions resolve, and exactly the withdraw transactions otherwise; one withdrawal, one collectFees exactly when the decrease resolves, one swap exactly when both resolve |
| LiquidityManager.TriggerBounds | src/domain/LiquidityManager.ts:57 | the strict trigger never fires at or above the top of the range or at the threshold itself, and always fires below the bottom |
| LiquidityManager.DefaultThreshold | src/domain/LiquidityManager.ts:35 | the default fraction 0.6 puts the threshold 40% of the range above its bottom |
| LiquidityManager.LiquidityManager.constructor | src/domain/LiquidityManager.ts:17-23 | a new manager has not exited and has issued nothing |
| LiquidityManager.LiquidityManager.Withdraw | src/domain/LiquidityManager.ts:25-32 | appends the withdraw transactions for the tracker's position and resolves exactly when both do |
| LiquidityManager.LiquidityManager.Exit | src/domain/LiquidityManager.ts:86-124 | sets `exited`, appends exactly one exit (withdraw, then the swap only if both withdraw transactions resolve) and resolves exactly when all three do; `Valid` is kept |
| LiquidityManager.LiquidityManager.StopLoss | src/domain/LiquidityManager.ts:34-129 | refreshes the tracker from this call's slot0 and positions answer (token metadata, position id and `initialized` kept); a failed refresh rejects with nothing issued and the derived prices and balances unchanged; the position exits exactly when not in test mode, not exited before and the refreshed price is below the threshold; `exited` never resets; the log grows by exactly that exit's transactions, built from this refresh's balances; withdrawals stay at most one, and collectFees and swaps each at most withdrawals |
| PoolStopLoss.PoolStopLossCheck | src/domain/poolStopLoss.ts:10-40 | fails exactly when the ticks are still unset or the pool price is zero; otherwise it is 1/poolPrice < threshold, the threshold interpolated between the inverted tick prices, whatever `verbose` is |
| PoolStopLoss.InvertedIsStopLossPrice | src/domain/poolStopLoss.ts:26-29 | fraction 0 gives invUpper and 1 gives invLower; from invLower the same threshold is reached with fraction 1 - fraction |
| PoolStopLoss.InvertedStopLossPrice | src/domain/poolStopLoss.ts:26-29 | the inverted threshold is the liquidity manager's interpolation with the inverted upper bound as top, and for a fraction in [0, 1] lies between the two inverted bounds |
| PoolStopLoss.ThresholdBetweenInvertedBounds | src/domain/poolStopLoss.ts:21-29 | for an ordered range of ticks the threshold lies between 1/upper price and 1/lower price and is positive |
| PoolStopLoss.CheckInRawPrices | src/domain/poolStopLoss.ts:17-39 | in raw prices the check is poolPrice > 1/threshold: true above the upper tick price, false at or below the lower one |
| PoolStopLoss.TriggerInRawPrices | src/domain/poolStopLoss.ts:39 | 1/x < t exactly when x > 1/t, for a threshold between the reciprocal bounds |
| PoolStopLoss.PoolStopLoss.constructor | src/domain/poolStopLoss.ts:42-51 | keeps fraction and position id; decimals empty and ticks unset |
| PoolStopLoss.PoolStopLoss.Init | src/domain/poolStopLoss.ts:52-56 | records both token decimals and the position's ticks, keeps fraction and id |
| PoolStopLoss.PoolStopLoss.Check | src/domain/poolStopLoss.ts:57-64 | the check on the recorded fraction, ticks and decimals; before init it fails |
| ImpermanentLoss.ImperLoss | src/domain/impermanentLoss.ts:2-20 | fails exactly on a division by zero or a square root of a negative number; otherwise ratio times denominator is -(sqrt(k) - 1)^2 |
| ImpermanentLoss.ImperLossBelowStablecoin | src/domain/impermanentLoss.ts:26-31 | equals (2 sqrt(r) - 1 - r) / (1 - sqrt(i)), which is never positive for 0 <= i < 1 |
| ImpermanentLoss.LossEstimation | src/domain/impermanentLoss.ts:35-51 | the exit price is the threshold; impLoss is imperLoss from the top of the range down to it; the scaled losses are 100, 1000 and 5000 times it; rangeFraction times high is high - low (undefined only for high 0); rangePercent is 100 times rangeFraction; for 0 < low < high and a fraction in [0, 1] the exit price lies in the range, the loss exists and is not positive and rangeFraction is in (0, 1) |
| ImpermanentLoss.EstimationInRange | src/domain/impermanentLoss.ts:35-38 | for 0 < low < high and a fraction in [0, 1] the loss down to the threshold exists and is not positive, and (high - low) / high is in (0, 1) |
| ImpermanentLoss.NumeratorIsNegativeSquare | src/domain/impermanentLoss.ts:10 | 2 sqrt(k) - 1 - k = -(sqrt(k) - 1)^2 <= 0 |
| ImpermanentLoss.NoMovementNoLoss | src/domain/impermanentLoss.ts:8-17 | an unchanged price gives a loss ratio of 0 whenever the ratio is defined |
| ImpermanentLoss.LossFromTopOfRange | src/domain/impermanentLoss.ts:11-17 | from the top of the range the denominator is 1 - sqrt(low/high) > 0, so the loss is defined and never positive |
| ImpermanentLoss.BelowStablecoinClosedForm | src/domain/impermanentLoss.ts:26-31 | imperLoss(r, 1, i, 1) reduces to (2 sqrt(r) - 1 - r) / (1 - sqrt(i)) and is never positive for 0 <= i < 1 |
| ImpermanentLoss.RangeFractionBelowOne | src/domain/impermanentLoss.ts:38 | (high - low) / high lies in (0, 1) for 0 < low < high |
| ImpermanentLoss.LossEstimationHalfWay | src/domain/impermanentLoss.ts:35-38 | high 2000, low 1000, fraction 0.5: exit at 1500, rangeFraction 0.5, loss defined and not positive |
| Helpers.ImperLoss | src/helpers.ts:2-20 | the duplicate agrees with the main definition on every input |
| Helpers.ImperLossBelowStablecoin | src/helpers.ts:26-31 | the duplicate agrees with the main definition on every input |
| Helpers.HelpersLossProperties | src/helpers.ts:2-31 | no price movement gives loss 0, and the stablecoin case has the closed form and is never positive for 0 <= i < 1 |
| WebSocket.Reversed | src/libs/WebSocket.ts:46-50 | the pop order: same length, element i is element n-1-i of the original |
| WebSocket.ReversedIsPermutation | src/libs/WebSocket.ts:46-50 | the pop order keeps every subscription with its multiplicity |
| WebSocket.AscendingIsSortedKeys | src/libs/WebSocket.ts:52 | the for-in order of the request ids has one entry per id, exactly the ids, in strictly ascending order |
| WebSocket.Payloads | src/libs/WebSocket.ts:54 | one payload per id, in the order of the ids |
| WebSocket.MergeRequests | src/libs/WebSocket.ts:32 | the merged requests have both key sets, and the closing provider's request wins on a shared id |
| WebSocket.DrainAllResult | src/libs/WebSocket.ts:52-56 | draining leaves nothing pending, hands every request to the connection and sends each payload once, in ascending id order |
| WebSocket.Connection.constructor | src/libs/WebSocket.ts:35 | a new provider carries the given chain id, is not ready, holds no subscription, request or sent payload, and runs no timer |
| WebSocket.Connection.DetectNetwork | src/libs/WebSocket.ts:35 | a provider created without a chain id takes the detected one; a given one is kept |
| WebSocket.WebSocketProvider.constructor | src/libs/WebSocket.ts:22-27 | the wrapper starts with nothing pending, no timers, and a fresh provider without chain id that is not ready, holds nothing and runs no timer |
| WebSocket.WebSocketProvider.Create | src/libs/WebSocket.ts:29-75 | the old provider's subscriptions are appended and its requests merged in (winning on a clash), and a fresh provider with the old chain id replaces it, not ready, holding nothing and running no timer |
| WebSocket.WebSocketProvider.OnOpen | src/libs/WebSocket.ts:39-57 | starts the ping interval, hands every pending subscription to the new provider in pop order and every pending request in ascending id order, leaving both buffers empty |
| WebSocket.WebSocketProvider.DrainEvents | src/libs/WebSocket.ts:46-50 | the pop loop empties the buffer; each subscription is pushed and started once, in reverse order |
| WebSocket.WebSocketProvider.DrainRequests | src/libs/WebSocket.ts:52-56 | the for-in loop empties the buffer; each request is copied to the provider and its payload sent once, in ascending id order |
| WebSocket.WebSocketProvider.SendRequest | src/libs/WebSocket.ts:53-55 | one request is copied, its payload sent, and it is deleted from the buffer |
| WebSocket.WebSocketProvider.OnPingTick | src/libs/WebSocket.ts:40-44 | a tick sends one ping and arms a 5000 ms pong deadline |
| WebSocket.WebSocketProvider.OnPong | src/libs/WebSocket.ts:59-61 | a pong clears the pong deadline |
| WebSocket.WebSocketProvider.OnPongTimeout | src/libs/WebSocket.ts:43 | a missed pong terminates the socket |
| WebSocket.WebSocketProvider.OnClose | src/libs/WebSocket.ts:63-72 | close marks the provider not ready and clears both timers; code 1000 schedules nothing, any other code exactly one reconnect after 100 ms |
| WebSocket.WebSocketProvider.OnReconnectTimer | src/libs/WebSocket.ts:70 | the reconnect timer runs create once: one pending reconnect fewer, everything taken over, and a new provider that holds nothing yet |
| WebSocket.HandOffExactlyOnce | src/libs/WebSocket.ts:46-56 | on open every subscription is started as often as it was pending, and every request id is sent exactly once |

## Left out

- Contract reads become parameters: `slot0`, `positions`, `decimals`, `symbol` and `name`. So do the transactions (decreaseLiquidity, collectFees, swapTokens), whose outcome is a flag and whose submission is a log entry. Their modules are not part of this model.
- Big.js and IEEE rounding is not modelled. `Big.div` rounds to its decimal places, and `Math.pow(1.0001, tick)`, `** 0.5` and the `2 ** 192` divisor are JavaScript numbers. All are exact reals here.
- The square root is the parameter `sqrt` with the property `IsSqrt`. Dafny cannot construct one.
- ImpermanentLoss.LossEstimation: an impLoss that JavaScript reports as NaN or an infinity is None here, and so are its three scaled copies; a rangeFraction with high 0 is None, and so is rangePercent. The exit price is always a value.
- ImpermanentLoss.ImperLoss: returns None whenever it divides by zero or takes the square root of a negative number, because infinities are not modelled. This includes the rare inputs where IEEE infinities would still give a finite JavaScript result, such as a zero numerator over an infinite denominator.
- String-to-number coercions are not modelled. Ticks, fee and sqrtPriceX96 are kept as strings in the original. The model holds them as numbers and treats an empty string as "not loaded".
- The Proxy/Reflect forwarding of the WebSocket wrapper is not modelled; it only forwards calls to the current provider.
- The real socket and timers are not modelled. Each callback is a method the environment calls.
- ethers' own open handling is not modelled. This includes setting `_wsReady` on open and its network detection, beyond `DetectNetwork`.
- WebSocket.WebSocketProvider.OnPingTick: keeps one pong-deadline flag. A deadline still armed at the next tick would be overwritten and never cleared, and that is not modelled. The deadline (5 s) expires before the next tick (10 s).
- Overlapping `stopLoss` calls triggered by swap events are not modelled. No await separates the check of `exited` from its update, so the check-and-set is one atomic step here.
- LiquidityManager.LiquidityManager.Withdraw: called outside `stopLoss`, it adds a withdrawal without setting `exited`. `Valid` (one withdrawal per exit) is kept only by `StopLoss`, so `Withdraw` does not promise it.
- The `NETWORK` environment variable and the `Token` objects built from it are not modelled. Only their addresses reach the swap.
- Logging and `verbose` are not modelled; they only select console output.
- The poolStopLoss typing defects are not modelled. Lines 21-22 use `tickToPrice` without `await`, and lines 18 and 23-24 call `getInvertedPrice` with two arguments. The model follows the evident arithmetic: awaited tick prices read with the on-chain decimals, and one-argument inversion.
- `exited` is set before the transactions are awaited, not after their receipts, and the model follows the code. A rejected withdraw or swap therefore still counts as the one exit.
- The code has no separate "sold" flag, no dump band, no stablecoin auto-quote and no single-flight lock, so none is modelled.
- The entry point (`src/index.ts`), the scripts, the compiled prototype and the transaction plumbing are not part of this model.
