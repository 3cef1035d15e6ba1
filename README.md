# gdax-bot in Dafny

A model of the trading core of gdax-bot, a bot for the GDAX (Coinbase Pro) BTC-USD market:

- **Signal buffer** (`DataStore`). Trade messages feed a traded-size accumulator and a notional accumulator. Once per tick a `Snapshot` is built from the top of the order book and those accumulators. Its derived signals (price deltas, volume contributions, average trade price, mid-price basis MPB, order imbalance ratio OIR, volume order imbalance VOI) are computed against the record two back in the buffer. The snapshot is then appended to a buffer trimmed to `recordSize + 1` entries. When the buffer holds exactly `recordSize` records, it is turned into lagged feature series and a forward rolling-mean label. A linear model is fitted to them: one simple regression per feature, from running sums.
- **Position bookkeeping** (`Manager`). The position (1 long, 0 out) comes with the previous position that its setter remembers. The manager also keeps the fields that track the open order, the running profit, and the account balances. Balances are looked up across profiles, last match wins.
- **Decision state machine** (`LinearStrategy`). It smooths the model's prediction and decides on each tick whether to move, open or close an order. It then settles the exchange's answer on the manager.
- **Trader listeners** (index.ts). These are the event handlers that turn the exchange's reports about the bot's own orders into manager transitions, or into a fatal stop.
- **Small pieces**:
  - the `Snapshot` record with its accessor pairs;
  - the incremental RSI averages;
  - the two message-type filters;
  - the numeric configuration the services are wired with.

Modules, one per source file:

| module | file | source |
|---|---|---|
| `Common` | `common.dfy` | `Option`, `Outcome` (a value or a fatal stop) and `Side` |
| `Snapshots` | `snapshot.dfy` | lib/Snapshot.ts |
| `DataStores` | `datastore.dfy` | services/DataStore.ts |
| `Managers` | `manager.dfy` | services/Manager.ts |
| `LinearStrategies` | `strategy.dfy` | services/LinearStrategy.ts |
| `TraderListeners` | `listeners.dfy` | the Trader listeners of index.ts |
| `Rsi` | `rsi.dfy` | services/RSI.ts |
| `MessageFilters` | `filters.dfy` | filters/MessageTypeFilter.ts and filters/MyTradeFilter.ts |
| `Configuration` | `config.dfy` | the constants of index.ts |

Classes whose fields the source updates in place are Dafny classes: `DataStore`, `Manager`, `LinearStrategy` and `RSI`. Their methods carry `modifies` clauses. The snapshot, which the source builds as a plain object and fills by field assignment, is a datatype, and each setter is a field update. Prices and sizes are `real`.

**Quirks of the source the model reproduces:**
- `calculateLoss` reads the `openOrderSize` getter, and that getter returns the open *price*. So the booked profit is `(openOrderPrice - remaining) * (close - openOrderPrice)` when `remaining > 0`, not `(size - remaining) * move`.
- The accepted-order settle writes the order's *price* into `remainingOrderSize`.
- The manager's constructor sets `activeRequest` to false and then starts the first balance load, which sets it back to true before the constructor returns.
- `calculateEFPC` never writes the `EFPC` field that the guards read, so with a positive threshold no tick acts.
- RSI divides by the signed (non-positive) average loss. So its values are at most 0 or at least 100, and exactly 100 only while the average loss is 0 (JavaScript's infinite ratio).

## Model

| member | source | states |
|---|---|---|
| Snapshots.Set | lib/Snapshot.ts:24-158 | after a setter, its own getter returns the written value and every other getter returns what it returned before |
| Snapshots.GettersDetermineSnapshot | lib/Snapshot.ts:24-158 | two snapshots that agree on every getter (and on the public MPB, OIR, VOI) are equal: the getters expose the whole record |
| Snapshots.SetOwnValue | lib/Snapshot.ts:24-158 | writing a field the value its getter returns leaves the snapshot unchanged |
| Snapshots.SetTwice | lib/Snapshot.ts:24-158 | of two writes through the same setter, the later one wins |
| Snapshots.SetsCommute | lib/Snapshot.ts:2-4 | writes through two different setters (or public fields) commute, since each owns a distinct field |
| Snapshots.StoredNotDerived | lib/Snapshot.ts:40-54 | `spread` and `midPrice` are stored: setting `bid` or `ask` leaves both unchanged |
| DataStores.JsIndex | services/DataStore.ts:113-128 | the clamped `slice` index lies in `0..len` and is the index itself when already in range |
| DataStores.JsSlice | services/DataStore.ts:113-128 | `slice` is never longer than its input, is the plain subsequence for in-range bounds, and is empty when `end <= start` |
| DataStores.Zeros | services/DataStore.ts:115 | `fill(Array(n), 0)` has `n` entries, all zero |
| DataStores.Column | services/DataStore.ts:124-126 | `records.map(s => s[param])` has one entry per record, entry `i` being record `i`'s field |
| DataStores.Previous | services/DataStore.ts:195-205 | the comparison record exists iff the buffer holds at least two records, and is then the one two from the end |
| DataStores.FromBook | services/DataStore.ts:68-86 | the new snapshot takes its bid, ask and their sizes from the top of the book and its volume and turnover from the accumulators, with `spread = ask - bid` and `midPrice = (ask + bid) / 2` |
| DataStores.SetDPrice | services/DataStore.ts:195-205 | `_setDPrice` changes only `dBid` and `dAsk` |
| DataStores.SetCV | services/DataStore.ts:207-221 | `_setCV` changes only `bidCV` and `askCV` |
| DataStores.SetDVol | services/DataStore.ts:223-235 | `_setDVol` changes only `dVol` |
| DataStores.SetDTO | services/DataStore.ts:237-249 | `_setDTO` changes only `dTO` |
| DataStores.SetAvgTrade | services/DataStore.ts:251-261 | `_setAvgTrade` changes only `avgTrade` |
| DataStores.SetMPB | services/DataStore.ts:263-272 | `_setMPB` changes only `MPB` |
| DataStores.SetOIR | services/DataStore.ts:274-276 | `_setOIR` changes only `OIR` |
| DataStores.SetVOI | services/DataStore.ts:278-280 | `_setVOI` changes only `VOI` |
| DataStores.Derive | services/DataStore.ts:88-95 | the eight derivations keep book values and accumulators. Without a comparison record: every delta and contribution is 0 and `avgTrade` is the mid-price. With one: `dBid`/`dAsk` are the price deltas; `bidCV` is `bidVolume - prev.bidVolume` when `dBid = 0`, else `bidVolume` (`askCV` likewise); `avgTrade` is `dTO / dVol / 300` (with `dVol` nonzero) when the volume changed, else the previous value; `dVol`/`dTO` are the strict increase or a copy of the previous value, hence non-negative when the previous one is; `VOI = bidCV - askCV`; the OIR and MPB formulas |
| DataStores.Rolling | services/DataStore.ts:282-299 | the label series has one entry per record, and entry `k` is the mean of the `delay` mid-prices from `k` on minus mid-price `k` whenever `k + delay` is inside the buffer |
| DataStores.LastValidStep | services/DataStore.ts:286-296 | visiting record `key` replaces `lastValid` by its drift exactly when that drift is computed, and otherwise keeps it |
| DataStores.LinearDataOf | services/DataStore.ts:106-145 | four empty series unless the buffer holds exactly `recordSize` records; an empty label when `delay` is 0; the raw per-record signals when `lags` is 0 |
| DataStores.LinearDataOfFull | services/DataStore.ts:112-129 | with a full buffer and positive `lags` and `delay`, the series are the lagged signal columns and the padded, trimmed label |
| DataStores.LaggedAt | services/DataStore.ts:121-128 | a lagged column has `recordSize - lags - delay` entries, entry `j` being column entry `lags + j` |
| DataStores.LabelAt | services/DataStore.ts:113-116 | the padded, trimmed label has `recordSize - lags - delay` entries, entry `j` being the forward drift at `lags + j` |
| DataStores.FeatureAligned | services/DataStore.ts:121-129 | each lagged feature series takes entry `j` from record `lags + j` |
| DataStores.LabelAligned | services/DataStore.ts:113-116 | label entry `j` is the mean mid-price of records `lags + j .. lags + j + delay - 1` minus the mid-price of record `lags + j` |
| DataStores.LinearDataAligned | services/DataStore.ts:106-145 | full buffer with `0 < lags <= delay`: all four series have `recordSize - lags - delay` entries, and entry `j` of each comes from record `lags + j` (features) or is its forward drift (label) |
| DataStores.SumsExtend | services/DataStore.ts:319-330 | one more loop step extends each running sum and sum of products by that entry's term |
| DataStores.LinearRegression | services/DataStore.ts:147-151 | `buildLinearModel`/`_linearRegression` (lines 301-347): each coefficient is the simple least-squares slope of the label on that feature alone, and the intercept puts the model through the point of means |
| DataStores.FitOfSeries | services/DataStore.ts:336-339 | the coefficient and intercept lines over the series' sums give the three slopes and a line through the means |
| DataStores.FitOfSums | services/DataStore.ts:336-339 | over plain running sums the coefficient lines are the slope formula, and `b + Σ coeff·mean(X) = mean(Y)` |
| DataStores.InterceptThroughMeans | services/DataStore.ts:339 | the intercept line makes the fitted line pass through the point of means |
| DataStores.SlopeFromSums | services/DataStore.ts:336-338 | `(ΣXY − ΣXΣY/N)/(ΣX² − (ΣX)²/N)` over the loop's sums is the slope of the series, with nonzero denominator |
| DataStores.SlopeOfExactLine | services/DataStore.ts:336-338 | when the label is exactly `a + c·x` in a feature, that feature's coefficient is `c` |
| DataStores.DataStore.constructor | services/DataStore.ts:45-62 | empty buffer, zero counter and accumulators, process not started |
| DataStores.DataStore.LastRecord | services/DataStore.ts:64-66 | the newest record, present iff the buffer is non-empty |
| DataStores.DataStore.Write | services/DataStore.ts:153-181 | the accumulators restart from the message when the counter was 0 or had reached `recordSize` and otherwise add it; afterwards they are the size and notional sums of the messages since the last restart, and the counter is their number, in `1..recordSize` |
| DataStores.DataStore.BuildSnapshot | services/DataStore.ts:68-104 | the returned snapshot is the derivation against the record two back; the buffer becomes its untrimmed tail plus the snapshot, which is `lastRecord`; it never exceeds `recordSize + 1`; once full each call drops exactly the oldest record; every `dVol`/`dTO` in it stays non-negative |
| DataStores.DataStore.TrimToSize | services/DataStore.ts:97-99 | the shift loop leaves the last `min(len, recordSize)` records |
| DataStores.DataStore.RollingMeanMinusCurrentMidPrice | services/DataStore.ts:282-299 | the loop carrying `lastValid` yields the rolling label series |
| DataStores.DataStore.BuildLinearData | services/DataStore.ts:106-145 | returns the aligned series of the current buffer |
| Managers.LastInSome | services/Manager.ts:174-178 | the inner loop keeps `v` iff the last entry for the currency in that profile holds `v` |
| Managers.LookupNone | services/Manager.ts:171-183 | the lookup finds nothing iff no profile holds the currency |
| Managers.LookupIsLast | services/Manager.ts:171-183 | what the lookup finds is the balance of the last entry for the currency in iteration order |
| Managers.LastOccurrenceUnique | services/Manager.ts:171-183 | there is at most one last entry for a currency |
| Managers.LookupSome | services/Manager.ts:171-183 | the lookup yields `v` iff the last entry for the currency holds `v` |
| Managers.ProfitSign | services/Manager.ts:121-137 | with a positive traded size, the booked profit is positive iff the close is above the open price, and zero iff equal |
| Managers.Manager.constructor | services/Manager.ts:26-54 | no position, no previous position, no losses, no shorting; the first balance load marks a request active |
| Managers.Manager.SetPosition | services/Manager.ts:60-63 | the old position becomes the previous one, the new value is stored, nothing else changes |
| Managers.Manager.OpenOrderSize | services/Manager.ts:89-91 | the `openOrderSize` getter returns the open price |
| Managers.Manager.RollbackPosition | services/Manager.ts:117-119 | position and previous position swap; 0/1 positions stay 0/1 |
| Managers.Manager.CalculateLoss | services/Manager.ts:121-137 | the running total grows by the trade's profit, computed from the getter-read size, and is returned |
| Managers.Manager.ClosePosition | services/Manager.ts:139-146 | position 0 with the old position as previous, order fields zeroed, balance reload started |
| Managers.Manager.BeginBalanceUpdate | services/Manager.ts:185-186 | a balance request is marked active |
| Managers.Manager.BalancesSettled | services/Manager.ts:188-198 | on success the loaded balances replace the old ones; on either outcome the request is no longer active |
| Managers.Manager.GetProfile | services/Manager.ts:171-183 | the nested loop returns the last match in iteration order |
| Managers.Manager.GetBalance | services/Manager.ts:160-169 | a fatal stop iff no profile holds the currency, else the looked-up balance |
| Managers.Manager.CheckCanShort | services/Manager.ts:41-53 | a fatal stop iff BTC or USD is missing; otherwise shorting is enabled when BTC ≥ USD and is never disabled |
| LinearStrategies.Smoothed | services/LinearStrategy.ts:235-246 | the smoothed value lies between the prediction and the last value and moves half the way |
| LinearStrategies.CloseSize | services/LinearStrategy.ts:133-135 | the close size is the filled part when positive, else the size read |
| LinearStrategies.Decide | services/LinearStrategy.ts:67-160 | a fatal stop iff opening without a USD balance. Position 1 is committed iff the open guard holds with no open orders and size > 0.001, with a buy at the bid. Position 0 is committed iff the close guard holds, the open guard does not, no orders are open and the size is nonzero, with a sell at the ask. A cancel-and-replace is issued iff the move guard holds. Orders are only cancelled when open. Otherwise nothing is placed. |
| LinearStrategies.IdleAtZeroSignal | services/LinearStrategy.ts:72-124 | with a positive threshold and a zero signal no branch acts |
| LinearStrategies.KindOf | services/LinearStrategy.ts:190 | the persisted type is `close` iff the side is sell |
| LinearStrategies.Deltas | services/LinearStrategy.ts:50-57 | one recorded change per snapshot |
| LinearStrategies.DeltasTelescope | services/LinearStrategy.ts:50-57 | the recorded mid-price changes add up to the last mid-price minus the starting one |
| LinearStrategies.LinearStrategy.constructor | services/LinearStrategy.ts:36-48 | `EFPC`, `lastEFPC` and `lastMidPrice` start at 0 |
| LinearStrategies.LinearStrategy.SaveVOI | services/LinearStrategy.ts:50-65 | the row holds the VOI and the change since the last mid-price, which becomes the new last mid-price; over successive calls the recorded changes are the consecutive changes of the saved mid-prices from the initial 0, and they add up to the latest mid-price |
| LinearStrategies.LinearStrategy.CalculateEFPC | services/LinearStrategy.ts:235-246 | `lastEFPC` becomes the smoothed prediction and is returned; `EFPC` is untouched |
| LinearStrategies.LinearStrategy.StrategyRunner | services/LinearStrategy.ts:67-160 | the tick does what `Decide` says on the pre-tick manager state and commits its position through the setter; with a positive threshold it does nothing |
| LinearStrategies.LinearStrategy.ReplaceAfterCancel | services/LinearStrategy.ts:82-88 | after the cancel, a buy one cent under the ask sized by the risked USD balance, or a fatal stop without one |
| LinearStrategies.LinearStrategy.IsRejected | services/LinearStrategy.ts:217-227 | true iff the status is `rejected`, and then the positions swap |
| LinearStrategies.LinearStrategy.PlaceOrderSettled | services/LinearStrategy.ts:162-205 | no order or a rejected one leaves everything as it was (two swaps); an accepted one sets price, remaining (to the price) and size, swaps the positions once, and yields the order row |
| TraderListeners.LowerChar | index.ts:221 | ASCII lower-casing of one character |
| TraderListeners.Lower | index.ts:221 | lower-casing maps every character |
| TraderListeners.InsufficientFundsIgnoresCase | index.ts:221 | "Insufficient Funds" stops the bot; "insufficient fund" and a missing message do not |
| TraderListeners.InsufficientFundsUpperCase | index.ts:221 | "INSUFFICIENT FUNDS" stops the bot |
| TraderListeners.OnTradeExecuted | index.ts:136-152 | the remaining size becomes the larger of it and the reported size |
| TraderListeners.OnTradeFinalized | index.ts:158-170 | a sell books the profit and closes the position; a buy changes nothing else; both clear the open-orders flag; 0/1 positions stay 0/1 |
| TraderListeners.OnOrderCancelled | index.ts:180-192 | after a partial fill the open size becomes the getter-read size minus the remaining size; the flag is cleared and the positions swap |
| TraderListeners.OnOrderPlaced | index.ts:198-216 | a fatal stop with no update iff the order is a buy while in a position or a sell while out; otherwise the flag is set and, when in a position, price, size and remaining size are taken from the order |
| TraderListeners.OnPlaceOrderFailed | index.ts:218-230 | an error without a cause object throws at the log line with no update; a fatal stop iff the cause's message is insufficient funds in any case; otherwise the position toggles between 0 and 1 through the setter and the flag is cleared |
| Rsi.Diff | services/RSI.ts:27-28 | one change per price, the first one empty, then each price minus the previous |
| Rsi.SumsSigned | services/RSI.ts:30-36 | the seeded gain sum is non-negative and the loss sum non-positive |
| Rsi.Seed | services/RSI.ts:30-39 | the seeded averages satisfy the sign invariant |
| Rsi.StepSigned | services/RSI.ts:51-62 | `calculate` preserves avgGain ≥ 0 and avgLoss ≤ 0 |
| Rsi.StepFlat | services/RSI.ts:52-62 | a zero change only decays both averages by (p−1)/p |
| Rsi.ValueOutOfRange | services/RSI.ts:64 | with the signed loss, a defined value is at most 0 or at least 100, and it is 100 iff the average loss is 0 |
| Rsi.RiseWithoutLossGivesHundred | services/RSI.ts:51-64 | a rise while the average loss is 0 gives exactly 100, the value of JavaScript's infinite gain/loss ratio |
| Rsi.Values | services/RSI.ts:41-43 | one value per change |
| Rsi.RunSigned | services/RSI.ts:41-62 | any run of updates preserves the sign invariant |
| Rsi.ValuesOutOfRange | services/RSI.ts:41-64 | every defined value of a run is at most 0 or at least 100 |
| Rsi.Known | services/RSI.ts:41-43 | the changes after the seed, each present |
| Rsi.RSI.constructor | services/RSI.ts:12-16 | both averages start at 0 |
| Rsi.RSI.Calculate | services/RSI.ts:51-65 | the averages take one update step (decay, plus the change over `periods` on its side) and the value is computed from the updated averages |
| Rsi.RSI.SumChanges | services/RSI.ts:30-36 | the seeding map sums the positive and the negative changes |
| Rsi.RSI.CalculateEach | services/RSI.ts:41-43 | the final map runs `calculate` on each change in order and collects the values |
| Rsi.RSI.InitSignal | services/RSI.ts:23-44 | seeds from the first `periods` changes, then returns one value per remaining change, as the run of `calculate` from the seed; the averages stay signed and every value is at most 0 or at least 100 |
| MessageFilters.IndexOf | filters/MessageTypeFilter.ts:24 | -1 iff the type is not listed, else its first position |
| MessageFilters.TypeFilter | filters/MessageTypeFilter.ts:20-37 | the result is null or the same message, and the message passes iff it is present, has a non-empty type, and that type equals the string or is in the list |
| MessageFilters.TypeFilterIdempotent | filters/MessageTypeFilter.ts:33 | filtering again lets through what passed |
| MessageFilters.SingleIsOneElementList | filters/MessageTypeFilter.ts:23-31 | a string setting acts as the one-element list |
| MessageFilters.EmptyNameAdmitsNothing | filters/MessageTypeFilter.ts:28 | an empty type name lets nothing through |
| MessageFilters.TradeFilter | filters/MyTradeFilter.ts:20-33 | a listed type yields null, any other present message comes back as is, a string setting passes everything; an absent message with a list throws and is caught, returning nothing (or throwing again without a logger) |
| MessageFilters.TradeFilterComplementsTypeFilter | filters/MyTradeFilter.ts:23-29 | with the same list, the drop filter drops exactly what the keep filter keeps |
| MessageFilters.TradeFilterIdempotent | filters/MyTradeFilter.ts:29 | a message the drop filter returned is returned again |
| Configuration.ConfiguredSeries | index.ts:250-253 | with 1620 records, 5 lags and a 20-record window, a full buffer yields four series of 1595 entries: entry `j` holds the VOI, OIR and MPB of record `5 + j` and, as label, the mean mid-price of records `5 + j .. 24 + j` minus that of record `5 + j` |
| Configuration.ConfiguredStrategyIdle | index.ts:240 | with the 0.2 threshold a zero signal never acts |
| Configuration.ConfiguredOpenNeedsBalance | index.ts:118 | with risk 0.1 the open branch spends a tenth of the USD balance, so it buys iff that balance exceeds a hundredth of the bid |

## Left out

- Timers and streams: the snapshot interval, the `Writable` base and the feed pipes are not modelled. Each tick and each trade message is an explicit call to `BuildSnapshot` or `Write`.
- Exchange and order-book I/O is not modelled: the live order book, order placement and cancellation, the trader's state query, and the balance load. The top of the book, the trader's open-order state (`hasOpenOrders`), balances and order outcomes are parameters. Each promise continuation is its own method (`BalancesSettled`, `CheckCanShort`, `ReplaceAfterCancel`, `PlaceOrderSettled`), and nothing runs concurrently.
- `cancelOrders` and the cancel-then-replace in the move branch are returned as `Command`s rather than performed.
- Persistence is not modelled: the database connection, the repository saves, and the order, trade and voi entities. `SaveVOI` and `PlaceOrderSettled` return the row that would be saved. The trade-executed listener's save is not modelled.
- Floating point is not modelled. Prices and sizes are reals, so NaN and Infinity propagation, the `isFinite` carry-forward in the rolling label, `isNaN` in the close branch, and BigJS/`toNumber` conversions are absent. Each division carries a nonzero-divisor precondition instead: `Derivable`, `Fittable`, `bestBid != 0`, `periods != 0`.
- Rsi.Value: it returns `None` where the source's value is not a finite number: NaN when both averages are 0, and minus infinity when `1 + avgGain / avgLoss` is 0. With a zero average loss and a nonzero gain it returns 100, as the source does.
- Values the source leaves `undefined` are modelled as 0: the open-order fields, a snapshot's unset `size` and `price`, and the rolling label's `lastValid` before any drift is computed (so every label entry is 0 rather than `undefined` when the buffer holds no more than `delay` records).
- Logging and `printAllBalances` are not modelled, since they only print. `process.exit` becomes an `Outcome.Fatal` result (or `Decision.Halt`) with the state left as it was.
- The `precision` setting is not modelled, since no modelled operation reads it.
- pandas' `Series.diff` is modelled as consecutive differences with an empty first entry.
- services/PerformanceTracker.ts is not part of this model: it has no logic.
- filters/MessageTypeFilter.js is not part of this model: it is a compiled older version of the TypeScript filter.
- The commented-out short-selling branches and the disabled model refit are not modelled.
- DataStores.LinearDataAligned and Configuration.ConfiguredSeries assume `0 < lags <= delay` and `lags + delay <= recordSize`, which covers the configured 5 and 20. Other shapes are covered only by `LinearDataOf` itself.
- DataStores.LinearRegression requires the four series to share one length, and no feature to be constant; the source checks neither. The configured shape (1620 records, 5 lags, window 20) gives four series of equal length (`Configuration.ConfiguredSeries`), but other shapes need not: with `lags` 0 the features keep `recordSize` entries while the label has `recordSize - delay`. That no feature is constant is an assumption.
- TraderListeners.Lower lower-cases ASCII letters only; `toLowerCase` also folds other scripts.
- TraderListeners.OnPlaceOrderFailed: the error's `cause` is an optional object with an optional string `message`. A cause without a message (or with an empty one) toggles the position. An absent cause object makes the source throw at the log line, before any update (`Threw`).
- Only the listeners for trade-executed, trade-finalized, order-cancelled, order-placed and place-order-failed are modelled. The others only log.
