# A verified model of the backtest brokerage and of its storage keys

This project models the parts of the repository whose correctness does not show in any single
function, and proves what they keep over every run:

- **The simulated brokerage** (`cerebro/`): orders are queued per symbol, matched on each tick, split
  into child orders when they are filled in part, logged when they are finished, and settled at the end
  of the day. Cash changes inside the matcher and the position later, in the order update; the theorems
  say how the two fit together.
- **The maximum drawdown** of the analyser: a cheap daily figure with a running maximum.
- **Ordered storage keys** (`db/`): words and bytes whose order is the order of the values, composite
  keys, and prefix scans over a sorted store.
- **The snowflake id generator**: bit packing, a sequence number that wraps around, a wait loop.
- **The quote client**: tokenising, joining, paging and batching.

`dafny verify dfyconfig.toml` checks everything.

## How it is built

| file | module | what it holds |
|---|---|---|
| arithmetic.dfy, approx.dfy | Arithmetic, Approx | products and quotients; the tolerant comparisons of util/common.h and the grid on which they are exact |
| cerebro_struct.dfy, position.dfy, account.dfy | CerebroStruct, PositionTracker, Account | orders, ticks, positions, cash account |
| broker_spec.dfy | BrokerSpec | one call of the broker as a step of a state machine; runs and reachable states |
| broker_core.dfy | BrokerCore | the invariant that every step keeps |
| matching.dfy, commits.dfy, settlement.dfy | Matching, Commits, Settlement | what one order on one tick, one commit and one settlement do, in plain terms |
| broker_ledger.dfy, overdraft.dfy, pnl.dfy, tplus.dfy | BrokerLedger, Overdraft, PositionPnl, TPlusOne | money and shares over every run |
| order_sums.dfy, order_book.dfy, order_fees.dfy, fee_shares.dfy, fills.dfy, progress.dfy | OrderSums, OrderBook, OrderFees, FeeShares, FillTerms, Progress | orders and their chains of partial fills over every run |
| samples.dfy | SampleRuns | runs that end where one would not expect: the failing inputs |
| broker.dfy, backtest.dfy, trading_day.dfy | Broker, Backtest, TradingDay | the classes, which change in place; each method is proved to do the step of BrokerSpec |
| percent_loss.dfy, drawdown.dfy | PercentLoss, Drawdown | the analyser |
| bits.dfy, key_encoder.dfy, mem_comparable.dfy, byte_order.dfy, padded_string.dfy, composite_key.dfy, table_key.dfy, prefix_scan.dfy | Bits, KeyEncoder, MemComparable, ByteOrder, PaddedString, CompositeKey, TableKey, PrefixScan | keys |
| snowflake.dfy | Snowflake | the id generator |
| tokenize.dfy, paging.dfy | Tokenize, Paging | the quote client |

The brokerage is there twice on purpose. `BrokerSpec` says what one call does to the whole state, as a
function; everything about runs is proved of that. `Broker` and `Backtest` hold the objects of the
program (account, trackers, broker, backtest) with their fields, loops and calls in the program's order,
and every method's contract equates the objects' new state with the function of the old one. So a theorem
about `Run` is a theorem about the objects.

`History` inside the state holds history variables that no step reads: money that crossed the boundary,
gains of closed positions, the trades of each open position, where every order comes from, and what its
chain was charged. `Order.root` is a history variable too.

## What is assumed

- Doubles are exact reals, except that a division by zero is kept apart (`NonFinite`): emptying a position
  divides by zero, and it is proved that the resulting average price is never read. The tolerances are the
  program's own: half of 0.000001, and half of the price unit 0.01 in the price-limit checks.
- Quantities and volumes are multiples of 0.000001, the tolerance of the quantity comparisons; orders that
  are queued are for more than zero. `Approx.GridIsExact` shows why this is enough.
- Prices, amounts, slippage and commission rate are not negative.
- On a tick, a side of the book whose price is not locked at its limit offers some volume.
- Order ids come from the backtest's generator, which starts at 1000000 and counts up.
- Strategies are arbitrary: whatever valid orders are submitted, at any time. Callbacks do not submit
  orders while a queue is being matched.
- The snowflake clock does not go back, and passes every bound.

## What turned out different from what one would expect

- **Cash dividends.** A dividend without shares credits no cash: the second test at
  cerebro/cerebro_broker.cpp:570 asks for the quantity again instead of the cash. `Backtest.DividendReachesCash`
  has the exact condition, `SampleRuns.CashDividendLost` a run.
- **Commission.** It is computed for the quantity of the first partial fill only and then shared out over the
  whole chain in proportion (`FeeShares.EveryFillPaysItsShare`). When the share that a child order carries is
  within the tolerance of zero, a new commission replaces it: `FeeShares.ReplacedExactly` says in which chains,
  `OrderFees.FillKeepsFee` at which fills, and `SampleRuns.ChainFeeChanges` is a run in which the fees of a chain
  end up ten thousand times as high. `FeeShares.FeeConservation` adds up the fees of every chain, what was
  replaced included.
- **Overdraft.** The affordability check prices the commission at zero, because the filled fields are still
  zero when it is computed; the cash can go below zero (`SampleRuns.CashBelowZero`), but only by the fees and
  the tolerance (`Overdraft.OverdraftBound`), and that bound is attained (`SampleRuns.OverdraftIsSharp`).
  `Overdraft.PurchaseKeepsCash` says exactly which purchases keep the cash at zero or above.
- **Limit sales.** The limit is compared with the last price and the sale is filled at the bid, so a sale can get
  less than its limit; `FillTerms.SaleLimitsKept` says exactly when none does, and `SampleRuns.SaleBelowLimit` is a
  run in which ten shares offered at ten are sold at five.
- **Positive zero.** `in > 0` sends +0.0 to the key of all ones, behind every other number, and it decodes to
  NaN (`MemComparable.PositiveZero`). Order and round trip hold for exactly all other numbers
  (`MemComparable.FloatOrderFailsAtZero`, `MemComparable.FloatRoundTrip`). With positive zero behind infinity the
  order of the keys is that of all numbers (`MemComparable.FloatPlace`).
- **NaN.** A positive NaN can share its key with a tiny number (`MemComparable.NaNSharesKey`);
  `MemComparable.FloatKeysEqual` says exactly which patterns have the same key.
- **Index columns.** db/descriptor.h:334 and db/descriptor.h:343 take the vector they are to fill by value, so the
  callers see it empty. `TableKey.GetIndexKey` models the loop as it is meant.
- **Index sizes.** For columns of the types String, UInt8, UInt16 and UInt32, and of those that field_fixed_size
  does not know, the key gets another number of bytes than key_size counts; for all others it is the same
  (`CompositeKey.CountedRightly`). Since the unknown types count minus one, key_size can return minus one although
  no column is missing (`TableKey.OneUnknownColumn`): exactly when there is one such column more than the others
  have bytes (`TableKey.IndexKeySize`).
- **Strings in keys.** Padding forgets NULs at the end of a string and what the column's size cuts off
  (`PaddedString.TrailingNulLost`). `PaddedString.OrderKeptExactly` says exactly which strings of any length keep
  their order, and which stay apart; `PaddedString.FittingOrderKept` says it for strings that fit.
- **Initialising a generator again.** When the data centre or worker goes down within a millisecond, so do the ids
  (`Snowflake.FallingIds`); `Snowflake.IdsOfOneGenerator` says exactly when an id is larger than an earlier one.
- **Terminator as delimiter.** Tokenising a string that does not end in a delimiter reads the terminator;
  when that is itself among the delimiters, an empty token too many appears (`Tokenize.Tokens`,
  `Tokenize.TerminatorAsDelimiter`).

The branch at cerebro/cerebro_broker.cpp:825, which logs an order that is already finished when the queue is
visited, is in `BrokerSpec.ProcessOrder`. It is never taken, because every queued order is pending
(`BrokerCore.ReachableCore`), so the loop of `Broker.CerebroBroker.SweepQueue` does not repeat it.

## Model

| member | source | states |
|---|---|---|
| BrokerLedger.LedgerConservation | cerebro/cerebro_broker.cpp:42-122 | At every moment of every run, cash, frozen cash, the cost of the open positions and the fees add up to deposits less withdrawals plus dividends plus what closed positions earned |
| BrokerLedger.AccountMatchesLedger | cerebro/cerebro_broker.cpp:958-973 | After every tick and settlement the account's market value is exactly the cost of the open positions, and its own figures balance |
| BrokerLedger.RunBalanced | cerebro/cerebro_broker.h:173-207 | From any good state, no run changes the difference between what is held and what came in |
| BrokerLedger.ExecutedBalanced | cerebro/cerebro_broker.cpp:693-704 | The payment inside the matcher and the later position update of one fill balance each other |
| BrokerLedger.TotalSet | cerebro/cerebro_broker.cpp:906-941 | Changing one tracker changes a sum over all trackers by exactly that tracker's difference |
| PositionTracker.BoughtBasis | cerebro/cerebro_broker.cpp:42-69 | A purchase raises the cost of a position by exactly what was paid, and frees nothing for sale today |
| PositionTracker.SoldBasis | cerebro/cerebro_broker.cpp:70-122 | A sale within the closable quantity never throws and lowers the cost by exactly the proceeds, or takes all of it with the last share |
| PositionTracker.BoughtToday | cerebro/cerebro_broker.cpp:42-69 | Without a waiting day purchases are closable at once; in all else they are alike |
| PositionTracker.SaleThrows | cerebro/cerebro_broker.cpp:70-122 | Exactly when a sale throws: nothing is held, and something is to be sold |
| PositionTracker.MarkedKeeps | cerebro/cerebro_broker.cpp:175-186 | Marking to market changes nothing but the profit shown |
| BrokerCore.ReachableCore | cerebro/cerebro_broker.cpp:810-904 | In every reachable state no exception was thrown, no tracker offers more shares than it holds, and every queued order is an untouched pending order, oldest first |
| BrokerCore.ProcessOrderCore | cerebro/cerebro_broker.cpp:821-891 | One order on one tick stays as it was, or is finished and logged with at most one child that has a fresh id |
| BrokerCore.SweepCore | cerebro/cerebro_broker.cpp:819-903 | A queue pass visits every order once, leaves it untouched or finishes it, and visits none of the children it makes |
| BrokerCore.SplitFee | cerebro/cerebro_broker.cpp:882 | The fee a partial fill keeps and the fee its child gets back from it by division add up to the whole fee |
| OrderBook.NoOrderLost | cerebro/cerebro_broker.cpp:622-656 | Exactly the ids handed out exist; each is in the log or in the queue of one symbol, never in both |
| OrderBook.NoOrderDuplicated | cerebro/cerebro_broker.cpp:892-903 | No id is twice in a list; survivors keep their order and children stand behind them |
| OrderBook.QuantityConserved | cerebro/cerebro_broker.cpp:867-891 | Along every chain, what was filled plus the one pending or rejected member is what was ordered first |
| OrderSums.ExecutedWeights | cerebro/cerebro_broker.cpp:291-307 | A fill and its child together weigh what the order did: in quantity, in open members and in fees |
| FeeShares.EveryFillPaysItsShare | cerebro/cerebro_broker.cpp:296-307 | However many partial fills follow, each fill is charged its share, by quantity, of the commission of the first fill, unless a share was within the tolerance of zero |
| FeeShares.TheRestCarriesItsShare | cerebro/cerebro_broker.cpp:882 | And the open child order carries the share of what is left |
| FeeShares.FeeConservation | cerebro/cerebro_broker.cpp:340-351 | In every chain, fees charged plus the fee carried equal the commission of the first fill plus what replaced fees added, which is nothing unless a share was within the tolerance of zero |
| OrderFees.SurchargeGrows | cerebro/cerebro_broker.cpp:295-298 | A replaced fee adds the new commission less the fee that was carried; nothing else does |
| FeeShares.ReplacedExactly | cerebro/cerebro_broker.cpp:295-298 | Exactly the chains in which a carried fee was replaced: those with a filled child order whose share is within the tolerance of zero |
| OrderFees.FillKeepsFee | cerebro/cerebro_broker.cpp:430-441 | Exactly when a fill keeps the fee of its chain |
| SampleRuns.ChainFeeChanges | cerebro/cerebro_broker.cpp:392-403 | A run (deposit, order for two shares, two ticks) in which the second fill replaces the carried fee, so that the chain's fees are not the first commission |
| Matching.OrderIsMatched | cerebro/cerebro_broker.cpp:260-454 | Exactly when an order is filled, when it is refused and why, and when it waits: price limits, cash before commission, closable shares, limit reached |
| Matching.FillChanges | cerebro/cerebro_broker.cpp:289-308 | A fill's price (last price, or bid for a limit sale, and slippage), quantity and fee, what the account pays, and the order for the rest |
| Matching.FillMoves | cerebro/cerebro_broker.cpp:688-697 | What a fill does to the position: quantity, closable shares, cost, commissions; no other position changes |
| Matching.NothingMoves | cerebro/cerebro_broker.cpp:262-283 | An order that is not filled moves neither money nor shares |
| Matching.TrackersAfter | cerebro/cerebro_broker.cpp:321 | Which orders leave a tracker behind |
| Matching.HasMatcherIs | cerebro/cerebro_broker.cpp:829-841 | Exactly the symbols that find a matcher: what follows the first dot, or all without a dot, is SH or SZ |
| Matching.LoggedInOrder | cerebro/cerebro_broker.cpp:821-866 | The orders of a queue are served, and logged, in their order |
| Matching.ServedInTurn | cerebro/cerebro_broker.cpp:821-866 | Each order is judged against what those before it have left |
| Matching.TradeRecorded | cerebro/cerebro_broker.cpp:42-122 | The trades of the mark-to-market theorem are the fills since the position was empty |
| FillTerms.ChildrenContinueFills | cerebro/cerebro_broker.cpp:867-890 | In every reachable state each order with a parent has the parent's terms and exactly the quantity that partial fill left open |
| FillTerms.FinishedOrdersAreFair | cerebro/cerebro_broker.cpp:283-303 | No fill exceeds its order, no limit purchase pays more than limit, slippage and tolerance, and a rejected order moved nothing |
| FillTerms.MarketOrderFills | cerebro/cerebro_broker.cpp:366-454 | Exactly when a market order trades: not within half a price unit of its price limit, and covered by the cash before commission, or by the closable shares |
| FillTerms.PriceLimitsStopTrades | cerebro/cerebro_broker.cpp:207-251 | No purchase trades at the upper price limit and no sale at the lower one, and no limit beyond them is accepted |
| SampleRuns.SaleBelowLimit | cerebro/cerebro_broker.cpp:329-334 | A run (buy, settle, limit sale, tick) that sells ten shares at five against a limit of ten |
| FillTerms.SaleLimitsKept | cerebro/cerebro_broker.cpp:329-334 | All limits of sales are kept on a tick exactly when bid and slippage reach the last price and the tolerance |
| TPlusOne.SoldWithinHolding | cerebro/cerebro_broker.cpp:417-424 | Between two settlements of a symbol the shares sold never exceed those held at the first, whatever is bought or received meanwhile |
| TPlusOne.SettleFrees | cerebro/cerebro_broker.h:299-305 | A settlement makes everything held closable and changes no holding |
| TPlusOne.SpecialClosable | cerebro/cerebro_broker.cpp:559-574 | Dividend shares are not closable before the next settlement |
| PositionPnl.MarkToMarket | cerebro/cerebro_broker.cpp:175-186 | After a tick the profit shown is the value at the last price less net payments and fees since the position was opened |
| Settlement.SettlementShows | cerebro/cerebro_broker.cpp:1001-1025 | After a settlement every symbol with a kline shows its profit at the last close and may be sold, others are as they were, and the account shows the sums |
| PositionPnl.RunTraced | cerebro/cerebro_broker.cpp:42-121 | Every held position is the fold of its trades, over every run |
| Overdraft.OverdraftBound | cerebro/cerebro_broker.cpp:273-308 | Cash never falls below minus the fees ever charged, up to the tolerance of the comparisons |
| Overdraft.BuyIsCovered | cerebro/cerebro_broker.cpp:378-404 | An executed purchase costs no more than the cash at hand, up to that tolerance |
| Overdraft.PurchaseKeepsCash | cerebro/cerebro_broker.cpp:378-404 | Exactly when a purchase leaves the cash at zero or above: when it covers price and fee of the filled part |
| SampleRuns.CashBelowZero | cerebro/cerebro_broker.cpp:378-389 | A run (deposit, market order, tick) that ends with less than nothing in cash |
| SampleRuns.OverdraftIsSharp | cerebro/cerebro_broker.cpp:273-283 | A run with a limit order that attains the overdraft bound |
| Progress.MarketOrderFinishes | cerebro/cerebro_broker.cpp:366-454 | A lone market order of quantity Q is finished after as many ticks as volumes v go into Q, whatever else happens, and all of Q is filled by then but for what a rejected member ordered |
| Progress.LoneSellNeverShort | cerebro/cerebro_broker.cpp:321-328 | A lone sale that was covered once is never rejected for lack of closable shares later |
| Account.TransfersChargeFees | cerebro/cerebro_broker.h:94-207 | Every transfer charges its fee once, on top of what it moves, and touches nothing else |
| Commits.OrderIsQueued | cerebro/cerebro_broker.cpp:622-629 | An order goes to the end of its queue with the terms of the request, and nothing else happens |
| Commits.DoneIsRecorded | cerebro/cerebro_broker.cpp:651-655 | A deposit that is done already is only recorded |
| Commits.DepositIsPaid | cerebro/cerebro_broker.cpp:576-578 | A deposit adds price times quantity to the cash, without a fee, and is logged as filled |
| Commits.WithdrawalIsPaid | cerebro/cerebro_broker.cpp:579-581 | A withdrawal takes price times quantity if the cash covers that, and is logged as rejected without a change otherwise |
| Commits.DividendIsPaid | cerebro/cerebro_broker.cpp:559-574 | A dividend dilutes the position and pays its cash, if it has shares, and is logged as filled |
| Commits.CancelDoesNothing | cerebro/cerebro_broker.cpp:553-561 | Cancelling and amending are logged as filled and do nothing |
| Commits.TradeMeets | cerebro/cerebro_broker.cpp:727-768 | An order of buy or sell without a price trades at once when nothing speaks against it; one with a price waits for that price |
| Broker.CerebroAccountWrap.AddCash | cerebro/cerebro_broker.h:94-97 | The method does the account step in place |
| Broker.CerebroAccountWrap.WithdrawCash | cerebro/cerebro_broker.h:150-163 | Succeeds exactly when the cash covers the amount, and changes nothing otherwise |
| Broker.CerebroAccountWrap.TransformMarketValueToCash | cerebro/cerebro_broker.h:187-196 | Moves the proceeds from market value to cash and charges the fee once |
| Broker.CerebroAccountWrap.TransformCashToMarketValue | cerebro/cerebro_broker.h:198-207 | Moves the price from cash to market value and charges the fee once |
| Broker.CerebroPositionTracker.Buy | cerebro/cerebro_broker.cpp:42-69 | The in-place purchase is the specified one |
| Broker.CerebroPositionTracker.Sell | cerebro/cerebro_broker.cpp:70-122 | The in-place sale is the specified one, or fails without a change |
| Broker.CerebroPositionTracker.Update | cerebro/cerebro_broker.cpp:175-201 | The in-place marking is the specified one |
| Broker.CerebroPositionTracker.Settle | cerebro/cerebro_broker.h:299-317 | Marks the position at the close and frees all of it |
| Broker.CerebroBroker.GetLongTracker | cerebro/cerebro_broker.h:457-472 | Finds the tracker of a symbol, or makes a T+1 one and leaves the others alone |
| Broker.CerebroBroker.ProcessLimitOrder | cerebro/cerebro_broker.cpp:260-365 | The branches, assignments and payments amount to the specified verdict and fill |
| Broker.CerebroBroker.ProcessMarketOrder | cerebro/cerebro_broker.cpp:366-454 | The same for market orders |
| Broker.CerebroBroker.Match | cerebro/cerebro_broker.cpp:470-524 | Dispatches on the order type; unknown types are left alone with an error code |
| Broker.CerebroBroker.OnOrderUpdate | cerebro/cerebro_broker.cpp:658-724 | Delivers a fill to the tracker; the exception cannot happen for an order that the matcher filled |
| Broker.CerebroBroker.SweepQueue | cerebro/cerebro_broker.cpp:816-891 | The loop over a queue is the fold of single orders |
| Broker.CerebroBroker.ProcessNormalOrder | cerebro/cerebro_broker.cpp:810-904 | The whole pass, removal of finished orders and re-queueing of children included, is the specified one |
| Broker.CerebroBroker.PositionsMarketValue | cerebro/cerebro_broker.cpp:906-926 | The sum over the trackers, in any order of iteration |
| Broker.CerebroBroker.CurrentPositionsPnl | cerebro/cerebro_broker.cpp:928-940 | The sum of the shown profits, in any order of iteration |
| Broker.CerebroBroker.OnTick | cerebro/cerebro_broker.cpp:958-973 | One tick on the objects is one step of the state machine, and keeps the invariant |
| Broker.CerebroBroker.ProcessSpecialOrder | cerebro/cerebro_broker.cpp:549-587 | Dividends, deposits and withdrawals on the objects are the specified steps; only an uncovered withdrawal fails |
| Broker.CerebroBroker.CommitOrder | cerebro/cerebro_broker.cpp:622-656 | Queues, executes or logs an order, and nothing else |
| Broker.CerebroBroker.Trade | cerebro/cerebro_broker.cpp:727-768 | buy and sell: nothing for no quantity, else one commit with the next id |
| Broker.CerebroBroker.Settle | cerebro/cerebro_broker.cpp:1001-1025 | A settlement on the objects is one step of the state machine |
| Backtest.CerebroBacktest.constructor | cerebro/cerebro_backtest.cpp:25-61 | A new backtest is in a reachable state, with the starting cash deposited unless it goes on from another state |
| Backtest.CerebroBacktest.ProcessDividend | cerebro/cerebro_backtest.cpp:163-183 | Commits a dividend for the whole lots held, or does nothing without record or tracker |
| Backtest.CerebroBacktest.ProcessDividends | cerebro/cerebro_backtest.cpp:94-99 | Every tracker there is gets its turn exactly once |
| Backtest.CerebroBacktest.RunDay | cerebro/cerebro_backtest.cpp:86-150 | A trading day is orders, dividends, orders, ticks, orders and settlement in this sequence, and ends in a reachable state |
| Backtest.CerebroBacktest.RunAll | cerebro/cerebro_backtest.cpp:62-160 | A whole backtest is the sequence of its days, and every invariant of reachable states holds at its end |
| TradingDay.DayIsRun | cerebro/cerebro_backtest.cpp:86-150 | A day is the run of one list of events: orders, dividends, orders, before every tick its orders, orders, the settlement |
| TradingDay.DividendEventsAre | cerebro/cerebro_backtest.cpp:94-99 | The dividends of the day are exactly those of the visited trackers with a record |
| TradingDay.DividendsOnce | cerebro/cerebro_backtest.cpp:94-99 | No tracker gets two |
| TradingDay.BacktestIsRun | cerebro/cerebro_backtest.cpp:72-159 | A whole backtest is the run of the events of its days |
| TradingDay.OpeningOrderFinishes | cerebro/cerebro_backtest.cpp:101-129 | A lone market order at the opening is finished by the end of a day whose ticks offer its quantity, and all of it is filled but for what a rejected member ordered |
| Backtest.StartedWith | cerebro/cerebro_backtest.cpp:47-56 | The starting cash, its order with the first id, and nothing else; or nothing |
| Backtest.DividendKind | cerebro/cerebro_broker.cpp:791 | A dividend order without cash is a market order |
| Backtest.DividendsPaidOnce | cerebro/cerebro_backtest.cpp:94-99 | Every tracker gets the shares for the lots held before any dividend of the day, once, and none of them is closable |
| Backtest.LotsHeld | cerebro/cerebro_backtest.cpp:180 | A dividend is paid for the largest number of whole lots that the holding covers |
| Backtest.DividendReachesCash | cerebro/cerebro_broker.cpp:559-574 | Exactly when the cash of a dividend arrives: when it also hands out shares, or is for no cash |
| SampleRuns.CashDividendLost | cerebro/cerebro_broker.cpp:566-573 | A run that holds ten shares, whose dividend of five per ten shares credits nothing |
| Drawdown.RunningIsAllPairs | cerebro/example.cpp:294-329 | The running maximum of the cheap daily figures is the largest loss over all pairs of days |
| Drawdown.OneMoreDay | cerebro/example.cpp:305 | Keeping the larger of yesterday's maximum and today's figure is enough |
| Drawdown.MyAnalyzer.OnSettle | cerebro/example.cpp:294-310 | Keeps the figure equal to the all-pairs maximum |
| Drawdown.MyAnalyzer.CurrentDrawdown | cerebro/example.cpp:316-329 | Today's figure is the loss from the first global peak to the first lowest value after it |
| KeyEncoder.ToEndian16Bytes | db/key_encoder.h:18-24 | On hosts of both byte orders the swapped word has the big-endian bytes in memory |
| KeyEncoder.ToEndian32Bytes | db/key_encoder.h:26-35 | The same for 32 bits |
| KeyEncoder.ToEndian64Bytes | db/key_encoder.h:37-50 | The same for 64 bits |
| MemComparable.EncodeIntIs | db/key_encoder.h:86-117 | Flipping the sign bit shifts the integers onto the unsigned words, and flipping it again undoes that |
| MemComparable.IntOrder | db/key_encoder.h:86-117 | Unsigned order of the encodings is integer order |
| MemComparable.Infinities | db/key_encoder.h:119-156 | The patterns of infinity and of the sign in single and double precision (section 3.4 of IEEE 754-2008) |
| MemComparable.MagnitudeDoubles | db/key_encoder.h:119-156 | One more in the exponent doubles a number |
| MemComparable.SmallMagnitude | db/key_encoder.h:119-156 | Numbers without an exponent, and with the first one, are their own pattern, in units of the smallest |
| MemComparable.FloatOrder | db/key_encoder.h:119-147 | For all numbers but +0.0, unsigned order of the encodings is numeric order, with -0.0 between negatives and positives |
| MemComparable.FloatOrderFailsAtZero | db/key_encoder.h:124 | Of two numbers in order the encodings are in order exactly when the smaller one is not +0.0 |
| MemComparable.FloatRoundTrip | db/key_encoder.h:131-156 | Decoding gives a pattern back exactly when it has the sign bit, or is neither +0.0 nor NaN |
| MemComparable.FloatPlace | db/key_encoder.h:119-147 | Over all numbers, unsigned order of the encodings is numeric order with positive zero behind infinity |
| MemComparable.FloatKeysEqual | db/key_encoder.h:119-147 | Exactly which bit patterns, NaN included, have the same key |
| MemComparable.NaNSharesKey | db/key_encoder.h:119-129 | A NaN with the key of the smallest positive number |
| MemComparable.PositiveZero | db/key_encoder.h:122-129 | +0.0 gets the largest key of all and decodes to NaN |
| CompositeKey.BigEndianOrder | db/key_encoder.h:26-50 | Big-endian bytes compare like the words |
| PaddedString.PaddedOrder | db/mut_table_key.h:147-155 | Padded strings of any length compare like what the column keeps of them, and are equal exactly when that is |
| PaddedString.OrderKeptExactly | db/mut_table_key.h:147-155 | Exactly which strings, of any length, keep their order in the key, and which are still told apart |
| PaddedString.FittingOrderKept | db/mut_table_key.h:147-155 | Of strings that fit, exactly those lose their order that differ only in NULs at their ends |
| PaddedString.TrailingNulLost | db/mut_table_key.h:147-155 | Two strings in order that get the same key |
| CompositeKey.CountedRightly | db/descriptor.cpp:9-37 | Exactly the column types for which the key gets as many bytes as the index counts |
| CompositeKey.SizesOfOthers | db/descriptor.cpp:9-37 | Sizes of the columns that nothing, or a string, is appended for |
| CompositeKey.KeyHasSize | db/descriptor.cpp:39-51 | Over such columns every key has the size that key_size computes, whatever the values |
| CompositeKey.ColumnOrder | db/descriptor.h:677-717 | For each column type, and all its values but NaN, the bytes compare like the values, and are equal exactly when the key keeps the same of them |
| CompositeKey.PlainOrder | db/descriptor.h:677-717 | For numbers other than positive zero and strings that fit and do not end in NUL, that order is the values' own |
| CompositeKey.KeysSortLikeTuples | db/descriptor.cpp:39-51 | Composite keys sort like the tuples of their columns, are equal exactly when they keep the same of the tuples, and have the computed size |
| CompositeKey.PlainTuplesApart | db/descriptor.cpp:54-90 | Tuples of such values have the same key only when they are the same |
| CompositeKey.TicksReplayInOrder | cerebro/cerebro_persist.cpp:11-39 | Recorded ticks replay by date, then time, then symbol, as far as 16 bytes keep it |
| TableKey.MutTableKey.AppendI32 | db/mut_table_key.h:75-79 | Appends the column's bytes in place |
| TableKey.MutTableKey.AppendDouble | db/mut_table_key.h:119-123 | Appends the column's bytes in place |
| TableKey.MutTableKey.AppendFixedChar | db/mut_table_key.h:147-155 | Appends the string, cut or padded to the column's size |
| TableKey.FieldAppendValue | db/descriptor.h:677-717 | Dispatches on the type and appends exactly the column's bytes, whatever the value |
| TableKey.GetIndexKey | db/descriptor.cpp:55-90 | Builds the composite key of a row, or tells a missing value, with the columns before it appended, from a missing column |
| TableKey.IndexKeySize | db/descriptor.cpp:39-51 | The summed size of the columns; minus one exactly when the table lacks a column, or has one column of an unknown type more than the others have bytes |
| TableKey.OneUnknownColumn | db/descriptor.cpp:33-51 | An index over one column that exists and gets the size minus one |
| PrefixScan.PrefixContiguous | db/db.cpp:88-94 | Between the prefix and a key that has it, every key has it |
| PrefixScan.Scan | db/db.cpp:84-101 | Seeking and stopping at the first other key finds exactly the keys with the prefix |
| PrefixScan.OpenTables | db/db.cpp:84-101 | In a catalogue of database and table keys, a key is found exactly when it is a key of a table of that database |
| PrefixScan.InitDatabases | db/db.cpp:29-48 | In such a catalogue, a key is found exactly when it is a database's |
| PrefixScan.TableKeysApart | db/descriptor.h:430-436 | Table keys are equal exactly when all three ids are |
| PrefixScan.EntriesApart | db/descriptor.h:550-555 | Every database and every table has a key of its own |
| PrefixScan.TableFoundOnce | db/db.cpp:84-101 | A table in the catalogue is found exactly once, and its key is no other entry's |
| PrefixScan.CatalogueBytes | db/descriptor.h:12-13 | The first four bytes of the catalogue's keys |
| PrefixScan.PrefixIsDatabase | db/descriptor.h:430-436 | A table's key has the prefix of a database exactly when it is that database's table |
| PrefixScan.DatabaseKeyIsNoTable | db/descriptor.h:550-555 | No database's key is found by a scan for tables |
| PrefixScan.GetTableKey | db/descriptor.h:430-436 | The appended words are the fixed-width key |
| Snowflake.FieldsFill | cerebro/snowflake.h:23-31 | The fields fill the 63 bits above the sign: 41, 5, 5 and 12 |
| Snowflake.OrIsSum | cerebro/snowflake.h:84-87 | The union of the shifted fields is their sum |
| Snowflake.PackIsLossless | cerebro/snowflake.h:84-87 | Time, data centre, worker and sequence can be read back from every id |
| Snowflake.SignOfId | cerebro/snowflake.h:84-87 | Exactly at which times ids are not negative |
| Snowflake.LimitIsSharp | cerebro/snowflake.h:84 | The first timestamp beyond the limit makes a negative id |
| Snowflake.IdOrder | cerebro/snowflake.h:84-87 | Ids are ordered like time, data centre, worker and sequence, and equal only when all of these are |
| Snowflake.Generator.Init | cerebro/snowflake.h:50-62 | Refuses exactly the ids that do not fit, without a change |
| Snowflake.Generator.NextId | cerebro/snowflake.h:64-88 | The id packs time, fields and sequence; the sequence goes on within a millisecond, and when it wraps around the next millisecond is waited for; every id is made later than all before it |
| Snowflake.Generator.WaitNextMillis | cerebro/snowflake.h:97-105 | Ends, with a reading past the given one |
| Snowflake.IdsIncrease | cerebro/snowflake.h:64-88 | The ids that a generator has returned increase strictly, as long as its fields stay |
| Snowflake.IdsOfOneGenerator | cerebro/snowflake.h:50-88 | No generator returns an id twice, even when it is initialised again, and exactly when a later id is larger |
| Snowflake.GeneratorsNeverCollide | cerebro/snowflake.h:64-88 | Ids returned with different data centres or workers differ |
| Snowflake.FallingIds | cerebro/snowflake.h:50-88 | A generator that is initialised again within a millisecond, and the ids fall |
| Tokenize.Tokens | cerebro/sina_api.cpp:75-92 | One token more than delimiters, no token with a delimiter, and the delimiters put back give the string; exactly when the terminator is not read as a delimiter |
| Tokenize.EachDelimiterCounts | cerebro/sina_api.cpp:82 | Each of several delimiters counts, and nothing else does |
| Tokenize.TwoDelimiters | cerebro/sina_api.cpp:75-92 | A string with two kinds of delimiters, one behind the other |
| Tokenize.TerminatorAsDelimiter | cerebro/sina_api.cpp:89-91 | The tokeniser on the empty string with the terminator for a delimiter gives two tokens |
| Tokenize.SplitUnique | cerebro/sina_api.cpp:75-92 | Only one list of tokens has these properties |
| Tokenize.SplitUndoesJoin | cerebro/sina_api.cpp:326-336 | Splitting a joined page of comma-free codes gives back that page |
| Paging.Batches | cerebro/mdlink.cpp:280-320 | Batches of 30 and a rest that is not empty, which together are the list |
| Paging.PageOf | cerebro/sina_api.cpp:324-336 | A page is a slice of the list, its index is always in range, and its URL is the joined page |
| Paging.GetQuotes | cerebro/sina_api.cpp:321-341 | The pages are the list, once and in order, all full but the last |
| Paging.UpdateQuotes | cerebro/mdlink.cpp:280-320 | All pages of all batches together are the list, once and in order |
| Paging.PageSplitsBack | cerebro/sina_api.cpp:326-336 | A page's URL splits back into the page's codes, and does not end in a comma |
| Paging.InnerCodeIs | cerebro/sina_api.cpp:242-255 | The exchange's letters and the first six characters |
| Paging.ExtendCodeIs | cerebro/sina_api.cpp:257-268 | The six characters behind the letters, and the exchange |
| Paging.CodeRoundTrip | cerebro/sina_api.cpp:242-268 | Exactly the codes that survive the conversion to the inner form and back |

## Left out

- Rounding of doubles, and NaN in prices and price limits: exact reals stand for doubles.
- Ticks with no volume on a side that is not locked: the program divides zero by zero there (cerebro/cerebro_broker.cpp:882).
- Units and unit value of the account: the re-computation at cerebro/cerebro_broker.h:144 and 160 does not follow the formula of the struct comment; the drawdown theorem takes any positive unit values.
- Frozen-cash helpers, margins, equity and trading profit: nothing in the matching reads or calls them; frozen cash is a constant zero.
- Short positions, sell_short and buy_to_cover: the matchers reject them and no short tracker is ever made.
- remove_tracker: as settle calls it, it erases nothing.
- cancel_order and process_order_amend, which have no bodies, and the settle without arguments.
- Creation and modification times, trading dates, open and close dates of positions.
- Order callbacks, and callbacks that submit orders while a queue is being matched.
- Truncation of the lot count to 32 bits in process_dividend.
- The matcher objects: both exchanges match alike, so their methods are methods of the broker here; a symbol of another exchange has no matcher.
- Progress.MarketOrderFinishes: the order is alone in its queue, because with others the volume of a tick is offered to each of them again.
- Overdraft.OverdraftBound: the bound has the slack of the tolerant comparisons, half of 0.000001 on cash and on the price of the largest order; OverdraftIsSharp attains it.
- Broker.CerebroAccountWrap.WithdrawCash: leaves out the re-computed units (cerebro/cerebro_broker.h:159-161).
- Broker.CerebroAccountWrap.TransformMarketValueToCash: leaves out the unit value (cerebro/cerebro_broker.h:194).
- Broker.CerebroAccountWrap.TransformCashToMarketValue: leaves out the unit value (cerebro/cerebro_broker.h:205).
- Broker.CerebroBroker.ProcessSpecialOrder: leaves out the units that deposits and withdrawals re-compute.
- Broker.CerebroPositionTracker.Sell: leaves out trading_pnl, which is only recorded.
- Broker.CerebroPositionTracker.Settle: leaves out the opening and closing dates, which are only recorded.
- CompositeKey.KeysSortLikeTuples: leaves out NaN, which has no place in an order, and columns of the types UInt8, UInt16, UInt32 and DateTime, for which nothing is appended, and String, which has no fixed length.
- Conversion of stored values to the column type: a value is taken to be of its column's type.
- RocksDB, TLV and varint coding, descriptor serialisation and catalogue ids: the store is a sorted list of byte strings.
- Drawdown.MyAnalyzer.OnSettle: annualised and accumulated return and the win rate are plain formulas.
- KLineGenerator, on_quote, parse_quote, HTTP, JSON, MySQL, Arrow, threads and logging.
- The quote player, which only orders the stored ticks.
