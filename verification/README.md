# Backtest and paper-trading engine

This project models the engine with which the trading bot backtests and paper-trades strategies, and proves
what holds over all of its runs. Amounts and prices are exact reals, times are integers.

How the parts fit together:

- **Wallet.** `WalletSpec` states on values what the simulated exchange does: how each kind of order is funded,
  and how a candle is offered to every order of its pair in creation order. `PaperWallets.PaperWallet` is the
  wallet with its mutable fields. Its methods follow the code branch by branch and are proved to do what
  `WalletSpec` says, although they only visit the positions listed in the index of pending orders.
- **What an order does.** `Funding` says which orders are accepted and what they tie up, `Matching` which pending
  orders a candle fills and what that pays, `Executions` when they are filled over a whole backtest, all in terms
  of prices, sizes and candles alone.
- **What a wallet run keeps.** `WalletShape` holds for every trader, `LongOnly` for traders who never sell more
  than they freely own, `Equity` for single market orders, `Valuation` for the recorded equity, `Resume` for the
  replay of an order history. All balances are compared with sums over the order history (`Ledger`).
- **Order controller.** `Positions` states on values how fills make positions, `Averages` when their order matters,
  `Settlements` what one settlement collects, `Controllers` is the controller with its storage, and `TwoLedgers`
  compares its positions with the wallet's own average prices.
- **Candles.** `Calendar` and `Feed` are the resampling of a source file, `PriorityQueues` the heap that merges
  the feeds of all pairs, `Candles` its order, `Dataframes` the strategy's dataframe and `Pipeline` the way from
  file to dataframe.
- **Backtest.** `Backtests` states on values what a whole backtest computes; `Ninjabot.BacktestCandles` is the loop
  that drives queue, wallet, controller and strategies, proved to compute just that.
- **Fibonacci strategy.** `Fibonacci` is the online swing detector and the memory that keeps a leg from being
  bought twice, `FibonacciSignals` which swings it knows and which candles it buys; `Delivery` ties it to the
  dataframes that the strategy's controller hands over. `FibonacciBacktests` runs it in a whole backtest with the
  simulated exchange as its broker, and `FibonacciTrades` says how each of its trades begins and ends.
- **Realtime sessions.** `Sessions` is the start, resume and stop protocol as a state machine over its critical
  sections, next to the class that performs the steps; `Pagination` fetches a session's candles window by window.
- **Witnesses.** `Witnesses` holds short runs from an opening wallet into the states in which the engine does the
  unexpected.

Where the code does something other than one would expect, the model follows the code. Unless noted, a lemma gives
the exact condition, in both directions, under which the expectation holds:

- A market order that covers only part of a short changes the equity, and may overdraw the quote coin
  (`Equity.MarketOrderIsNeutral`, `Equity.MarketOrderDoesNotOverdraw`; reached by `Witnesses.PartialCoverRun`).
- A market sell that crosses from long to short leaves a short of the whole amount sold, not of the remainder; in
  a pair without a price it enters no short at all (`Equity.CrossingSellShortsTheWholeAmount`,
  `Equity.UnpricedSellValue`; reached by `Witnesses.CrossingRun`, `Witnesses.UnpricedSellRun`).
- A pending buy that covers a short counts the covered part twice, as free and as locked; every other pending order
  leaves what is owned as it is (`Funding.PendingOwns`).
- A buy that covers more than half of a short sets the average of the long, and a sell of more than half of a long
  that of the short (`Funding.BuyAverages`, `Funding.SellAverages`).
- A candle that reaches both legs of a group fills the one created first, the take profit
  (`Executions.GroupExits`, `FibonacciTrades.TradeEnds`).
- Cancelling a buy while some of its asset is locked returns nothing (`LongOnly.CancelBalancesIff`; reached by
  `Witnesses.LockedCancelRun`).
- A group whose stop price differs from its limit price is filled at the one and recorded at the other, so a
  resumed session starts with a different balance. `LongOnly.HoldingsMatchReplay` gives the difference in every
  run; `Resume.ReplayAgreesIff` says exactly when there is none, for runs whose stops all lie on one side of
  their limits; reached by `Resume.SlippedRun`.
- Positions restored from history have the live sizes but not always the live average price
  (`Positions.LateFillChangesTheAverage`). That the fills of the pair were processed in order of creation suffices,
  in one direction only (`Positions.RestoreReproducesPair`). For fills all on one side the condition is exact: the
  fill created first and the fill processed first slip by the same amount (`Averages.OneSidedRestoredIff`; the
  difference is shown by `Averages.StopsSlipApart`). For two fills that change places it is exact as well, whatever
  they are (`Averages.SwapKeepsAverageIff`).
- A resumed wallet starts without average prices while the controller restores its own. From then on they agree in
  size, and in average exactly once the asset has been flat (`TwoLedgers.ResumedAveragesAgreeIff`).
- The value a fill is reported to realise is the gain of the closed part exactly for a long that is closed, or of
  which at most half is sold, or when nothing is gained (`Positions.RealizedIsGainIff`; it fails in
  `Witnesses.PartialSaleReport`).
- Storage hands the settlement the pending rows of every wallet, and each wallet numbers its orders from 1: a
  settlement applies only the wallet's own fills exactly when no pending row of another wallet carries the number
  of a filled order (`Settlements.SettlementIsOwnIff`, `Settlements.ForeignRowDoublesAFill`); over a whole run of
  settlements, exactly when none that is pending at first carries the number of an order filled at the end
  (`Settlements.RunIsOwnIff`).
- A pivot of 0 would let a broken leg be replaced in the same candle (`Fibonacci.BreakLeavesNoLegIff`).
- The drawdown is the deepest drop in value, divided by the peak it starts from. It is the largest loss exactly when
  no drop from a positive value below that peak loses a larger part (`Drawdown.ReportIsLargestLossIff`).
- Resampling crashes when no source candle starts a target period, as it reads past the end
  (`Feed.Resample`).

## Model

| member | source | states |
|---|---|---|
| Ninjabot.BacktestCandles | ninjabot.go:329-356 | For any queue, strategies and requests: every candle is processed once, in chronological order; the exchange ends with the replayed books; each pair's dataframe is what its own candles make; positions are the net of all fills |
| Ninjabot.NextRound | ninjabot.go:333-350 | One round keeps every pair's dataframe caught up with its own candles, whichever pair the candle belongs to |
| Ninjabot.ProcessCandle | ninjabot.go:333-350 | Fills are settled before the strategy reacts, and the strategy trades exactly when its controller calls it |
| Ninjabot.Deliver | ninjabot.go:347-350 | A candle reaches the dataframe as partial or complete, and whether the strategy is called is decided by the rule for its controller |
| Ninjabot.NextCandle | ninjabot.go:333-336 | The candle taken next comes before none taken earlier, and none is lost |
| Ninjabot.Settle | ninjabot.go:333-345 | After a candle's settlement every stored order has the exchange's status and each position is the net of the exchange's fills, also when the settlement is skipped because nothing is pending |
| Ninjabot.CatchUp | order/controller.go:416-460 | A settlement of a wallet's own rows leaves none that differs from the exchange, and every stored fill applied once |
| Ninjabot.PositionsAreNetOfExchange | order/controller.go:399-460 | Whenever the controller is in step, a pair's signed position is the signed sum of the exchange's filled orders |
| Ninjabot.NothingPending | exchange/paperwallet/paperwallet.go:413-422 | With an empty index no stored order can lag and no candle can fill anything |
| Ninjabot.OnlyPendingLags | order/controller.go:416-450 | After matching, only rows that the settlement looks at can differ from the exchange |
| Ninjabot.Execute | order/controller.go:529-661 | A request has on the exchange exactly the effect of the wallet's rule for it and keeps the controller in step |
| Ninjabot.Trade | order/controller.go:529-661 | A list of requests is carried out in order, each if it can be made at that point |
| Backtests.BacktestKeepsSound | ninjabot.go:329-356 | A backtest of a long-only strategy keeps every coin balanced, for all candles and requests |
| Backtests.BacktestBalances | ninjabot.go:329-356 | From an opening wallet such a backtest never overdraws a coin, locks what its pending orders need and holds what its fills moved |
| Backtests.BacktestFillsOneLeg | exchange/paperwallet/paperwallet.go:488-496 | After such a backtest one leg of a group is filled exactly when the other is cancelled |
| Backtests.BacktestSettlesForGood | exchange/paperwallet/paperwallet.go:433-520 | What is filled or cancelled after n candles keeps its status to the end of the backtest |
| PaperWallets.PaperWallet.OnCandle | exchange/paperwallet/paperwallet.go:424-524 | Working through the pending index equals offering the candle to all orders of the pair in creation order; a complete candle records the equity and each coin |
| PaperWallets.PaperWallet.MatchPending | exchange/paperwallet/paperwallet.go:433-520 | Matching by the index and cleaning it up equals the full scan, whether or not the pair has an index |
| PaperWallets.PaperWallet.MatchIndexed | exchange/paperwallet/paperwallet.go:433-520 | Visiting the indexed positions reaches the same orders and balances as the full scan |
| PaperWallets.PaperWallet.MatchOrder | exchange/paperwallet/paperwallet.go:447-514 | One order is filled, skipped or left by the rule for its side and type |
| PaperWallets.SkipTo | exchange/paperwallet/paperwallet.go:433-520 | Positions between two neighbours of the index match nothing |
| PaperWallets.PaperWallet.CancelGroup | exchange/paperwallet/paperwallet.go:488-496 | The first other order of the group is cancelled, and only that |
| PaperWallets.PaperWallet.FillBuyOrder | exchange/paperwallet/paperwallet.go:455-469 | A pending buy is filled at its price from the locked coin |
| PaperWallets.PaperWallet.FillSellOrder | exchange/paperwallet/paperwallet.go:471-514 | A pending sell is filled at the triggering price, its sibling cancelled |
| PaperWallets.PaperWallet.RemoveCompletedOrders | exchange/paperwallet/paperwallet.go:526-549 | The index loses the completed positions and stays increasing and covering |
| PaperWallets.Without | exchange/paperwallet/paperwallet.go:526-549 | Filtering an index keeps exactly the other positions, in order |
| PaperWallets.PaperWallet.UpdateEquityValues | exchange/paperwallet/paperwallet.go:552-598 | The equity of all coins and each coin at its close are recorded once per candle time |
| PaperWallets.PaperWallet.RecordAssets | exchange/paperwallet/paperwallet.go:557-576 | The total is that of all coins, in whatever order they are walked, and every coin is recorded once |
| PaperWallets.PaperWallet.ValidateFunds | exchange/paperwallet/paperwallet.go:267-348 | An order is accepted exactly when the funds rule says so, and then funded by the rule for its case |
| PaperWallets.PaperWallet.ValidateSell | exchange/paperwallet/paperwallet.go:276-308 | The sell branch reaches the funding rule in steps |
| PaperWallets.PaperWallet.ValidateBuy | exchange/paperwallet/paperwallet.go:309-344 | The buy branch reaches the funding rule in steps |
| PaperWallets.PaperWallet.UpdateAveragePrice | exchange/paperwallet/paperwallet.go:350-410 | All branches reduce to one blending rule for each side |
| PaperWallets.PaperWallet.CreateOrderLimit | exchange/paperwallet/paperwallet.go:681-711 | The new order is funded, numbered and indexed; a refusal changes no order |
| PaperWallets.PaperWallet.CreateOrderStop | exchange/paperwallet/paperwallet.go:720-750 | As for limit orders, with the limit as stop price |
| PaperWallets.PaperWallet.CreateOrderMarket | exchange/paperwallet/paperwallet.go:752-783 | The order is executed at the last close, or at zero without a candle, and stored as filled |
| PaperWallets.PaperWallet.CreateOrderOCO | exchange/paperwallet/paperwallet.go:630-679 | Both legs, of either side, are stored under a new group and funded once |
| PaperWallets.PaperWallet.EnterGroup | exchange/paperwallet/paperwallet.go:643-676 | The legs take the two numbers after the group's and are indexed under their pair |
| PaperWallets.PaperWallet.Append | exchange/paperwallet/paperwallet.go:674-676 | A new order keeps the book well-formed and its index complete |
| PaperWallets.PaperWallet.Cancel | exchange/paperwallet/paperwallet.go:802-827 | The order with that number alone is cancelled, whatever its status, and refunded by the refund rule; an unknown number changes nothing |
| PaperWallets.PaperWallet.Order | exchange/paperwallet/paperwallet.go:829-836 | An order is found by its number, or there is none with it |
| PaperWallets.PaperWallet.HasPendingOrders | exchange/paperwallet/paperwallet.go:413-422 | Reports a non-empty index; without one no order is pending |
| PaperWallets.PaperWallet.constructor | exchange/paperwallet/paperwallet.go:90-133 | An opening wallet has its assets and nothing else |
| Matching.CandleFillsWhatItReaches | exchange/paperwallet/paperwallet.go:447-514 | A pending order is filled exactly if the candle is of its pair and reaches it, a buy by closing at or below its limit, a sell by a high at its limit or above, a stop sell by a low at its stop or below, and reaches no earlier leg of its group; it is cancelled exactly if another leg is filled |
| Matching.ScanOutcome | exchange/paperwallet/paperwallet.go:433-520 | The same for every prefix of the orders, so the order in which legs were created decides |
| Matching.CandlePaysItsFills | exchange/paperwallet/paperwallet.go:455-514 | Whatever is traded, a candle moves of each coin just what the orders it fills are worth, limit orders at their limit and stop sells at their stop |
| Matching.CandleBlendsItsBuys | exchange/paperwallet/paperwallet.go:350-410 | Pending buys that are filled enter the long average at their limit, weighted by size; sells leave it alone |
| Matching.SaleMovesShortAverage | exchange/paperwallet/paperwallet.go:350-410 | A filled pending sell moves the short average by what it sells beyond the free amount |
| Executions.TurnFillsWhatItReaches | exchange/paperwallet/paperwallet.go:447-514 | In one round of a backtest a pending order is filled only by a candle that reaches it and stays pending only if it is not reached; what is settled stays so |
| Executions.FilledByTheFirstCandle | exchange/paperwallet/paperwallet.go:447-514 | In every backtest, whatever is asked for, a pending order is filled only by the first later candle that reaches it, and waits only as long as none has |
| Executions.GroupExits | exchange/paperwallet/paperwallet.go:471-508 | Over a whole backtest the two sells of a group are settled together by the first candle that reaches either, the earlier one filled if it is reached |
| Executions.RequestKeepsShape | exchange/paperwallet/paperwallet.go:630-827 | Any request that can be made keeps the book well-formed and changes no order but the one it cancels |
| Executions.RequestedOrders | exchange/paperwallet/paperwallet.go:630-783 | What an accepted request stores is executed on its own terms: limit, stop and group prices as asked, a market order at the last close, all dated by the pair's last candle |
| Funding.AcceptedIff | exchange/paperwallet/paperwallet.go:267-348 | For a positive size and a price that is not negative, and no debt in the quote coin when selling: an order is refused only if carrying it out would overdraw that coin; a partial cover may take it down to minus what the rest of the short costs |
| Funding.WithinMeans | exchange/paperwallet/paperwallet.go:267-348 | What is freely owned can always be sold, and what the quote coin pays for can always be bought, no more |
| Funding.PlacedIff | exchange/paperwallet/paperwallet.go:630-783 | A request stores its orders, two for a group and one otherwise, exactly if it does not overdraw |
| Funding.PendingLocks | exchange/paperwallet/paperwallet.go:267-348 | A pending order locks the asset that is there for it and the worth of the rest in the quote coin |
| Funding.PendingOwns | exchange/paperwallet/paperwallet.go:267-348 | It leaves what is owned of every coin as it is, except that a buy on a short counts the covered part twice |
| Funding.CancelOwns | exchange/paperwallet/paperwallet.go:813-823 | Cancelling any order leaves what is owned of every coin |
| Funding.BuyAverages | exchange/paperwallet/paperwallet.go:350-410 | The long average after a market buy, long, flat or short before |
| Funding.SellAverages | exchange/paperwallet/paperwallet.go:350-410 | The short average after a market sell, long, flat or short before |
| Funding.RoundTrips | exchange/paperwallet/paperwallet.go:267-348 | A long bought and sold again, and a short sold and bought back, gain the size times the difference of the prices |
| WalletShape.ScanSkips | exchange/paperwallet/paperwallet.go:433-520 | Orders that are not pending for the candle's pair do not matter to matching |
| WalletShape.ScanKeepsShape | exchange/paperwallet/paperwallet.go:433-520 | Matching keeps the book well-formed and changes orders only from pending to settled |
| WalletShape.FillSellOrders | exchange/paperwallet/paperwallet.go:471-508 | A filled sell cancels exactly the orders of its group and touches no other |
| WalletShape.SiblingIsTheGroup | exchange/paperwallet/paperwallet.go:488-496 | The search for a sibling finds the one other order of the group |
| WalletShape.CancelKeepsShape | exchange/paperwallet/paperwallet.go:802-827 | Cancelling any order keeps the book well-formed |
| WalletShape.IdentifierIsUnique | exchange/paperwallet/paperwallet.go:829-836 | No two orders share an exchange number |
| LongOnly.StepKeepsSound | exchange/paperwallet/paperwallet.go:424-827 | Every long-only operation keeps all coins balanced and the groups intact |
| LongOnly.RunKeepsSound | exchange/paperwallet/paperwallet.go:424-827 | So does every run of them |
| LongOnly.LocksMatchPendingOrders | exchange/paperwallet/paperwallet.go:267-348 | In every reachable state a coin's lock is what the pending orders need, each OCO group once, and nothing is negative |
| LongOnly.HoldingsMatchReplay | exchange/paperwallet/paperwallet.go:455-514 | Free plus locked is the initial amount plus the replayed fills plus the slip of filled stop orders |
| LongOnly.FundingIsExact | exchange/paperwallet/paperwallet.go:267-348 | Funding an order moves exactly its own two coins by its size and worth |
| LongOnly.FillSellBalances | exchange/paperwallet/paperwallet.go:471-514 | Filling a sell keeps every coin balanced, alone or as a leg of a group |
| LongOnly.OneLegFills | exchange/paperwallet/paperwallet.go:488-496 | In every reachable state one leg of a group is filled exactly when the other is cancelled |
| LongOnly.SettledForGood | exchange/paperwallet/paperwallet.go:433-520 | No later step changes the status of an order that is filled or cancelled |
| LongOnly.CancelBalancesIff | exchange/paperwallet/paperwallet.go:813-823 | Cancelling keeps the books balanced exactly for sells and for buys none of whose asset is locked |
| Witnesses.LockedCancelRun | exchange/paperwallet/paperwallet.go:813-823 | A long-only run after which a cancelled buy leaves the books unbalanced |
| Resume.CalculateBalancesFromOrders | server/handler/signal_manager.go:359-378 | The replay gives each coin its initial amount plus the net of the filled orders |
| Resume.ResumeAgreesWithLive | server/handler/signal_manager.go:383-395 | When stops equal limits, the rebuilt wallet holds what the live one held, coin by coin, up to dust |
| Resume.SessionAgreesWithLive | server/handler/signal_manager.go:359-395 | When stops equal limits, however often a session is stopped and resumed, the replay of its whole history is what its last wallet holds, coin by coin, up to one dust amount that does not add up |
| Resume.ReplayAgreesIff | server/handler/signal_manager.go:359-378 | When stops lie on one side of their limits, the replay gives what the wallet holds of a coin exactly when no stop order quoted in it was filled away from its recorded price |
| Resume.SlippedRun | server/handler/signal_manager.go:359-378 | A legal run in which they differ |
| Resume.RunKeepsOneWay | exchange/paperwallet/paperwallet.go:630-679 | Stops placed on one side of their limits are stored so over the whole run |
| Resume.RunKeepsNoSlip | exchange/paperwallet/paperwallet.go:630-679 | When all groups stop at their limit, so does every stored stop order of the run |
| Equity.MarketOrderIsNeutral | exchange/paperwallet/paperwallet.go:267-410 | An accepted market order leaves the equity at its price unchanged exactly when it does not partly cover a short, or the close is twice the short's entry price; without a price, exactly when it does not sell on top of a short of another average |
| Equity.MarketOrderDoesNotOverdraw | exchange/paperwallet/paperwallet.go:267-348 | It leaves the quote coin non-negative exactly when it does not partly cover a short, or the coin covers the short's liquidation |
| Witnesses.PartialCoverRun | exchange/paperwallet/paperwallet.go:309-344 | A run whose accepted partial cover changes the equity and overdraws the quote coin |
| Equity.CrossingSellShortsTheWholeAmount | exchange/paperwallet/paperwallet.go:292-304 | A market sell leaves the plain difference exactly when it does not cross from long to short and the pair has a price |
| Equity.UnpricedSellValue | exchange/paperwallet/paperwallet.go:292-304 | A sell beyond what is held in a pair without a price keeps the value exactly when there is no short of another average |
| Witnesses.CrossingRun | exchange/paperwallet/paperwallet.go:292-304 | A run whose crossing sell leaves a short of the whole amount |
| Witnesses.UnpricedSellRun | exchange/paperwallet/paperwallet.go:292-304 | A run in which a sell in a pair whose price is zero changes the equity though no coin moves |
| Equity.FundedEquity | exchange/paperwallet/paperwallet.go:557-587 | The equity after any market order, with the excess a partial cover adds |
| Equity.TotalSplits | exchange/paperwallet/paperwallet.go:557-587 | The total does not depend on the order in which the asset map is walked |
| Equity.EquityMoves | exchange/paperwallet/paperwallet.go:557-587 | Changing one coin and the base coin moves the equity by those two changes |
| Equity.SellEffect | exchange/paperwallet/paperwallet.go:276-308 | Position and coin after a market sell, in all three cases |
| Equity.BuyEffect | exchange/paperwallet/paperwallet.go:309-344 | Position and coin after a market buy |
| Valuation.EquityIsWorth | exchange/paperwallet/paperwallet.go:552-598 | Where nothing prices the base coin in itself, the equity of a balanced wallet is, over all coins, the initial amount and what the fills moved at the close, locked amounts included, and each coin's curve records its part |
| Valuation.RunIsWorth | exchange/paperwallet/paperwallet.go:552-598 | So after every long-only run |
| Valuation.BacktestIsWorth | exchange/paperwallet/paperwallet.go:552-598 | And after every long-only backtest |
| Valuation.WaitingKeepsEquity | exchange/paperwallet/paperwallet.go:552-598 | Placing a limit, stop or group order that covers no short leaves the equity as it is, accepted or not |
| Valuation.CancelKeepsEquity | exchange/paperwallet/paperwallet.go:552-598 | Cancelling any order leaves it as it is |
| Valuation.RecordedOnce | exchange/paperwallet/paperwallet.go:566-597 | A curve keeps one value a time: the newest one replaces the last of its time, all others stay |
| Drawdown.MaxDrawdown | exchange/paperwallet/paperwallet.go:170-210 | The single pass finds the deepest drop of the whole curve, from its first peak, and reports its ratio and window; it reports zero exactly when there is no drop or its peak is not positive |
| Drawdown.ReportIsLargestLossIff | exchange/paperwallet/paperwallet.go:167-210 | For every curve, the reported ratio is the largest loss exactly when no drop from a positive value below the peak of the deepest one, or from any positive value if that peak is not positive, loses a larger part |
| Drawdown.NoLargerLossFromHigherUp | exchange/paperwallet/paperwallet.go:167-210 | No drop from as high up as the deepest one, or higher, loses a larger part |
| Drawdown.HighestFallsFromThePeak | exchange/paperwallet/paperwallet.go:167-210 | So the report is right whenever the curve falls only from values that are not positive or at least that peak |
| Drawdown.NoFallNoLoss | exchange/paperwallet/paperwallet.go:167-210 | On a curve that never falls the reported zero is the largest loss |
| Drawdown.DeepestDropNeedNotBeDeepestRatio | exchange/paperwallet/paperwallet.go:167-210 | A curve for each of the two ways in which it is not the largest loss: a lower peak that loses a larger part, and a deepest drop from a debt |
| Ledger.SumUpdate | exchange/paperwallet/paperwallet.go:433-520 | Changing one order changes a ledger by that order's weight |
| Ledger.SumRemove | server/handler/signal_manager.go:363-376 | Taking one order out of a history takes out its weight |
| Ledger.SumNonNegative | exchange/paperwallet/paperwallet.go:267-348 | A ledger of non-negative weights is non-negative and bounds each of them |
| Controllers.Position.Update | order/controller.go:219-257 | The updated fields are those of the position rule, a finished position is reported, and so is the realised value |
| Controllers.Controller.ApplyToPosition | order/controller.go:301-318 | A fill opens, changes or removes the pair's position and no other, and reports the realised value |
| Controllers.Controller.RestorePositions | order/controller.go:323-342 | Restoring builds the positions of the filled orders in order of creation |
| Controllers.Controller.ProcessTrade | order/controller.go:399-414 | A filled order is applied to the positions, prices and all, any other order changes nothing |
| Controllers.Controller.ProcessTrades | order/controller.go:454-458 | A list of orders is applied fill by fill, in its order |
| Controllers.Controller.Refresh | order/controller.go:429-450 | One pending row, of whichever wallet, takes over under its own id the exchange's order with its number, or stays if there is none or the status is the same |
| Controllers.Controller.Collect | order/controller.go:429-450 | A changed row joins the collected orders and adds to the stored fills just what it adds to the collected ones |
| Controllers.Controller.CollectFrom | order/controller.go:428-451 | Visiting the pending rows in turn, of all wallets in storage, settles every row and collects just the updates that the exchange has for them |
| Controllers.Controller.CollectUpdates | order/controller.go:416-451 | Whatever rows storage holds, all of them are settled afterwards, and the collected orders carry exactly the fills collected |
| Controllers.Controller.UpdateOrders | order/controller.go:416-468 | Whatever rows storage holds, a settlement settles each and applies each collected fill exactly once: the positions are the old ones with these fills, and a controller that had every stored fill applied once still has |
| Controllers.Controller.CreateOrderMarket | order/controller.go:598-620 | The order is stored and its fill applied to the positions at once, at its price |
| Controllers.Controller.CreateOrderLimit | order/controller.go:553-572 | The order is stored as pending and no position changes; a refusal stores nothing |
| Controllers.Controller.CreateOrderStop | order/controller.go:622-641 | As for limit orders |
| Controllers.Controller.CreateOrderOCO | order/controller.go:529-551 | Both legs, of either side, are stored, in order, as pending, and no position changes |
| Controllers.Controller.Cancel | order/controller.go:643-661 | The exchange has the order cancelled while its row waits for the settlement to say so; a pending order stays in step |
| Controllers.Storage.PendingOrders | order/controller.go:418-422 | Each pending row once, and no other |
| Controllers.AllRowsSettled | order/controller.go:416-451 | When all pending rows have been visited every row is settled |
| Controllers.OwnRowsFollow | order/controller.go:416-451 | Settling the wallet's own rows leaves each with the exchange's status |
| Settlements.SettlementIsOwnIff | order/controller.go:416-451 | With rows of other wallets in storage, a settlement collects just the wallet's own fills exactly when no pending foreign row carries the number of a filled order |
| Settlements.ForeignRowDoublesAFill | server/handler/signal_manager.go:804-818 | Otherwise one fill makes a position of twice its size |
| Settlements.RunIsOwnIff | order/controller.go:416-451 | Over a run of settlements, in which foreign rows are rewritten too, just the wallet's own fills are applied exactly when no foreign row that is pending at first carries the number of an order filled at the end |
| Settlements.NoStrayFillsIff | order/controller.go:416-451 | The rows of other wallets add no fill over such a run exactly under that condition |
| Settlements.OwnFillsOnce | order/controller.go:416-451 | Over a run of settlements every fill of the wallet is applied exactly once |
| Settlements.SettledRowsTally | order/controller.go:416-451 | One settlement makes the stored fills grow by just the fills it collects |
| Settlements.RowTakesItsOrder | order/controller.go:416-451 | A row takes over the exchange's order with its number exactly while it is new, partially filled or waiting to be cancelled |
| Positions.ApplyAddsFill | order/controller.go:219-257 | Whatever the branch, the signed size grows by the signed quantity, and is kept exactly when it is not zero |
| Positions.PositionsAreNetOfFills | order/controller.go:301-318 | After any fills a pair's signed size is their net, it is absent exactly when that is zero, and stored quantities are positive |
| Positions.AverageWithinEntries | order/controller.go:219-257 | The average price lies between the least and the greatest entry price since the position opened or flipped |
| Positions.OpenedBy | order/controller.go:219-257 | A position is as old as the fill that opened it or flipped it to the side it has had since |
| Positions.RealizedIsGainIff | order/controller.go:240-242 | The reported value is the gain of the closed part exactly for a long that is closed or of which at most half is sold, or when nothing is gained |
| Witnesses.PartialSaleReport | order/controller.go:240-242 | A sale of six of ten that gained 12 and is reported as 8 |
| Positions.RestoreReproducesPair | order/controller.go:323-342 | A pair's position is restored exactly as it is live when the fills of that pair were processed in order of creation, however the history is sorted and whatever other pairs did |
| Positions.PositionOfPair | order/controller.go:301-318 | A position depends on the fills of its own pair only |
| Positions.RestoreReproducesLive | order/controller.go:323-342 | All live positions are restored when each pair's fills were processed in order of creation |
| Positions.RestoreIgnoresHistoryOrder | order/controller.go:323-342 | The restored positions do not depend on the order of the history |
| Positions.RestoreKeepsSizes | order/controller.go:323-342 | Restored sizes are the live ones whatever the processing order |
| Positions.LateFillChangesTheAverage | order/controller.go:323-342 | A history whose restored average price differs from the live one |
| Ninjabot.StorageRestoresPositions | order/controller.go:323-342 | Positions rebuilt from a controller's storage have its live sizes, and its live positions for every pair whose fills were processed in order of creation |
| Averages.SwapKeepsAverageIff | order/controller.go:219-257 | Two fills of a pair, whatever position they find and whatever price they are recorded at, give one average in either order exactly when they commute: with no position, when both are on one side and slip alike or the larger is recorded at its price; with one, when they extend together, or reduce without flipping or flip alike, or extend at the average or leave nothing of it |
| Averages.CommuteAtRecordedPrices | order/controller.go:219-257 | For fills at their recorded prices they commute exactly when there is no position, or they extend together, or reduce without flipping or at one price, or extend at the average or leave nothing of it |
| Averages.SwapAnywhere | order/controller.go:219-257 | Two commuting fills may change places anywhere in a history without changing side, size or average at its end |
| Averages.OneSidedRestoredIff | order/controller.go:323-342 | A pair whose fills are all on one side is restored with its live side, size and average exactly when the fill created first slips by as much as the fill processed first |
| Averages.OneSidedStakes | order/controller.go:219-257 | Two orders of processing the same fills of one side give one position exactly when their first fills slip alike |
| Averages.StopsSlipApart | order/controller.go:323-342 | Two stops whose average is 6.5 in one order and 7 in the other |
| Averages.OneSidedAverageIsRestored | order/controller.go:323-342 | A pair whose fills are all on one side and recorded at their fill price is restored with its live side, size and average, in whatever order they were processed |
| Positions.SortIsChronological | order/controller.go:330-335 | The stable sort puts fills in order of creation time, those of one time by id |
| Positions.SortKeepsElements | order/controller.go:330-335 | and loses or doubles none |
| Positions.SumIgnoresOrder | order/controller.go:323-342 | The net of a history does not depend on its order |
| TwoLedgers.LedgersAgree | exchange/paperwallet/paperwallet.go:350-410 | On values: in a long-only run of market orders from any wallet in which the asset is flat, whatever else it holds, the wallet's free amount and long average of the pair are the quantity and average of the replayed fills, which lies between the entry prices; no other pair of the run may move the asset |
| TwoLedgers.ResumedAveragesAgreeIff | server/handler/signal_manager.go:383-395 | After a resume with the asset held, wallet and controller agree in size throughout, and in average exactly once the asset has been flat |
| TwoLedgers.RunKeepsMatched | order/controller.go:219-257 | On values: the two ledgers of a pair stay matched over every such run |
| TwoLedgers.LedgersAgreeInBacktest | exchange/paperwallet/paperwallet.go:350-410 | After any backtest of a long-only strategy that trades by market orders, from any wallet in which the asset is flat, the controller has a position of the pair exactly while the wallet holds its asset, a long of that quantity at the wallet's average, which lies between the entry prices; no other pair may move the asset |
| TwoLedgers.BacktestKeepsMatched | order/controller.go:219-257 | Every such backtest keeps the two ledgers of a pair matched |
| TwoLedgers.ControllerHoldsOrders | order/controller.go:301-318 | A controller that applied each order as it was stored holds the positions of the wallet's orders |
| Fibonacci.FibLegs | strategy/strategies/fibonacci.go:115-150 | Leg t is the detector's leg after the first t candles |
| Fibonacci.CheckPivotLow | strategy/strategies/fibonacci.go:97-107 | A pivot low lies below the candles before it and not above those after it |
| FibonacciSignals.PivotIsFirstLowest | strategy/strategies/fibonacci.go:97-107 | A pivot low is exactly the first lowest candle of the window around it |
| Fibonacci.LegsAreSound | strategy/strategies/fibonacci.go:115-150 | Every known leg starts at a confirmed pivot that no later low undercuts and ends at the first highest high since |
| FibonacciSignals.RemembersLatestIff | strategy/strategies/fibonacci.go:115-150 | The detector remembers the latest confirmed pivot exactly as long as no low undercuts it |
| FibonacciSignals.LegIsKnown | strategy/strategies/fibonacci.go:115-150 | While the latest confirmed pivot holds, a leg is known, from that pivot or an earlier one |
| FibonacciSignals.NextLeg | strategy/strategies/fibonacci.go:115-150 | A higher high moves the leg's end, and its start to the latest pivot exactly if that holds and lies after the old end; without an unbroken leg one starts exactly at a pivot just confirmed |
| Fibonacci.NoLookahead | strategy/strategies/fibonacci.go:109-150 | Leg t depends on the first t candles only |
| Fibonacci.AnchorsNeverGoBack | strategy/strategies/fibonacci.go:115-150 | The anchor of a later leg is never before that of an earlier one |
| Fibonacci.BreakLeavesNoLegIff | strategy/strategies/fibonacci.go:122-127 | A broken leg leaves none behind exactly when the pivot is at least 1 |
| Fibonacci.OneTradePerLeg | strategy/strategies/fibonacci.go:215-278 | Over a whole run on growing dataframes no leg of a pair is bought twice |
| Delivery.OneTradePerDeliveredLeg | strategy/strategies/fibonacci.go:215-278 | The same for every run of dataframes that a controller delivers, whatever partial candles the feeds contain |
| Delivery.DeliveredFramesGrow | strategy/controller.go:83-96 | Delivered dataframes of a pair only grow, and their times increase |
| FibonacciBacktests.FibonacciIsLongOnly | strategy/strategies/fibonacci.go:215-283 | Against the simulated exchange the strategy never sells more than it freely owns, whatever the candles at positive prices, the indicators and the rounding of sizes |
| FibonacciBacktests.BuyAndBracketAreLongOnly | strategy/strategies/fibonacci.go:262-283 | An accepted buy leaves enough free asset for the group that sells it |
| FibonacciBacktests.FibonacciBacktestBalances | strategy/strategies/fibonacci.go:215-283 | So its backtest, on such candles and from any opening wallet, overdraws no coin, locks what its pending orders need and holds what its fills moved |
| FibonacciBacktests.BacktestBuysNoLegTwice | strategy/strategies/fibonacci.go:215-283 | In a backtest with the exchange as broker no leg of a pair is bought twice |
| FibonacciBacktests.DeskIsReplay | strategy/strategies/fibonacci.go:215-283 | The books it trades on, candle by candle, are those of the backtest loop |
| FibonacciTrades.BuysInAnUptrend | strategy/strategies/fibonacci.go:215-283 | Every buy of a backtest, by a started strategy on resampled feeds, is made above the trend average, on a green complete candle, with under 10 owned, locked amounts included |
| FibonacciTrades.TradeIsBracketed | strategy/strategies/fibonacci.go:262-283 | On candles at positive prices, every buy is executed at the close and puts its group on the exchange: the swing high as take profit, the stop level as stop, both for the size bought |
| FibonacciTrades.TradeEnds | strategy/strategies/fibonacci.go:262-283 | On candles at positive prices, every trade of a backtest ends with the first later candle that reaches its take profit or its stop: at the take profit if the high gets there, else at the stop, and it is open exactly as long as there is none |
| Fibonacci.MemoryIsLastBuy | strategy/strategies/fibonacci.go:215-278 | A pair's memory is the swing low of its last buy, which is later than all its earlier ones |
| Fibonacci.LaterLegStartsLater | strategy/strategies/fibonacci.go:115-150 | A leg known later, on a longer dataframe, starts at the same candle or a later one |
| Fibonacci.BracketStraddlesEntry | strategy/strategies/fibonacci.go:262-281 | Swing low, stop, entry level, close and take profit come in this order in every trade |
| FibonacciSignals.BuysIff | strategy/strategies/fibonacci.go:215-283 | A buy is sent exactly when the leg spans 3 ATRs, is at most 20 candles old and not traded yet, the trend is up, the pullback touched the entry but not the stop level, the candle closes green between entry and swing high, under 10 is held and at least 10 can be spent; it spends the whole quote coin, with the swing high and the 0.786 level as bracket |
| Fibonacci.FibonacciStrategy.OnCandle | strategy/strategies/fibonacci.go:215-283 | The strategy buys, protects and remembers by the rule for its dataframe and the broker's answers |
| Fibonacci.FibonacciStrategy.FindCandidate | strategy/strategies/fibonacci.go:215-240 | The leg offered is fresh, large enough and in an uptrend |
| Fibonacci.FibonacciStrategy.constructor | strategy/strategies/fibonacci.go:66-74 | Out-of-range parameters fall back to the defaults |
| PriorityQueues.PriorityQueue.constructor | model/priorityqueue.go:19-30 | Heapifying any initial slice gives a heap of the same elements |
| PriorityQueues.PriorityQueue.Push | model/priorityqueue.go:32-45 | The heap gains the item |
| PriorityQueues.PriorityQueue.Pop | model/priorityqueue.go:58-73 | The heap loses an element that no other comes before; an empty one yields none |
| PriorityQueues.PriorityQueue.Drain | model/priorityqueue.go:58-73 | Popping until empty yields all elements in order |
| PriorityQueues.PriorityQueue.Down | model/priorityqueue.go:91-110 | Sifting down extends the heap upwards by one position and keeps the elements |
| PriorityQueues.PriorityQueue.Up | model/priorityqueue.go:112-124 | Sifting up repairs the heap above an appended element |
| PriorityQueues.SiftHole | model/priorityqueue.go:91-110 | Moving smaller children into the hole ends where the item fits |
| PriorityQueues.RootIsLeast | model/priorityqueue.go:58-73 | Nothing in a heap comes before its root |
| PriorityQueues.NextInOrder | model/priorityqueue.go:58-73 | What pops later never comes before what popped earlier |
| Candles.CandleLessIsStrictWeak | model/model.go:139-157 | The candle order is asymmetric and its ties are transitive, as the heap needs |
| Sorting.SortedIsUnique | model/model.go:139-157 | A strictly sorted sequence is the only ordering of its elements |
| Calendar.PeriodsEndOnBoundaries | exchange/feed/csvfeed.go:192-230 | For minute-aligned instants the clock tests find exactly the boundaries of the target's grid, weeks starting on Sunday |
| Calendar.TargetMeansItsText | exchange/feed/csvfeed.go:192-230 | A period lasts as long as the number and the unit in the target's text say |
| Calendar.UnderstoodTargets | exchange/feed/csvfeed.go:192-230 | These eleven targets are understood and no other |
| Feed.Resample | exchange/feed/csvfeed.go:232-276 | The output is the running aggregation from the first aligned candle, less one trailing partial candle; unknown timeframes are refused, and without an aligned candle it crashes |
| Feed.OutputsAggregateRuns | exchange/feed/csvfeed.go:246-266 | Each output candle carries the first open and time, latest close, extreme high and low and total volume of its run, and is complete exactly when its source candle ends a period |
| Feed.VolumeIsConserved | exchange/feed/csvfeed.go:246-266 | Complete candles and the running one carry the whole source volume |
| Feed.TrimmedDropsOneCandle | exchange/feed/csvfeed.go:268-271 | Trimming drops one candle if the last source candle ends no period, and none otherwise; no complete candle's volume is lost |
| Feed.SameTimeframeIsIdentity | exchange/feed/csvfeed.go:192-195 | Resampling to the timeframe of the source only marks every candle complete |
| Feed.CompleteCandlesFillPeriods | exchange/feed/csvfeed.go:232-276 | Each complete candle of a gap-free, minute-aligned source covers exactly one period of the calendar |
| Feed.FeedIsStrictlySorted | exchange/feed/csvfeed.go:246-266 | A resampled feed is strictly increasing in the order of candles |
| Feed.FoldAt | exchange/feed/csvfeed.go:246-266 | Output k depends on the source up to k only |
| Dataframes.StrategyController.UpdateDataFrame | strategy/controller.go:57-81 | A candle at the last row's time replaces that row in all price, volume and time columns, any other is appended |
| Dataframes.StrategyController.Start | strategy/controller.go:43-45 | The strategy is called on complete candles from now on |
| Dataframes.StrategyController.OnPartialCandle | strategy/controller.go:47-55 | Only a high-frequency strategy with a filled dataframe sees and is called on a partial candle |
| Dataframes.StrategyController.OnCandle | strategy/controller.go:83-96 | A late candle is dropped; the strategy is called when started and warmed up |
| Dataframes.PartialsLeaveNoTrace | strategy/controller.go:47-96 | The dataframe is the complete candles and at most the open period's partial one |
| Dataframes.CompletesStandAlone | strategy/controller.go:83-96 | The complete candles alone build themselves |
| Dataframes.DataframeIgnoresPartials | strategy/controller.go:47-96 | After each complete candle the dataframe is the one built without partial candles |
| Dataframes.CalledWhenWarm | strategy/controller.go:47-96 | On resampled feeds a complete candle calls exactly a started strategy with as many complete candles as its warm-up, a partial one a high-frequency strategy with as many |
| Backtests.CallsWhenWarm | ninjabot.go:347-350 | So the candles of a backtest call their strategy exactly then |
| Dataframes.TimesOnlyIncrease | strategy/controller.go:83-96 | Whatever arrives in whatever order, the rows of complete candles have increasing times |
| Pipeline.MergeFeeds | ninjabot.go:329-336 | Candles that arrive in any order leave the queue in chronological order |
| Pipeline.TimesNeverGoBack | model/model.go:139-157 | In the merged stream times never go back, nor update times within one time |
| Pipeline.PairSeesItsFeed | ninjabot.go:333-350 | In the merged stream each pair's candles are its own feed |
| Pipeline.DataframeIsResampledSource | exchange/feed/csvfeed.go:232-276 | From file to strategy: a pair's dataframe is its resampled source, whatever the other pairs do |
| Sessions.StepKeepsConsistent | server/handler/signal_manager.go:473-543 | Every critical section keeps bots, starting marks and contexts consistent |
| Sessions.OneBotPerSession | server/handler/signal_manager.go:473-543 | Under every interleaving no session is running and starting at once, and at most one of its bots has a live context |
| Sessions.CancelledIsNeverRegistered | server/handler/signal_manager.go:491-510 | A context cancelled while starting is never registered later |
| Sessions.ExitKeepsOtherBots | server/handler/signal_manager.go:512-533 | One exit removes exactly its own entry |
| Sessions.RegisteredBotStays | server/handler/signal_manager.go:473-543 | A registered bot stays registered, and is never overwritten, through every run without a stop of its session or its own exit |
| Sessions.StopIsFinal | server/handler/signal_manager.go:644-655 | After a stop, and until the next start, no bot of the session runs with a live context |
| Sessions.ReserveTakesTheSession | server/handler/signal_manager.go:473-487 | Reserving a free session takes it with a new launch that is not cancelled, refuses a second one and touches nothing else |
| Sessions.RegisterEndsTheStart | server/handler/signal_manager.go:491-510 | A launch that was built and not cancelled ends with a live bot, any other leaves its session free |
| Sessions.EndsFreeTheSession | server/handler/signal_manager.go:512-655 | A start given up, a stop and an exit free the session; a stop while starting leaves the launch cancelled |
| Sessions.BotEndsByItself | server/handler/signal_manager.go:512-533 | A bot that returns is cleaned up, its context cancelled and its session free again |
| Sessions.StartSucceeds | server/handler/signal_manager.go:473-510 | Reserving a free session and registering its bot ends with a live bot |
| Sessions.EverySessionCanRun | server/handler/signal_manager.go:473-655 | From every consistent state every session can come to a live bot |
| Sessions.SignalManager.ReserveSession | server/handler/signal_manager.go:473-487 | Reserving refuses a session that runs or starts, else marks it as started by the launch returned, whose context is not cancelled |
| Sessions.SignalManager.AbandonStart | server/handler/signal_manager.go:620-623 | A failed start removes its mark; cancelling the context is a step of its own |
| Sessions.SignalManager.CancelContext | server/handler/signal_manager.go:624-624 | The context of a launch that failed or has finished is cancelled, and nothing else changes |
| Sessions.SignalManager.RegisterBot | server/handler/signal_manager.go:491-510 | A built bot is registered unless its context was cancelled meanwhile |
| Sessions.SignalManager.StopSession | server/handler/signal_manager.go:644-655 | The critical section of a stop cancels and forgets a running bot, and cancels one that is starting |
| Sessions.SignalManager.CleanUp | server/handler/signal_manager.go:512-533 | A returned bot removes its entry if that is still its own |
| Sessions.SignalManager.IsRunning | server/handler/signal_manager.go:547-553 | Reports whether the session has a live or a starting bot |
| Pagination.FetchChartCandles | server/handler/signal_manager.go:288-342 | Every candle of the range is returned once and in ascending order, however short the answers, and nothing only if a request failed |
| Pagination.FetchWindow | server/handler/signal_manager.go:311-339 | One request extends what has been fetched without gap or repetition and moves the cursor |
| Pagination.WindowFits | server/handler/signal_manager.go:295-306 | No window holds more than the 1000 candles that one answer may carry |
| Pagination.AppendUnseen | server/handler/signal_manager.go:311-317 | Candles later than everything fetched are all appended, none is taken for seen, and their times become seen |
| Pagination.NextWindowContinues | server/handler/signal_manager.go:326-338 | The next cursor is behind everything answered and skips no candle |
| Pagination.BetweenIsWindow | server/handler/signal_manager.go:311-322 | A window of the candles is the stretch of those that open in it |

## Left out

- Float rounding, NaN and integer overflow: amounts are exact reals, times unbounded integers.
- Exchange adapters, HTTP handlers, websockets, Telegram and mail, the React UI: only the order and candle interfaces are modelled.
- The databases: storage is a table of rows with ids in sequence and no errors; pending rows may come in any order.
- Session status in the database under concurrent stop and resume: rows are written outside the mutex.
- Locks and live processing (`PopLock`, tickers): the backtest drives everything in one thread, the session protocol is modelled by its critical sections.
- Symbols: a pair is its two coins, not looked up in the symbol table, so dated futures that share both coins are not told apart.
- Controllers.Controller.Cancel: promises to stay in step only for a pending order; cancelling a settled one undoes it on the exchange, and no ledger of the model covers that.
- Pending sells larger than the free asset, and pending buys that cover a short: `WalletSpec` and the class cover them, the balance results of `LongOnly` do not.
- `CreateOrderMarketQuote`: it rounds by lot sizes, and `AmountToLotSize` is not part of this model.
- Traded volume, first candles and the printed summary: statistics beside the ledgers.
- Win and loss lists, profit percentages and storing a realised profit: statistics beside the positions.
- Order metadata columns, reference prices, session ids and Heikin-Ashi candles: carried along unchanged.
- Notifications, order feeds and logging: no effect on the state.
- EMA, ATR and the broker's answers in the Fibonacci strategy: arbitrary inputs; in `FibonacciBacktests` the broker is the wallet, and only the rounding of an order's size is arbitrary.
- Strategies in `Ninjabot.BacktestCandles`: an arbitrary script of requests, carried out when the strategy is called and the request can be made; `FibonacciBacktests` gives the one strategy's script.
- Registration of several bots' metrics, the strategy registry, bootstrap statistics, `TrailingStop` and `Scheduler`: only easy members.
- The heap's aliasing of the caller's slice: the queue owns a sequence of its own.
- Sessions.SignalManager.StopSession: the wait for the bot's exit after the critical section is left out, because the exit is a step of the bot that any run may contain or not.
- Pagination.FetchChartCandles: whether a candle opening exactly at the end is included depends on the answers, and both outcomes are allowed.
- Positions.RestoreReproducesPair: states that processing in creation order suffices; fills of both sides processed in another order can still give the same averages. `Averages` is exact for fills of one side and for any two fills that change places.
- Controllers.Controller.Linked: the results over whole backtests assume a storage with the rows of one wallet; storage with rows of other wallets is covered by `Controllers.Controller.UpdateOrders` and, over runs, by `Settlements`.
- Dataframes.StrategyController.UpdateDataFrame: the custom metadata columns, which both branches also write, are left out.
- FibonacciBacktests.BacktestBuysNoLegTwice: for a strategy that is started and not high-frequency, on feeds as resampling makes them.
