# A model of the trading scanner

Dafny proofs about five parts of the system. Each module follows one part of the code; methods and classes take the form of
the code's loops and objects and are proved against functions, and the properties are proved about those functions.

- **Signal engine** (`Indicators`, `EngineColumns`, `AlphaEngine`, `EngineProperties`, `FastPredict`, `FastRefinement`,
  `RefinementLimit`, `FallingMarket`, `ResultLimit`, `CatchUp`, `CatchUpCap`). The batch classifier recomputes a nearest-neighbour
  queue over the whole history; the incremental one carries a small memory and advances one bar. The main theorems say that
  the second refines the first, and exactly how far.
- **Trade replay and account** (`TradeReplay`, `Ranking`, `CapitalSimulation`, `CapitalProperties`, `CapitalBooks`,
  `CapitalSolvency`, `CapitalExamples`, `CapitalCausality`). The position machine and the capital-constrained replay of its
  trades.
- **Ledger and cash orders** (`OrderLedger`, `LegNetting`, `BrokerReconciliation`, `CashProtocol`, `CashDays`, `CashDesk`).
  Reading a list of order legs, and placing orders against a broker while the process may crash between any two steps.
- **Hedged basket** (`BasketExecution`, `BasketRoundTrip`, `BasketHistory`). Two legs with partial fills and roll-backs, the
  netting that later exits act on, and the worst-case loss.
- **Daily swing and candles** (`DailySwing`, `CandleBuilding`, `CandleFeed`, `CandleSessions`).

`Numeric` holds what they share. A float column entry is a real or `NaN`, which stands for every non-finite value; `log`,
`sqrt`, `exp` and powers are arbitrary functions.

## Where code and promise differ

- `fast_predict.py` calls its entry signals no approximation of the batch ones. They are exact on all histories just as long as
  the history outgrows `max_bars_back` by at most 15 bars (6 for an engine that compares no features), or nothing ever has a
  vote: no neighbours, or a `max_bars_back` of at most 14 (5). Beyond that the batch run restarts with an empty queue behind a
  bar that voted, and some engine with the same counts then buys where the carried run does not (`ExactLimit`, for a
  numerical library with `sqrt(225) = 15` and `log(1) = 0`; the engine that differs compares one feature or none).
- Catch-up after a crash reaches the right state, but nobody reports the bars the dying run had already persisted
  (`ReportsCompleteExactly`).
- A run that is more than fifty bars behind evaluates the newest bar alone, and the skipped bars are missing from the engine
  state afterwards (`CapIsExactForTheState`).
- The replayed account conserves money exactly while every exit that finds a position has a price and no funded entry finds its
  symbol held (`BooksBalanceExactly`, `EquityExactly`). Stored trades may break either (`UnpricedExitLosesMoney`,
  `SecondEntryLosesMoney`). Fees overdraw the cash exactly on an exit that does not pay for them (`SolventExactly`,
  `CostsCanOverdraw`).
- An `UNKNOWN` leg keeps a symbol in reconciliation for good (`UnknownLegNeverResolves`), and a status outside the five
  documented ones, met before such a leg, makes the lifecycle raise (`UndocumentedStatusRaises`).
- After more was sold than bought, an entry in flight can have no unclosed leg (`UnclosedAgreesExactly`).
- An order that was never written to the ledger is placed again on the next day once its shares are gone
  (`TurnOfDayExactly`, `ForgottenOrderIsPlacedAgain`).
- A session's tasks are cancelled once its closing flush is done. Only if that stalls until the clock leaves the
  flushed bucket, fifteen minutes after the close, with a tick behind the flush, is the last bucket of a day stored twice
  (`BucketsIncreaseExactly`, `StalledSessionRepeats`).
- Netting fixes a contract's opening side by its first leg ever, so a basket opened the other way round in the same contract is
  not seen as open (`OppositeEntryIsInvisible`, `ClosedTripHidesOpposite`); a closed surplus left by a partial roll-back is
  netted against the next entry (`RoundTripExactly`, `RollBackLeavesSurplus`); and a repeated exit closes both legs in full again
  (`RepeatedExitExactly`).
- The expiry guard can close a position on its tenth session (`GuardCutsHoldExactly`).

## Model

| member | source | states |
|---|---|---|
| FastRefinement.FastRefinesBatch | src/trading_scanner/application/fast_predict.py:245-334 | for every history of at most `maxBarsBack + 2` bars, bootstrapping on any prefix and stepping one bar at a time gives at every bar the batch prediction, signal, change flag, BUY/SELL starts and, with dynamic exits on, both exits |
| FastRefinement.ContinuousRun | src/trading_scanner/application/fast_predict.py:166-242 | with full history on, a run of any length equals the batch formulas over one queue that starts where the bootstrap started: memory, prediction, starts, exits and early-flip flag of every bar |
| ResultLimit.ExactLimit | src/trading_scanner/application/fast_predict.py:29-34 | for every neighbour count, `maxBarsBack`, history length and bootstrap length, and with features compared or not: the newest result (prediction, signal, exits and early-flip flag) is the batch one on all histories, and the BUY/SELL signal is on all plausible ones, exactly when there is no neighbour, or no candidate that has a vote, or no bar with a vote before the batch run starts |
| ResultLimit.DiffersBeyond | src/trading_scanner/alpha_engine.py:193-230 | one bar past that limit an engine with these settings buys in the batch run, in a market that only falls, while the carried run stays silent, wherever the run was bootstrapped |
| ResultLimit.AgreesWithin | src/trading_scanner/application/fast_predict.py:29-34 | within the limit the newest result agrees for every engine and history |
| FallingMarket.FilterOfFall | src/trading_scanner/alpha_engine.py:485-510 | the regime filter over that whole market: it passes on the bar before the batch run starts and on the newest bar, on none between |
| RefinementLimit.QueueAgreesExactly | src/trading_scanner/application/fast_predict.py:18-25 | the carried queue itself is the restarted batch queue for all inputs exactly when the history has at most `maxBarsBack + 2` bars, or `maxBarsBack` is at most 1, or nothing was carried |
| FastRefinement.RunIsOneFold | src/trading_scanner/application/fast_predict.py:166-242 | bootstrap plus later steps is one fold over the full history from a fixed start bar |
| FastRefinement.ReplayTracks | src/trading_scanner/application/fast_predict.py:361-416 | after every bar the carried signal, two counters and three-flag window stand for the batch arrays they replace |
| FastRefinement.ChangeAgrees | src/trading_scanner/application/fast_predict.py:293-298 | comparing with the carried signal is the batch change flag, including bar 0, which the batch leaves false by definition |
| FastRefinement.FlipAgrees | src/trading_scanner/application/backtest.py:282-286 | the rolling three-flag window answers the early-flip question like the array lookup with its first-bars guard |
| FastRefinement.StartAtBarOne | src/trading_scanner/alpha_engine.py:208-224 | starting the queue at bar 0 or bar 1, and scanning from bar 0 or bar 1, cannot be told apart, because bar 0 is never admitted |
| FastRefinement.RunMatchesFold | src/trading_scanner/application/fast_predict.py:245-334 | bar `b` of a run reports what the batch formulas say about it |
| FastRefinement.BatchIsFromBarZero | src/trading_scanner/alpha_engine.py:183-256 | up to that length the batch run of a prefix is the cut of one run of the whole history |
| FastPredict.BootstrapQueueState | src/trading_scanner/application/fast_predict.py:166-242 | the bootstrap loop computes the fold of single steps from a blank memory |
| FastPredict.AdvanceBar | src/trading_scanner/application/fast_predict.py:431-461 | one bar: scan, vote, carry the signal, decide entries and exits; below the start bar the queue is left alone |
| FastPredict.EvaluateLatestBar | src/trading_scanner/application/fast_predict.py:245-334 | the newest bar computed from the persisted memory |
| AlphaEngine.Predict | src/trading_scanner/alpha_engine.py:204-230 | the bar loop with its two lists living across bars computes predictions and signal of every bar |
| AlphaEngine.ScanBar | src/trading_scanner/alpha_engine.py:210-223 | one bar's scan: distance to beat, admission, eviction and reset of the distance to beat |
| AlphaEngine.EvictionIndexIsNearest | src/trading_scanner/alpha_engine.py:221-221 | the eviction index is the integer nearest to three quarters of the neighbour count, ties to even |
| AlphaEngine.SignalEntry | src/trading_scanner/validation/runner.py:175-186 | entry `i` of the signal is decided by prediction, filter and the entry before |
| AlphaEngine.SignalStatePrefix | src/trading_scanner/validation/runner.py:175-186 | the signal of a prefix is the prefix of the signal |
| AlphaEngine.ComputeBarsHeld | src/trading_scanner/validation/runner.py:196-201 | the bars-held loop computes the counter the strict exits read |
| EngineProperties.PredictionBounded | src/trading_scanner/alpha_engine.py:216-224 | on every reachable run the two lists have equal length, at most the neighbour count, and the vote is at most the neighbour count in size |
| EngineProperties.SilentStart | src/trading_scanner/alpha_engine.py:208-224 | the prediction is 0 on the first five bars and on every bar before the start bar |
| EngineProperties.SilentSignal | src/trading_scanner/validation/runner.py:175-193 | hence no signal, no change and no start there |
| EngineProperties.EntryExcludesExit | src/trading_scanner/alpha_engine.py:164-181 | with the kernel filter on, smoothing off and dynamic exits on, no bar both starts and ends the same side |
| EngineProperties.EventsCut | src/trading_scanner/alpha_engine.py:258-316 | for a fixed start bar every event column of a prefix is the prefix of the column |
| EngineColumns.ColumnsPrefix | src/trading_scanner/alpha_engine.py:99-181 | every column the classifier reads is prefix-stable: features, filters, kernel, trend flags and labels |
| EngineColumns.FeaturesPrefix | src/trading_scanner/alpha_engine.py:132-143 | the five features are prefix-stable |
| EngineColumns.FiltersPrefix | src/trading_scanner/alpha_engine.py:145-158 | the three filters are prefix-stable |
| EngineColumns.KernelColumnsPrefix | src/trading_scanner/alpha_engine.py:160-181 | the six kernel columns are prefix-stable |
| EngineColumns.RsiPrefix | src/trading_scanner/alpha_engine.py:358-373 | RSI is prefix-stable |
| EngineColumns.CciPrefix | src/trading_scanner/alpha_engine.py:376-382 | CCI is prefix-stable |
| EngineColumns.WaveTrendPrefix | src/trading_scanner/alpha_engine.py:406-411 | the wave trend is prefix-stable |
| EngineColumns.VolatilityPrefix | src/trading_scanner/alpha_engine.py:470-482 | the volatility filter is prefix-stable |
| EngineColumns.ComputeLabels | src/trading_scanner/alpha_engine.py:196-202 | the label loop |
| Indicators.ComputeEma | src/trading_scanner/alpha_engine.py:328-336 | the EMA loop, against the recurrence over the entries so far |
| Indicators.EmaPrefix | src/trading_scanner/alpha_engine.py:328-336 | EMA is prefix-stable |
| Indicators.ComputeRma | src/trading_scanner/alpha_engine.py:339-351 | the RMA loop: missing until a full window of finite values, then smoothed |
| Indicators.RmaPrefix | src/trading_scanner/alpha_engine.py:339-351 | RMA is prefix-stable |
| Indicators.ComputeNormalize | src/trading_scanner/alpha_engine.py:385-395 | the running min-max normalisation loop |
| Indicators.NormalizePrefix | src/trading_scanner/alpha_engine.py:385-395 | the running normalisation is prefix-stable |
| Indicators.ComputeDirectionalAdx | src/trading_scanner/alpha_engine.py:414-451 | the ADX loops |
| Indicators.DirectionalAdxPrefix | src/trading_scanner/alpha_engine.py:414-451 | ADX is prefix-stable |
| Indicators.ComputeKlmf | src/trading_scanner/alpha_engine.py:485-510 | the regime filter's loop |
| Indicators.KlmfPrefix | src/trading_scanner/alpha_engine.py:485-510 | the regime filter's curve is prefix-stable |
| Indicators.RegimeNormalizedPrefix | src/trading_scanner/application/backtest.py:159-185 | the logged regime slope is prefix-stable |
| Indicators.ComputeKernel | src/trading_scanner/alpha_engine.py:544-560 | the kernel loop: a weighted mean over the lookback, missing before it is full |
| Indicators.KernelPrefix | src/trading_scanner/alpha_engine.py:530-560 | both kernel estimates are prefix-stable, whatever the weights |
| Indicators.ComputeBarsSince | src/trading_scanner/alpha_engine.py:618-626 | the bars-since loop |
| Indicators.SinceLastMeaning | src/trading_scanner/alpha_engine.py:618-626 | the counter is the distance to the last bar that held, and missing exactly when none did |
| Indicators.BarsSincePrefix | src/trading_scanner/alpha_engine.py:618-626 | bars-since is prefix-stable |
| Indicators.RollingPrefix | src/trading_scanner/alpha_engine.py:354-355 | rolling statistics are prefix-stable |
| CatchUp.EngineStateRepository.EvaluateFromStoredCandles | src/trading_scanner/application/pipeline/evaluation.py:161-223 | one run reports and persists exactly the specified bars, and write `j` is the state a run that dies after `j` bars leaves |
| CatchUp.EngineStateRepository.EvaluateEach | src/trading_scanner/application/pipeline/evaluation.py:204-223 | the loop over new bars: evaluate on everything up to the bar, persist, carry on |
| CatchUp.FindNewBarIndices | src/trading_scanner/application/pipeline/evaluation.py:226-240 | the indices after the last evaluated bar, or the newest one alone |
| CatchUp.GroupingIsInvisible | src/trading_scanner/application/pipeline/evaluation.py:142-150 | however arrivals are grouped into runs with gaps of at most fifty bars, and wherever runs crash, every bar is advanced exactly once and the state is that of a run that never went offline |
| CatchUp.ReportsAreComplete | src/trading_scanner/application/pipeline/evaluation.py:142-158 | without crashes the concatenated results are one report per bar, in order |
| CatchUp.VisitAdvances | src/trading_scanner/application/pipeline/evaluation.py:182-223 | one run of any gap up to the cap, dying anywhere, ends where the uninterrupted run is at that bar |
| CatchUp.FirstVisit | src/trading_scanner/application/pipeline/evaluation.py:183-189 | the first run bootstraps on all but the newest bar and evaluates that one |
| CatchUp.CapIsExact | src/trading_scanner/application/pipeline/evaluation.py:194-202 | every new bar is reported exactly when the gap is at most fifty; beyond it only the newest |
| CatchUpCap.CapIsExactForTheState | src/trading_scanner/application/pipeline/evaluation.py:194-223 | with full history on, one run always reaches the state of the uninterrupted run exactly when it is at most fifty bars behind, or no bar but bar 0 is ever a candidate; otherwise some engine and history leave the skipped bars' neighbours out of the carried queue |
| CatchUp.ReportsCompleteExactly | src/trading_scanner/application/pipeline/evaluation.py:142-223 | the completed runs report every bar, in order, exactly when no crashed run persisted one |
| CatchUp.EveryBarReportedOrLost | src/trading_scanner/application/pipeline/evaluation.py:204-223 | the reports and the bars that only crashed runs persisted add up to the bars advanced |
| CatchUp.CrashedReportsAreLost | src/trading_scanner/application/pipeline/evaluation.py:204-223 | what a crash costs: the bars a dying run persisted are reported by nobody |
| TradeReplay.ReplayPineBacktest | src/trading_scanner/application/backtest.py:197-242 | the position machine's loop renders the specified trades |
| TradeReplay.ReplayExactly | src/trading_scanner/application/backtest.py:197-242 | the closed trades are exactly the pairs of bars singled out by the flags, once each and in exit order: a start, the first matching end, no later start of the side up to it, no start of the other side in between, in the machine's within-bar order; only the last trade may be open |
| TradeReplay.ReplayOrdered | src/trading_scanner/application/backtest.py:197-242 | trades come out in exit order |
| TradeReplay.NoOverlap | src/trading_scanner/application/backtest.py:197-242 | no two trades overlap |
| TradeReplay.TradesLastABar | src/trading_scanner/application/backtest.py:211-221 | with the deployed exits and the kernel filter every closed trade exits strictly after it enters |
| TradeReplay.LiveMatchesBacktest | src/trading_scanner/application/backtest.py:93-156 | the live result of a bar is the backtest's event of that bar, flags, early-flip flag and feature snapshot alike |
| Ranking.RankingIsStableSort | src/trading_scanner/application/ranking.py:254-256 | the ranking is a permutation, strongest first, and equal scores keep their order |
| Ranking.SelectTopNTakesTheStrongest | src/trading_scanner/application/ranking.py:259-273 | nobody is lost, the free slots are used, and everybody taken scores at least as high as everybody skipped |
| Ranking.CutoffDropsExactly | src/trading_scanner/application/capital_constrained_backtest.py:235-243 | cutting a ranked list at the first candidate below the floor drops exactly the candidates below it |
| CapitalSimulation.PaperAccount.Replay | src/trading_scanner/application/capital_constrained_backtest.py:109-255 | the whole simulation loop computes the specified account |
| CapitalSimulation.PaperAccount.TotalEquity | src/trading_scanner/application/capital_constrained_backtest.py:138-142 | the sum over open positions in any order |
| CapitalSimulation.PaperAccount.TryOpen | src/trading_scanner/application/capital_constrained_backtest.py:151-167 | opens exactly when cash covers the position size and buys at least one share; otherwise nothing changes |
| CapitalSimulation.PaperAccount.ProcessExit | src/trading_scanner/application/capital_constrained_backtest.py:173-201 | one exit: history first, then the position, then the money and the counters |
| CapitalSimulation.PaperAccount.ProcessEntries | src/trading_scanner/application/capital_constrained_backtest.py:203-249 | one cycle of entries: eligibility, ranking, floor, capital |
| CapitalSimulation.GroupByTimestamp | src/trading_scanner/application/capital_constrained_backtest.py:129-134 | the two dictionaries hold each timestamp's trades in their order |
| CapitalProperties.MoneyIsConserved | src/trading_scanner/application/capital_constrained_backtest.py:169-255 | after every timestamp of every replay, cash plus allocated capital plus named losses is initial capital plus profit, and every position taken is won, lost, open or named as lost |
| CapitalProperties.CleanReplayConserves | src/trading_scanner/application/capital_constrained_backtest.py:70-98 | with a price on every exit and one entry per symbol and timestamp, final equity is initial capital plus profit, and taken is wins plus losses plus open positions, costs on or off |
| CapitalProperties.BooksBreakExactly | src/trading_scanner/application/capital_constrained_backtest.py:182-184 | an exit keeps the books exactly when it has a price or finds no position; an entry exactly when it does not open over a held symbol |
| CapitalBooks.BooksBalanceExactly | src/trading_scanner/application/capital_constrained_backtest.py:169-255 | after any run, equity and position counts balance without exception exactly when every exit that found a position had a price and no funded entry found its symbol held |
| CapitalBooks.EquityExactly | src/trading_scanner/application/capital_constrained_backtest.py:56-89 | with positive entry prices, final equity is initial capital plus profit exactly under that condition: whenever it fails, money is gone |
| CapitalExamples.UnpricedExitLosesMoney | src/trading_scanner/application/capital_constrained_backtest.py:182-184 | a replay of six trades that ends with no equity and no loss in the profit, because one exit has no price |
| CapitalExamples.SecondEntryLosesMoney | src/trading_scanner/application/capital_constrained_backtest.py:151-167 | a replay of seven trades that ends with half of the money unaccounted for, because a symbol is entered twice at one timestamp |
| CapitalSolvency.CashNeverNegative | src/trading_scanner/application/capital_constrained_backtest.py:151-192 | with costs off and sane prices cash is never negative and every position holds what was paid for it |
| CapitalSolvency.ExitSolventExactly | src/trading_scanner/application/capital_constrained_backtest.py:182-192 | an exit keeps a solvent account solvent exactly when cash and proceeds cover the costs, or it has no price or no position |
| CapitalSolvency.SolventExactly | src/trading_scanner/application/capital_constrained_backtest.py:120-249 | with costs on or off the account is solvent throughout a run exactly when every exit of the run pays for itself |
| CapitalSolvency.SharesFit | src/trading_scanner/application/capital_constrained_backtest.py:153-160 | the whole shares a position size buys cost no more than it |
| CapitalExamples.CostsCanOverdraw | src/trading_scanner/application/capital_constrained_backtest.py:186-192 | six trades after which the simulation's cash is negative: five wins, then everything in a position that exits worthless, and the fees on top |
| CapitalCausality.NoLookAhead | src/trading_scanner/application/capital_constrained_backtest.py:120-249 | histories that show the same entries and exits up to a moment leave cash, positions, eligibility history and counters equal at that moment, whatever their trades do later |
| CapitalCausality.StateAfterIsOnTheRun | src/trading_scanner/application/capital_constrained_backtest.py:136-136 | that state is one the run passes through |
| CapitalCausality.EverySignalCountedOnce | src/trading_scanner/application/capital_constrained_backtest.py:82-89 | every BUY trade is taken, skipped for exactly one recorded reason, or skipped because its symbol is held |
| OrderLedger.LifecycleIgnoresInputOrder | src/trading_scanner/domain/order_lifecycle.py:134-134 | with distinct timestamps the lifecycle depends on which legs there are, not on how they are listed |
| OrderLedger.LifecycleMeaning | src/trading_scanner/domain/order_lifecycle.py:110-181 | each answer in terms of the legs as given: reconciliation exactly with an UNKNOWN leg; otherwise active or exit-pending exactly when completed buying exceeds completed selling; none, opening and closed likewise |
| OrderLedger.FailedLegsDoNotMatterExactly | src/trading_scanner/domain/order_lifecycle.py:152-156 | dropping failed legs changes nothing exactly when nothing remains or what remains still opens with a BUY |
| OrderLedger.UndocumentedStatusRaises | src/trading_scanner/domain/order_lifecycle.py:145-150 | the lifecycle raises exactly when, in time order, a leg with a status outside the five comes before every UNKNOWN leg |
| OrderLedger.TriggerPendingRaises | src/trading_scanner/infrastructure/db/live_orders.py:29-33 | an order the broker still holds back is enough |
| LegNetting.GroupIntoBaskets | src/trading_scanner/domain/order_lifecycle.py:96-107 | the grouping loop |
| LegNetting.BasketsPartition | src/trading_scanner/domain/order_lifecycle.py:96-107 | every leg is in exactly one basket, no basket is empty or repeated |
| LegNetting.WithKeyKeepsOrder | src/trading_scanner/domain/order_lifecycle.py:96-107 | each basket keeps its legs' order |
| LegNetting.Outcome | src/trading_scanner/domain/order_lifecycle.py:83-93 | the backward search for the outcome of a basket |
| LegNetting.LastRealMeaning | src/trading_scanner/domain/order_lifecycle.py:83-93 | a basket reports a failure exactly when every attempt failed, otherwise its last attempt that did not |
| LegNetting.NetUnclosedLegs | src/trading_scanner/infrastructure/db/live_orders.py:308-360 | the netting of every tradingsymbol, in order of first appearance |
| LegNetting.NetInOrder | src/trading_scanner/infrastructure/db/live_orders.py:350-359 | the loop that consumes the closed quantity |
| LegNetting.NettingConserves | src/trading_scanner/infrastructure/db/live_orders.py:350-359 | with partial quantities adjusted, what stays open is exactly opened less closed |
| LegNetting.NetIsSuffix | src/trading_scanner/infrastructure/db/live_orders.py:350-359 | without adjustment the open legs are the last ones, from the first not covered in full |
| LegNetting.CoveredIsCovered | src/trading_scanner/infrastructure/db/live_orders.py:351-354 | a leg is covered exactly when the closed quantity reaches it and all before it |
| LegNetting.ExitOfFirstOpenLeg | src/trading_scanner/application/live_cash_execution.py:623-643 | an exit sells the first open leg in full: once complete the leg leaves the list, and it sells more than is open exactly when more of the leg was already closed than later legs hold |
| LegNetting.OpenExactly | src/trading_scanner/infrastructure/db/live_orders.py:337-359 | a symbol has an open leg exactly when its opening quantity exceeds its completed closing quantity |
| LegNetting.LifecycleAgreesWithNetting | src/trading_scanner/domain/order_lifecycle.py:172-176 | the lifecycle calls a position active exactly when netting completed fills leaves an open leg |
| LegNetting.UnclosedAgreesExactly | src/trading_scanner/application/broker_reconciliation.py:43-56 | on every documented ledger without UNKNOWN legs, no unclosed leg means exactly none or closed, except exactly when an entry is in flight that is no larger than what was sold beyond what was bought |
| LegNetting.OversoldHidesAnEntry | src/trading_scanner/application/broker_reconciliation.py:49-54 | once more was sold than bought, a pending entry can have no unclosed leg |
| LegNetting.UnknownLegNeverResolves | src/trading_scanner/domain/order_lifecycle.py:145-150 | no later leg ends the reconciliation state |
| BrokerReconciliation.HoldingQuantity | src/trading_scanner/infrastructure/kite.py:456-492 | the two sums of one symbol's shares |
| BrokerReconciliation.HoldingQuantities | src/trading_scanner/infrastructure/kite.py:494-530 | the bulk pass agrees with the single lookup for every symbol |
| BrokerReconciliation.OccupiedCashSymbols | src/trading_scanner/application/broker_reconciliation.py:73-130 | the occupied set is everything the broker shows plus every ledger symbol not confirmed as sold off; the ledger alone when the broker cannot be read |
| BrokerReconciliation.ReleasedOnlyWhenSold | src/trading_scanner/application/broker_reconciliation.py:96-121 | a ledger symbol leaves only when all its legs are complete and completed selling after its latest entry covers its whole quantity |
| BrokerReconciliation.GetReconciliationRequiredSymbols | src/trading_scanner/application/broker_reconciliation.py:147-168 | the one-query sweep |
| BrokerReconciliation.SweepAgreesPerSymbol | src/trading_scanner/application/broker_reconciliation.py:157-168 | it lists a symbol exactly when the symbol's own lifecycle says so |
| BrokerReconciliation.FindHiddenPositions | src/trading_scanner/application/broker_reconciliation.py:171-217 | the sweep over the allowlist returns the hidden symbols in its order, and nothing when the broker cannot be read |
| BrokerReconciliation.HiddenMeaning | src/trading_scanner/application/broker_reconciliation.py:171-217 | a symbol is hidden exactly when it is allowlisted, held and has no unclosed leg |
| CashProtocol.AtMostOneLiveOrder | src/trading_scanner/application/live_cash_execution.py:443-526 | over every interleaving of calls, placements, fills, rejections, ledger writes, crashes and restarts, at most one order of a signal is not failed, as long as live orders are on the ledger whenever a day ends |
| CashProtocol.OneDayNeedsNoRecord | src/trading_scanner/application/live_cash_execution.py:218-350 | within one day this needs nothing of the ledger |
| CashProtocol.OrderlyDaysNeedNoAssumption | src/trading_scanner/application/live_cash_execution.py:456-464 | without crashes and with documented statuses it needs nothing over any number of days |
| CashDays.TurnOfDayExactly | src/trading_scanner/application/live_cash_execution.py:218-254 | when the next day comes to be open for a request, at its turn or after fills and sales of that day, acting on its signal again leaves at most one live order exactly when every live order of the signal was on the ledger at the turn of the day |
| CashDays.NextDayIsSafeExactly | src/trading_scanner/application/live_cash_execution.py:218-526 | and every run of that day is safe exactly then |
| CashDays.ForgottenOrderIsPlacedAgain | src/trading_scanner/application/live_cash_execution.py:226-254 | for every request and limit: with a crash before the ledger write and a sale elsewhere on the next day, the same signal is bought twice |
| CashProtocol.LookUpSeesLive | src/trading_scanner/infrastructure/kite.py:629-650 | the most recent order with the tag decides whether any order of the signal is live |
| CashProtocol.CapacityIsNeverExceeded | src/trading_scanner/application/live_cash_execution.py:428-441 | over every run the symbols held or on their way never exceed the limit |
| CashProtocol.BeginHasRoom | src/trading_scanner/application/broker_reconciliation.py:125-127 | everything at risk is counted before a call begins, so one more symbol fits |
| CashDesk.CashTrader.ExecuteCashEntry | src/trading_scanner/application/live_cash_execution.py:353-526 | the call with its retry loop is a run of the protocol that begins the call; it places and records an order exactly when the local checks pass and the broker shows neither an order of the signal that has not failed nor shares held, and it changes nothing when a local check fails |
| CashDesk.CashTrader.BrokerGroundTruthPreflight | src/trading_scanner/application/live_cash_execution.py:218-350 | the preflight: tag lookup, reconciliation, holding check; it blocks exactly when the broker shows an order of the signal that has not failed, or shares held |
| CashDesk.CashTrader.PlaceAndWait | src/trading_scanner/application/live_cash_execution.py:102-181 | a placement that is not accepted is rejected; one that cannot be read afterwards is unknown |
| CashDesk.CashTrader.TryOnce | src/trading_scanner/application/live_cash_execution.py:486-526 | one turn of the retry loop, the last of ten ends it |
| CashDesk.CallIsSafe | src/trading_scanner/application/live_cash_execution.py:353-526 | after any run, a call leaves at most one live order of each signal and stays within the limit |
| BasketExecution.BasketDesk.ExecuteBasketEntry | src/trading_scanner/application/live_execution.py:146-265 | hedge first, future second, roll-backs in order; nothing while any basket may be open |
| BasketExecution.BasketDesk.ExecuteBasketExit | src/trading_scanner/application/live_execution.py:268-315 | the first open future, then its hedge |
| BasketExecution.BasketDesk.Trade | src/trading_scanner/application/live_execution.py:78-143 | one order: rejection, cancellation of a working order, position and ledger row |
| BasketExecution.FutureNeverExceedsHedge | src/trading_scanner/application/live_execution.py:199-258 | for every pattern of fills the future is never larger than the hedge until the hedge is sold |
| BasketExecution.FlatOrFullyHedged | src/trading_scanner/application/live_execution.py:205-258 | if every roll-back completes the entry ends flat or fully hedged |
| BasketExecution.NakedExactly | src/trading_scanner/application/live_execution.py:231-245 | a roll-back leaves an unhedged future exactly when more of the future than of the hedge stays behind |
| BasketRoundTrip.RoundTripExactly | src/trading_scanner/application/live_execution.py:268-303 | a completed entry and exit net both legs to zero exactly when the contract was never traded, or was opened on the same side and settled in full |
| BasketRoundTrip.FirstEntryIsClean | src/trading_scanner/application/live_execution.py:146-265 | the first basket of an empty account that fills in full is such an entry |
| BasketRoundTrip.OppositeEntryIsInvisible | src/trading_scanner/infrastructure/db/live_orders.py:269-288 | after trades the other way round, a filled entry shows nothing open |
| BasketHistory.SettledAgain | src/trading_scanner/application/live_execution.py:268-303 | after a completed round trip in a settled contract the ledger shows nothing open and the contract is settled on the same side again |
| BasketHistory.RoundTripsCompose | src/trading_scanner/application/live_execution.py:146-303 | any number of full baskets on one side of a contract, one after the other, leave every position where it was and nothing open |
| BasketHistory.RollBackLeavesSurplus | src/trading_scanner/application/live_execution.py:221-258 | an entry on an empty account whose future filled in part and was rolled back leaves all flat and nothing open, but a closed surplus of what had filled, and the exit of the next full basket in the contract does not undo that basket |
| BasketHistory.ClosedTripHidesOpposite | src/trading_scanner/application/live_execution.py:146-303 | after one completed basket, a full basket the other way round in the same contract is open at the broker while the ledger shows nothing open |
| BasketRoundTrip.RepeatedExitExactly | src/trading_scanner/application/live_execution.py:287-303 | after a futures close that did not complete, the repeated exit ends off by exactly what the first attempt filled, on both legs |
| BasketRoundTrip.GuardCoversSymbol | src/trading_scanner/application/live_execution.py:169-175 | the global slot check covers each symbol's own open futures |
| BasketRoundTrip.NetAfterTrade | src/trading_scanner/infrastructure/db/live_orders.py:332-359 | what a contract nets to after one completed trade when nothing was open before |
| BasketRoundTrip.KeptEntriesAreCapped | src/trading_scanner/daily_swing_live.py:489-570 | an entry kept with both fill prices reported loses at most the cap at any expiry price, and is kept exactly when quotes, openness and actual worst case pass |
| BasketExecution.LossIsBounded | src/trading_scanner/application/live_execution.py:65-75 | no expiry price loses more than the defined loss |
| BasketExecution.BoundIsTightExactly | src/trading_scanner/application/live_execution.py:65-75 | some price reaches it exactly when the strike is on the protective side |
| DailySwing.BuildSetups | src/trading_scanner/application/daily_swing.py:175-202 | one setup with its score per symbol, a short one replacing a long one; it raises exactly when a selected row has no average range to divide by |
| DailySwing.SetupsAreBuilt | src/trading_scanner/application/daily_swing.py:152-201 | every setup built from a valid bar has its trigger beyond its stop by more than 0.15 ATR |
| DailySwing.CandidatesAreBounded | src/trading_scanner/application/daily_swing.py:205-271 | every candidate has 0 < risk < gate risk <= 2.2 ATR, risk below 3.5% of entry, a target three risks away, and room for two gate risks or no structure ahead |
| DailySwing.CandidatesOfBuiltSetups | src/trading_scanner/application/daily_swing.py:152-271 | from the daily bar to the candidate |
| DailySwing.ClosedFormExactly | analysis/nifty500_swing_backtest.py:282-311 | the history-free stop at the best close equals the backtest's loop over every sequence of closes exactly when the risk is positive or the initial stop lies at least the risk beyond the entry and within 1.25 average ranges behind it |
| DailySwing.PositiveRiskStartsUntrailed | src/trading_scanner/application/daily_swing.py:283-291 | a positive risk is enough for that |
| DailySwing.StopOnlyTightens | src/trading_scanner/application/daily_swing.py:274-291 | along every run the stop never loosens, never passes the best close, is at least at the entry after one risk and locks in one risk after two |
| DailySwing.SwingPosition.UpdateOnClose | src/trading_scanner/daily_swing_live.py:587-606 | the live update keeps the best close and recomputes the stop |
| DailySwing.SwingPosition.UpdateOnCloses | src/trading_scanner/daily_swing_live.py:578-606 | updating on each close is the backtest's loop |
| DailySwing.FindExit | analysis/nifty500_swing_backtest.py:282-314 | the exit loop leaves at the first bar that touches the stop of the bars before it or the target, the stop first, and at the last close otherwise |
| DailySwing.MinimumContractExpiry | src/trading_scanner/daily_swing_live.py:85-93 | the cursor loop counts seventeen weekdays on |
| DailySwing.GuardCutsHoldExactly | src/trading_scanner/daily_swing_live.py:58-93 | the expiry guard cuts the ten-session hold short exactly for a Tuesday or Wednesday entry into the earliest allowed contract, and never before the tenth session |
| CandleBuilding.BucketContains | src/trading_scanner/infrastructure/kite_ticker.py:43-55 | a moment lies within its bucket |
| CandleBuilding.BucketMonotone | src/trading_scanner/infrastructure/kite_ticker.py:43-55 | within a day later moments fall into the same or later buckets |
| CandleBuilding.IdempotentExactly | src/trading_scanner/infrastructure/kite_ticker.py:43-55 | for buckets up to a day, the start of a bucket start is itself at every moment exactly when the bucket divides the day or the time to the open |
| CandleBuilding.GridMonotone | src/trading_scanner/infrastructure/kite_ticker.py:43-55 | buckets that divide the day keep the order of moments over any number of days |
| CandleFeed.CandleAggregator.AddTick | src/trading_scanner/infrastructure/kite_ticker.py:87-104 | one more tick in the candle in progress |
| CandleFeed.CandleAggregator.Finalize | src/trading_scanner/infrastructure/kite_ticker.py:116-125 | open, high, low, close are the first, highest, lowest and last price of the ticks, volume the rise of the running total |
| CandleFeed.CandleRecorder.Roll | src/trading_scanner/daily_swing_live.py:354-368 | moves every instrument on to a later bucket and stores what each collected |
| CandleFeed.CandleRecorder.StoreAll | src/trading_scanner/daily_swing_live.py:370-379 | stores the candle of every instrument that has ticks, under the closed bucket |
| CandleFeed.CandleRecorder.StartSession | src/trading_scanner/daily_swing_live.py:217-228 | a session begins with new aggregators for every instrument |
| CandleFeed.CandleRecorder.OnTick | src/trading_scanner/daily_swing_live.py:284-287 | a tick rolls every instrument first and is then added to its own |
| CandleFeed.CandleRecorder.OnBoundary | src/trading_scanner/daily_swing_live.py:348-352 | the periodic check rolls without a tick |
| CandleFeed.CandleRecorder.OnMarketClose | src/trading_scanner/daily_swing_live.py:651-657 | the flush at the close |
| CandleFeed.EveryTickOnce | src/trading_scanner/daily_swing_live.py:354-379 | within a session every tick is in exactly one candle or in the bucket in progress, in order |
| CandleFeed.CloseFlushesAll | src/trading_scanner/daily_swing_live.py:644-657 | at the close nothing stays behind |
| CandleFeed.SessionKeepsAhead | src/trading_scanner/daily_swing_live.py:354-368 | within a session stored buckets strictly increase and stay before the one in progress, whatever the clock does |
| CandleSessions.BucketsIncreaseExactly | src/trading_scanner/daily_swing_live.py:644-690 | over any number of sessions, with restarts and closing flushes, stored buckets strictly increase exactly when no session goes on after its flush with a tick of the flushed bucket and then past it; the condition is on the events alone |
| CandleSessions.PromptSessionsIncrease | src/trading_scanner/daily_swing_live.py:673-690 | so no bucket is ever stored twice while sessions end before the clock leaves their last bucket |
| CandleSessions.StalledSessionRepeats | src/trading_scanner/daily_swing_live.py:644-690 | a day that stalls between its flush and the end of the session stores the 15:15 bucket twice |
| CandleFeed.LateTickRepeatsExactly | src/trading_scanner/daily_swing_live.py:354-368 | a feed that goes on after a flush stores the flushed bucket twice exactly when a tick still falls into it and the clock then moves past it; the service cancels its tasks once the flush is done, so this takes a stall |
| CandleFeed.TicksLandInTheirBucket | src/trading_scanner/daily_swing_live.py:284-287 | with a clock that never runs backwards and a bucket that divides the day, every tick is filed under its own bucket |
| CandleFeed.VolumesFitTheRise | src/trading_scanner/infrastructure/kite_ticker.py:116-125 | candle volumes add up to no more than the rise of the running total |
| CandleSessions.SessionVolumesFitTheRise | src/trading_scanner/infrastructure/kite_ticker.py:87-125 | the candles a session stores have no more volume together than the running total rose over the session's ticks |

## Left out

- Floating-point rounding, and the difference between infinities and NaN: columns hold reals or `NaN`.
- The shape of kernel weights, logarithms and roots: they are arbitrary functions. Only `ExactLimit` uses values of
  them, one of the root and one of the logarithm.
- Column expressions of numpy and pandas (comparisons, shifts, crossovers, rolling means) are functions on sequences; only the
  loops of the code are loops here.
- Reading and writing engine state as JSON: the memory is persisted as a value.
- `FastPredict.AdvanceBar`: the code repeats this body in the bootstrap loop, the live call and the batch loop; here it is one
  method.
- The validation runner beyond its signal state, change flags and bars-held counter.
- `CapitalSimulation.PaperAccount.Replay`: prices of zero and zero target slots, on which the code divides by zero and raises,
  are excluded.
- Per-symbol expectancy in the ranking: a candidate of the simulation never carries one.
- Leg rejection texts, and order ids other than as free text; basket ids of cash legs.
- `CashProtocol.AtMostOneLiveOrder`: assumes that broker lookups answer, that a placement that raises was not accepted, that a
  rejected or cancelled order filled nothing, that a final order never moves again, that tags identify signals, that the order
  book lists a tag's orders in the order they were accepted, and that no second process trades at the same time.
- `CashProtocol.CapacityIsNeverExceeded`: assumes one fixed limit, that nobody else buys, and that holdings change with fills.
- The gate, the entry cutoff and the back-off between attempts are inputs: open or closed, passed or not.
- Sizing of a cash order from its notional, notifications and logging.
- `BasketExecution.BasketDesk.Trade`: an exception while waiting for a fill leaves the code's flow entirely and is not modelled;
  nor are fills reported after an order was final.
- `BasketRoundTrip.RoundTripExactly`: assumes that ledger rows are stamped in the order they are written and that basket ids are
  fresh.
- Resolving option and futures contracts: the plan of an entry names them, and the same ones are quoted and traded.
- `DailySwing.BuildSetups`: takes the derived daily columns as given; their rolling medians, breadth and benchmark merge and
  the sorting of candidates by score are left out.
- `DailySwing.CandidatesAreBounded`: prices the ratios divide by are not zero, and the close is positive.
- The live exit on every tick, which reads the stop of `SwingPosition` against a price, and the persistence of positions.
- `DailySwing.GuardCutsHoldExactly`: counts weekdays; exchange holidays are not known to the code either.
- `CandleFeed.CandleRecorder.StartSession`: the instruments are the same in every session. Ticks of a bucket that a restart
  cuts off are dropped, as in the code.
- Bucket lengths of zero minutes, by which the code divides, or less.
- Rounding prices to ticks, history downloads, the cumulative-sum filter and the reports of the research backtest.
- Options and futures shadow trades, trailing bracket orders, manual exits, web pages, messaging, storage and configuration.
