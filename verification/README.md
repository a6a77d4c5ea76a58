# Paper trading, order books, arbitrage and risk: a verified model

This project models the decision and bookkeeping core of a multi-venue crypto trading bot that runs on paper money,
and proves what its parts promise over whole runs.

* **Ledger.** An order reserves funds, walks a depth book, gives back what it did not need and posts a fill, which
  changes cash, holdings, average cost, realized PnL and drawdown. `Ledger.dfy` and `PaperExecution.dfy` say what each
  operation does to an account value; `Portfolio.dfy` and `PaperExecutor.dfy` are the mutable objects, each method
  proved to do just that; `PlacementFacts.dfy`, `OrderOutcome.dfy` and `ExecutionAnswer.dfy` say what an order comes
  to and what is answered, `TradeResults.dfy` what a fill reports; `LedgerFacts.dfy`, `LedgerRuns.dfy`,
  `Tallies.dfy`, `Drawdown.dfy` and `Store.dfy` prove what holds over runs; `ScopeLimits.dfy` says exactly when it
  stops holding outside the scope, and `Witnesses.dfy` gives the runs in which it does.
* **Local order book.** A snapshot/delta protocol with gap and duplicate handling, a lossy depth cap and a cached view
  (`BookSide.dfy`, `BookProtocol.dfy`, `BookCap.dfy`, `BookView.dfy`, the object in `LocalOrderBook.dfy`);
  `BookProgress.dfy` says what each message does, `LocalVenues.dfy` what all that gives the strategy.
* **Depth walks, slippage, NET profit and cross-venue arbitrage** (`DepthWalk.dfy`, `Profitability.dfy`,
  `Arbitrage.dfy`, `ArbitrageScan.dfy`); `NetExact.dfy` and `ScanMeaning.dfy` say what is charged, reported and counted.
* **Kill switch and risk gate** as state machines, with their audit trail and sliding window (`KillSwitch.dfy`,
  `RiskGate.dfy`, `RiskRuns.dfy`, the object in `RiskEngine.dfy`); `SwitchMeaning.dfy` and `RiskVerdict.dfy` tell
  each act and each verdict from the outside.
* **Engine.** Gate and executor composed, over runs (`Engine.dfy`, `EngineRuns.dfy`, `EngineTheorems.dfy`, the object
  in `TradingEngine.dfy`), each of them a run of the ledger (`EngineLedger.dfy`), each step told in
  `EngineAnswer.dfy`; and what becomes of an arbitrage candidate on the way from the strategy to the fill
  (`CandidateFills.dfy`).
* **Performance tracker.** One log of trades and three rollups of it (`Tracker.dfy`, `TrackerRollups.dfy`);
  `TrackerMeaning.dfy` says what each call records.

Throughout, a class method's `ensures` ties the object's new state to a function of its old state, and the theorems are
about that function, so they hold of the objects.

The theorems about the ledger and the engine are stated for the orders the engine sends: limit orders with a positive
price, against a book whose sized levels have positive prices, in order-book slippage mode, with a fee rate between zero
and one, fresh order and fill ids, a base different from the quote and one symbol per base asset. Money is `real`.

Where the code and its description differ, the model follows the code:

* `_maybe_activate_kill_switch` activates nothing, it only reports conditions (`bot/risk/risk_engine.py:441-463`).
* `require_manual_recovery` has no effect on `recover`: both refusals test the same conditions
  (`bot/risk/kill_switch.py:131-141`); and the conditions are those last reported, not current ones.
* The exposure cap bounds the request without its fee, while the exposure it is compared with contains fees, so the
  promise after execution is the cap plus the fee (`bot/risk/position_limits.py:71-79`).
* `execute_approved` looks at the status and the opportunity of the decision it is given, not at its age, its quantity, the
  kill switch or the rate, and its orders are not stamped (`bot/engine/orchestrator.py:228-242`).
* A restart brings back the last save, which the runner writes every fifth cycle (`bot/paper/runner.py:294-295`), not the
  last state; orders are written but not read back; and the risk engine, with its switch and window, is not saved at all.
* The gate never trims a request: an approval always grants the full quantity (`bot/risk/risk_engine.py:354-402`).
* Two of the strategy's rejection codes and the depth rejection can never occur (`bot/strategies/arbitrage.py:250-358`).
* A candidate is sent with its average buying price as the limit of its one order, a buy, and the walk stops at the first
  level beyond it: a candidate over more than one price is not filled in full (`bot/strategies/arbitrage.py:281-287`,
  `bot/execution/paper_executor.py:390-399`).
* `apply_remote_book` may keep a stale book on a venue without sequence numbers (`bot/market_data/service.py:217-228`).

## Model

Helper lemmas have no row. Members are qualified by their module and class.

| member | source | states |
|---|---|---|
| `LedgerRuns.LedgerTheorem` | bot/execution/paper_executor.py:83-241 | from any starting capital, after any run of orders, cancellations, marks, redelivered fills, snapshots, saves and restarts from older saves: no balance is negative, each base total is its position's quantity, cash plus cost basis is the capital plus realized PnL, equity is that plus unrealized PnL, and without a restart every asset's reserved amount is the sum of the claims of exactly the open orders |
| `LedgerRuns.StepKeeps` | bot/execution/paper_executor.py:83-241 | every single action keeps that invariant, for the portfolio in memory and for the saved one |
| `LedgerRuns.AdvanceKeeps` | bot/execution/paper_executor.py:83-241 | every action on the executor moves the reserved amount of every asset exactly as it moves the open claims |
| `LedgerRuns.PlaceKeepsSurplus` | bot/execution/paper_executor.py:112-189 | for every asset, what placing an order leaves reserved beyond the open claims is what was reserved beyond them before, whether the order is refused, rests or fills |
| `LedgerRuns.CancelReturnsClaim` | bot/execution/paper_executor.py:225-241 | cancelling an open order moves exactly the amount it was reserved with back to available, and touches nothing else |
| `LedgerRuns.CancelUndoesResting` | bot/execution/paper_executor.py:112-146 | an order that rests and is cancelled leaves the account as if it had never been placed |
| `LedgerRuns.CancelReconcilesIff` | bot/execution/paper_executor.py:229-241 | cancelling keeps the reservation ledger if and only if the order is open or final, or nothing is reserved in its asset: a partly filled or already cancelled order has nothing left to give back |
| `Witnesses.CancelCanTakeFromOthers` | bot/execution/paper_executor.py:229-241 | an opening run in which it does go wrong: one buy rests, another is filled in part and cancelled |
| `LedgerRuns.RestartRestores` | bot/paper/store.py:98-155 | a restart brings back exactly the account that was saved, with no orders, and the ledger invariant with it |
| `LedgerRuns.RestartReconcilesIff` | bot/paper/store.py:98-180 | a restart keeps the reservation ledger if and only if no order was open at the save it brings back, whatever has happened since: the orders are in the file, but they are not restored |
| `Witnesses.RestartCanStrandReserves` | bot/paper/store.py:98-180 | an opening run in which it does not: an order rests, the portfolio is saved, the process starts again |
| `LedgerRuns.RedeliveryChangesNothing` | bot/execution/fill_tracker.py:30-52 | applying a processed fill again changes no part of the executor's world |
| `LedgerFacts.EquityIdentity` | bot/portfolio/models.py:154-165 | total equity is starting capital plus realized plus unrealized PnL whenever the books balance and the unrealized figure is current |
| `LedgerFacts.PostKeepsBooksIff` | bot/portfolio/accounting.py:79-134 | a fill keeps the accounting identity if and only if a buy's cost is covered by the quote total, a sale stays within the position it is booked against, or a sale against nothing has a fee equal to its proceeds: exactly when neither the clamp nor the floor bites |
| `LedgerFacts.PostKeepsBacking` | bot/portfolio/accounting.py:79-134 | every base asset's total stays equal to its position's quantity |
| `LedgerFacts.PostKeepsSolvency` | bot/portfolio/accounting.py:79-127 | a fill whose cost or goods are reserved leaves no balance negative and no position short |
| `LedgerFacts.FillKeeps` | bot/portfolio/portfolio.py:149-156 | a covered fill, posted once, keeps solvency, backing, the identity and the derived statistics together |
| `PlacementFacts.PlacementIsCovered` | bot/execution/paper_executor.py:112-189 | at the moment of posting, the account is the one before the order with exactly the fill's cost moved into reserve, and that cost is within the claim: the accounting's clamp and floor branches cannot be reached |
| `PlacementFacts.RejectionLeavesAccount` | bot/execution/paper_executor.py:112-174 | a rejected order leaves all balances as they were, in every slippage mode, for every order type, with or without a book |
| `PlacementFacts.LimitOrderFillsBest` | bot/execution/paper_executor.py:377-421 | a limit order fills the smaller of what was requested and what is on offer within its limit, at an average within the limit, and no other way of taking that quantity from the book is cheaper (for a sale: earns more) |
| `PlacementFacts.RestsIffAllBeyond` | bot/execution/paper_executor.py:336-346 | on a sorted book an order is left resting if and only if every level lies beyond its limit; then nothing is on offer within it, and on levels that all have size the converse holds too; when nothing is on offer and it does not rest, the best level lacks size and the order is refused |
| `PlacementFacts.LimitWalk` | bot/execution/paper_executor.py:390-410 | breaking at the first level beyond the limit loses nothing on a sorted book: the walk equals sweeping the whole book for what is on offer within the limit |
| `PlacementFacts.WalkWithinLimit` | bot/execution/paper_executor.py:392-404 | the average price respects the limit on any book, sorted or not |
| `OrderOutcome.OrderComesTo` | bot/execution/paper_executor.py:112-189 | on any book, from the order, the book, the fee rate and the funds alone: whether the order is refused, rests or fills, and with which quantity, value and fee |
| `OrderOutcome.SortedOrderComesTo` | bot/execution/paper_executor.py:112-189 | on a sorted book an order fills if and only if the funds are there and something is on offer within its limit, all of it unless parts will do; the fill is for the smaller of what was asked and what is on offer, at what sweeping the whole book for that quantity comes to, with the fee on it |
| `OrderOutcome.SortedBuyCost` | bot/execution/paper_executor.py:112-189 | what a buy will cost on a sorted book: the sweep for the smaller of what was asked and what is on offer, with the fee |
| `ExecutionAnswer.AnswerIsWorld` | bot/execution/paper_executor.py:83-223 | for any order of any type, with or without a book, in any mode: the answer's status, filled quantity, average, fee and reason are those of the order it leaves in the registry, the one fill is recorded and posted, the position has moved by exactly the answered quantity, and the answer is last in the history; a raised exception leaves an open order and nothing else |
| `ExecutionAnswer.SenderKnowsAnswer` | bot/execution/paper_executor.py:83-223 | the answer to a limit order on a sorted book, told from the funds, the book and the settings: Rejected for want of balance, Open out of reach, Rejected for want of liquidity, PartiallyFilled or Filled, exactly by those cases, for the smaller of request and depth; what is reported as slippage is by how much the fill was better than the limit |
| `ExecutionAnswer.MarketOrderComesTo` | bot/execution/paper_executor.py:377-421 | a market order, or one without a price, sweeps the whole book whatever price it names; refused for want of balance or liquidity exactly when; its slippage is the distance from its price, or else from the first of the book |
| `ExecutionAnswer.ReservationTells` | bot/execution/paper_executor.py:280-298 | what has to be at hand and is set aside: a buy's quantity at its own positive price or else the last mark, with the fee, nothing while there is neither; a sale's quantity itself |
| `ExecutionAnswer.FixedOrderComesTo` | bot/execution/paper_executor.py:359-375 | where no book is walked: an order never rests for want of a book, and fills in full at its reference moved against it by the fixed share, which is its slippage |
| `ExecutionAnswer.SizelessDoNotMatter` | bot/execution/paper_executor.py:390-396 | levels without size neither fill nor stop a walk, wherever they stand |
| `ExecutionAnswer.CancelTells` | bot/execution/paper_executor.py:225-241 | what cancelling asks back: the rest of the quantity at its price, or else at its average, with the fee, and no more than is reserved; what is filled, rejected or failed stays as it is |
| `ExecutionAnswer.AttachAddsUp` | bot/execution/order_manager.py:47-62 | each fill keeps an order's quantity, fee and slippage the sums of its fills and its average weighted by their quantities, and its status tells whether it is full |
| `ExecutionAnswer.AdjustTells` | bot/execution/paper_executor.py:300-334 | after the fill exactly what it needs stays set aside: the rest goes back, and what is missing is taken if it is there |
| `ExecutionAnswer.ExceptionKeepsReservation` | bot/execution/paper_executor.py:175-198 | when the fill record refuses its price, the exception leaves an open order with what the fill would have needed still set aside |
| `Tallies.TallyTheorem` | bot/portfolio/accounting.py:135-152 | after any run at all, with limit and market orders, with and without books, in any slippage mode and with any fee rate, saves and restarts included: total realized PnL and fees are the sums over the positions, the number of trades is the number of processed fills, and wins and losses do not exceed it |
| `Tallies.PostKeepsTallies` | bot/portfolio/accounting.py:119-152 | posting any fill keeps these sums |
| `Tallies.PreparingOnlyMoves` | bot/execution/paper_executor.py:112-189 | up to the fill an order changes no position, no processed id and no cumulative figure |
| `TradeResults.PostReports` | bot/portfolio/accounting.py:39-152 | what a fill is answered with is what it did: gross, net cash, realized gain, remaining position and average, one trade more, a win exactly for a gain and a loss exactly for a loss; a repeated id reports a duplicate and changes nothing |
| `TradeResults.CashMoves` | bot/portfolio/accounting.py:79-134 | the reported net cash of a covered fill is what the quote balance moved by, its quantity what the base balance moved by |
| `TradeResults.PositionMoves` | bot/portfolio/accounting.py:100-133 | a buy adds its cost with the fee to what the position has cost; a sale takes from the quantity and leaves the average; what sells it out leaves neither |
| `TradeResults.ReportsTheorem` | bot/portfolio/accounting.py:135-152 | after any run without a restart the number of trades, wins and losses, the volume, the realized PnL and the fees are those of the recorded results |
| `Store.ExactlyOnce` | bot/portfolio/accounting.py:47-61 | for any stream of deliveries with repeats, saves and crashes at any points, the account is the once-each fold of exactly the surviving fills, in order of first delivery, and the file is that of the fills live when it was written |
| `Store.SurvivesIff` | bot/paper/store.py:55-95 | a fill survives if and only if it was delivered at least once with a save before every later crash; it is in the file if and only if a save has followed |
| `Store.SurvivorsDistinct` | bot/portfolio/accounting.py:47-61 | no fill survives twice, and none that was processed before the start |
| `Store.LoadSaveIff` | bot/paper/store.py:112-155 | saving and loading restores the account if and only if its drawdown statistics had already seen its equity |
| `Drawdown.StreamingDrawdownTheorem` | bot/portfolio/portfolio.py:174-186 | in every reachable state the peak is the running maximum of the observed equities, the maximum drawdown is the largest loss from any observation to any later one, and 0 <= current <= maximum <= 1; a restart forgets what was observed after the save |
| `Drawdown.SeeExtends` | bot/portfolio/portfolio.py:174-186 | one streaming update extends the quadratic definition by one observation |
| `Drawdown.RunWatches` | bot/portfolio/portfolio.py:149-186 | the statistics in memory and on disk are the streaming update folded over the equities that the operations observed on their way there |
| `Drawdown.LossWithinOneIff` | bot/portfolio/portfolio.py:179-183 | a drawdown is at most one if and only if the equity has not fallen below zero |
| `Portfolio.PortfolioState.TotalEquity` | bot/portfolio/models.py:154-165 | the loop computes cash plus every open position at its mark, the average entry standing in for a missing mark |
| `Portfolio.AccountingEngine.ApplyFill` | bot/portfolio/accounting.py:39-152 | the state, the processed ids and the result are what posting the fill to the account value gives, also for a duplicate |
| `Portfolio.AccountingEngine.SettleBalances` | bot/portfolio/accounting.py:79-134 | both legs are settled one after the other on the same balances, creating missing entries |
| `Portfolio.AccountingEngine.SpendQuote` | bot/portfolio/accounting.py:81-97 | a cost is paid from the reservation, then from available, then with whatever there is |
| `Portfolio.AccountingEngine.DeliverBase` | bot/portfolio/accounting.py:110-115 | sold base is delivered from the reservation first |
| `Portfolio.AccountingEngine.BuyInto` | bot/portfolio/accounting.py:100-106 | a buy averages its cost, fee included, into the position |
| `Portfolio.AccountingEngine.SellFrom` | bot/portfolio/accounting.py:119-133 | a sale realizes its proceeds over the average cost and empties the position at or below zero |
| `Portfolio.PaperPortfolio.constructor` | bot/portfolio/portfolio.py:32-58 | a new portfolio is the opening account with the capital in quote |
| `Portfolio.PaperPortfolio.Reserve` | bot/portfolio/portfolio.py:124-136 | an amount moves from available to reserved if it is there; a refusal changes no amount |
| `Portfolio.PaperPortfolio.ReleaseReservation` | bot/portfolio/portfolio.py:138-147 | at most what is reserved moves back to available |
| `LedgerFacts.ReserveTells` | bot/portfolio/portfolio.py:124-136 | setting aside is granted exactly when the amount is available or nothing is asked for, and moves exactly that |
| `LedgerFacts.ReleaseTells` | bot/portfolio/portfolio.py:138-147 | giving back moves the amount, or all that is reserved if that is less |
| `LedgerFacts.PayTells` | bot/portfolio/accounting.py:81-97 | a cost is taken from the reservation first, then from available, and never beyond what there is |
| `LedgerFacts.DeliverTells` | bot/portfolio/accounting.py:110-115 | goods are taken from the reservation first, then from available, owing what is missing |
| `AssetNames.PairHasBase` | bot/portfolio/portfolio.py:158-163 | a pair names its base however the two are joined |
| `AssetNames.OtherIsItself` | bot/portfolio/accounting.py:155-160 | a symbol that does not end with the quote, or is no longer than it, is its own base |
| `AssetNames.OnlySeparatorsGo` | bot/portfolio/accounting.py:155-160 | nothing but the separators is dropped from a symbol |
| `Portfolio.PaperPortfolio.ApplyFill` | bot/portfolio/portfolio.py:149-156 | the portfolio does what the account value does: post once, then mark, then observe |
| `Portfolio.PaperPortfolio.SetMarkPrice` | bot/portfolio/portfolio.py:111-114 | a mark changes the marks and the derived statistics alone |
| `Portfolio.PaperPortfolio.LoadState` | bot/portfolio/portfolio.py:71-75 | the portfolio takes over the saved account, and the saved ids join those the engine holds already |
| `Portfolio.PaperPortfolio.GetSnapshot` | bot/portfolio/portfolio.py:77-109 | the snapshot shows the balances, the open positions with their gains, the current equity, peak and realized PnL, the number of open positions and what they cost |
| `Portfolio.PaperPortfolio.UpdateUnrealized` | bot/portfolio/portfolio.py:165-172 | the loop sums quantity times mark minus entry over the open positions |
| `Portfolio.PaperPortfolio.UpdateDrawdown` | bot/portfolio/portfolio.py:174-186 | the in-place update is the streaming step of the drawdown theorem |
| `PaperExecutor.PaperExecutor.Execute` | bot/execution/paper_executor.py:83-223 | the five objects together do exactly what placing the order on the world value does, and return its result; none when the fill record refuses its price; AnswerIsWorld and SenderKnowsAnswer tell what it answers |
| `PaperExecutor.PaperExecutor.TryToFill` | bot/execution/paper_executor.py:133-174 | from the open order on: rest, reject and release, or settle |
| `PaperExecutor.PaperExecutor.Settle` | bot/execution/paper_executor.py:176-223 | the fee, the kept reservation, the fill record, its posting and the new mark |
| `PaperExecutor.PaperExecutor.WalkLevels` | bot/execution/paper_executor.py:390-410 | the loop with its break at the limit is the greedy sweep of the reachable prefix of the book |
| `PaperExecutor.PaperExecutor.WalkBook` | bot/execution/paper_executor.py:377-421 | the plan of the walk: quantity, average price, slippage against the reference, or none for a thin book |
| `PaperExecutor.PaperExecutor.Simulate` | bot/execution/paper_executor.py:348-375 | the choice between walking the book and the fixed percentage |
| `PaperExecutor.PaperExecutor.Reservation` | bot/execution/paper_executor.py:280-298 | whether the funds are there, the asset and the amount to set aside |
| `PaperExecutor.PaperExecutor.AdjustReservation` | bot/execution/paper_executor.py:300-334 | what is kept, given back or additionally taken after a fill |
| `PaperExecutor.PaperExecutor.Cancel` | bot/execution/paper_executor.py:225-241 | cancelling is the transition of the world value, also for a final order; none for an unknown one |
| `PaperExecutor.OrderManager.AttachFill` | bot/execution/order_manager.py:47-62 | the order gains the fill, the weighted average price and the status that follows from its filled quantity |
| `PaperExecutor.OrderManager.SetStatus` | bot/execution/order_manager.py:33-45 | the status changes, and the reason if one is given |
| `PaperExecutor.OrderManager.Cancel` | bot/execution/order_manager.py:64-74 | a final order stays as it is, any other becomes cancelled |
| `PaperExecutor.FillTracker.Apply` | bot/execution/fill_tracker.py:30-52 | a fill is recorded and posted unless it is a duplicate |
| `ScopeLimits.FixedBuyKeepsBooksIff` | bot/execution/paper_executor.py:359-375 | under fixed slippage an affordable limit buy keeps the accounting identity if and only if all the quote there is covers the slipped cost |
| `ScopeLimits.FixedSlippageBreaksBooks` | bot/execution/paper_executor.py:327-330 | a capital of 100 spent at its limit with fifty per cent slippage breaks the identity |
| `ScopeLimits.FixedFillIsAdverse` | bot/execution/paper_executor.py:359-375 | a fixed-slippage fill happens if and only if there is a positive reference, is for the full quantity, and moves the price against the order by exactly the percentage it reports |
| `ScopeLimits.SaleStaysSolventIff` | bot/portfolio/accounting.py:116-134 | a covered sale leaves every balance non-negative if and only if its fee is covered by its proceeds and the cash at hand |
| `Witnesses.FeeCanOverdraw` | bot/portfolio/accounting.py:116-134 | with a fee rate of two, which the settings accept, buying one unit and selling it again leaves the quote balance negative |
| `EngineRuns.BuyKeepsCapIff` | bot/risk/position_limits.py:71-79 | an approved buy leaves the exposure within any cap if and only if the cost of sweeping the book within its limit, with the fee, fits into what the exposure leaves of the cap, nothing when the funds or the book do not allow a fill: told from the order, the book, the fee rate and the funds before the call |
| `Witnesses.FeeCanPassCap` | bot/risk/position_limits.py:71-79 | an approved opportunity whose execution leaves an exposure of 202 under a cap of 200 |
| `DepthWalk.GreedyIsFeasible` | bot/strategies/arbitrage.py:425-437 | the walk is itself one of the ways of taking its quantity from the book, level by level |
| `DepthWalk.SweepTouches` | bot/strategies/arbitrage.py:425-437 | the levels a walk counts are those it takes from |
| `DepthWalk.GreedyIsCheapest` | bot/strategies/arbitrage.py:411-454 | on ascending asks no way of taking the same quantity costs less |
| `DepthWalk.GreedyEarnsMost` | bot/strategies/arbitrage.py:411-454 | on descending bids no way of giving the same quantity earns more |
| `DepthWalk.SweepFills` | bot/strategies/arbitrage.py:425-437 | the walk fills the smaller of the request and the size on offer |
| `DepthWalk.AveragePriceMonotone` | bot/execution/paper_executor.py:389-421 | a larger buy never has a better average price |
| `DepthWalk.AverageProceedsMonotone` | bot/execution/paper_executor.py:389-421 | a larger sale never has a better average price |
| `Arbitrage.WalkBook` | bot/strategies/arbitrage.py:411-454 | the loop computes the walk's average, filled quantity, depth and whether it sufficed |
| `Arbitrage.WalkFillMeans` | bot/strategies/arbitrage.py:411-455 | what the walk reports: the smaller of request and depth, its average, all of the side, the levels it took from, and whether that was enough |
| `Profitability.WalkBookImpact` | bot/profitability/slippage.py:110-169 | the loop computes impact, thin-book penalty, consumed ratio and average of the raw walk |
| `Profitability.WalkersAgree` | bot/profitability/slippage.py:117-131 | the slippage walker and walk_book fill and pay the same when no amount is negative |
| `Profitability.SlippageGrows` | bot/profitability/slippage.py:42-96 | the estimate is non-negative and never shrinks as the quantity grows, also past the end of the book |
| `Profitability.LegGrows` | bot/profitability/slippage.py:110-169 | so do one leg's impact and penalty, from inside the book, across its end, and on an empty one |
| `Profitability.GrossLessImpactIsSweptCash` | bot/profitability/slippage.py:42-96 | on a deep enough book and with an impact factor of one, gross profit less market impact is exactly the cash from sweeping the bids less the cash for sweeping the asks, for either direction |
| `Profitability.GrossIsCashDifference` | bot/profitability/net_profit.py:147-151 | gross profit is the notional of the sold leg minus that of the bought leg, as the fee calculator splits them |
| `Profitability.ShortMirrorsLong` | bot/profitability/fee_calculator.py:69-112 | a short is the long with its legs exchanged: the same fee on the same leg, the same gross, the opposite funding |
| `Profitability.AllowedIffNetClears` | bot/profitability/net_profit.py:109-137 | a trade is allowed if and only if NET is positive and clears both thresholds; gross profit plays no part |
| `NetExact.EstimateIs` | bot/profitability/net_profit.py:41-107 | every figure of the estimate, for every side, role, book and setting: gross, both fees, slippage, funding, buffer, NET and return, written out with the ten thousand that turns basis points into a share, and each reason exactly when it applies |
| `NetExact.LegIs` | bot/profitability/slippage.py:110-173 | one leg on any book, sorted or not: its impact is the distance of the sweep from the reference, and the rest at the last price; the penalty is the basis points of the rest; the consumed ratio is always one |
| `Arbitrage.CandidateLegs` | bot/strategies/arbitrage.py:210-266 | both legs of a candidate are filled in full at the reported averages, so the rejection for insufficient depth is unreachable |
| `NetExact.CandidateNets` | bot/strategies/arbitrage.py:281-320 | what the engine estimates for a candidate is exactly the cash at its averages, both taker fees paid, less the basis points for slippage on both legs and for execution on the bought one |
| `NetExact.PairTheorem` | bot/strategies/arbitrage.py:210-380 | what becomes of an ordered pair of venues, from the two books and the settings alone: reported exactly when the exchanges differ, the quantity suffices, the bids bring more than the asks cost, and that exact NET is positive and clears both thresholds; and which code it is dropped with otherwise |
| `Arbitrage.EdgeRaisesBid` | bot/strategies/arbitrage.py:250-266 | between sorted, uncrossed books every candidate leads to a venue with a strictly higher best bid |
| `Arbitrage.CandidatesAcyclic` | bot/strategies/arbitrage.py:139-151 | over any number of venues no chain of candidates returns to a book it has left |
| `LocalVenues.ViewIsOrderly` | bot/market_data/local_order_book.py:201-238 | whatever was lost, repeated or reordered and whatever the depth cap has cut: what a synchronized local book shows of an uncrossed, truthful venue is in trading order and not crossed |
| `LocalVenues.LocalCandidatesAcyclic` | bot/strategies/arbitrage.py:139-151 | so over local books of such venues no chain of candidates returns to a view it has left, with nothing assumed of the books |
| `Arbitrage.LaterGatesAreDead` | bot/strategies/arbitrage.py:326-358 | the strategy's own two NET checks can never reject what the engine allowed |
| `Arbitrage.EmittedIsCashPositive` | bot/strategies/arbitrage.py:281-380 | sweeping the very levels for the emitted quantity and paying both taker fees leaves at least the reported NET, which is positive and clears the threshold |
| `Arbitrage.SweepIsBestCash` | bot/strategies/arbitrage.py:237-266 | no other way of trading that quantity on the two books leaves more cash |
| `ArbitrageScan.ScreenedPairIff` | bot/strategies/arbitrage.py:173-208 | between venues that passed the screening, too little overlap depends on the settings alone, and otherwise there is a candidate if and only if the bids bring more than the asks cost |
| `ArbitrageScan.EmittedIff` | bot/strategies/arbitrage.py:133-152 | an opportunity is emitted for a symbol if and only if some ordered pair of its venues evaluates to it |
| `ScanMeaning.ScanTheorem` | bot/strategies/arbitrage.py:114-152 | whatever the order and number of the snapshots: an opportunity is reported exactly when two usable snapshots of one symbol, tried as buyer and seller, give it |
| `ScanMeaning.UsableIff` | bot/strategies/arbitrage.py:173-208 | a snapshot may be used exactly when it names its exchange, has both sides of a book, each with the least size, and is neither late nor old |
| `ScanMeaning.FaultOfVenue` | bot/strategies/arbitrage.py:173-208 | which fault a snapshot is refused with: the first in this order |
| `ScanMeaning.SymbolsAre` | bot/strategies/arbitrage.py:154-171 | the symbols tried are those with a usable snapshot, each once |
| `ScanMeaning.VenueCodesAre` | bot/strategies/arbitrage.py:154-171 | there is one rejection for each refused snapshot, with its fault |
| `ScanMeaning.LonelyAre` | bot/strategies/arbitrage.py:114-131 | the symbols left alone are those with a single usable snapshot |
| `ScanMeaning.CountedMeans` | bot/strategies/arbitrage.py:382-398 | each code is counted as often as it is given |
| `ScanMeaning.ScanFunnel` | bot/strategies/arbitrage.py:114-152 | the depth edges a scan counts are the opportunities it reports and the pairs it drops as unprofitable |
| `ScanMeaning.EveryPairIsTried` | bot/strategies/arbitrage.py:133-152 | with one book from each of n exchanges, n times n less one pairs are tried |
| `ArbitrageScan.ArbitrageStrategy.Reject` | bot/strategies/arbitrage.py:382-398 | one more rejection in total and one more under its code, and the counts by code still add up to the total |
| `ArbitrageScan.ArbitrageStrategy.BuildCandidate` | bot/strategies/arbitrage.py:210-279 | the candidate or the code of its rejection, counted once |
| `ArbitrageScan.ArbitrageStrategy.EvaluatePair` | bot/strategies/arbitrage.py:133-152 | one pair is one emission or one rejection, and the funnel counters follow |
| `ArbitrageScan.ArbitrageStrategy.EvaluateSymbol` | bot/strategies/arbitrage.py:133-152 | all ordered pairs of different venues are evaluated once, and each ends as one emission or one rejection |
| `ArbitrageScan.ArbitrageStrategy.GroupValid` | bot/strategies/arbitrage.py:154-171 | the usable snapshots in order, by symbol; every other is one rejection |
| `ArbitrageScan.ArbitrageStrategy.EvaluateMarkets` | bot/strategies/arbitrage.py:114-131 | rejections plus emissions are pairs plus unusable snapshots plus lonely symbols: nothing is lost; each rejection is counted under its code |
| `CandidateFills.CandidateFillsIff` | bot/execution/paper_executor.py:377-421 | a limit buy of a candidate's quantity at its average buying price fills in full if and only if every level it was priced from stands at one price; otherwise it fills with what is on offer up to the average, or is refused where parts will not do |
| `CandidateFills.ApprovedCandidateIsBought` | bot/engine/orchestrator.py:244-277 | once the gate has approved it, the engine's position grows by exactly that, if the quote for all of it is at hand, and by the full quantity if and only if it is and all stands at one price |
| `CandidateFills.AverageAsLimit` | bot/strategies/arbitrage.py:237-266 | with the average of a sweep as the limit there is always something on offer within it, and all of the quantity if and only if the sweep takes at one price |
| `CandidateFills.TwoPriceCandidate` | bot/execution/paper_executor.py:390-410 | one unit at 100 and one at 101: a candidate for two at 100.5, of which one is filled, or none where parts will not do |
| `BookCap.CapTheorem` | bot/market_data/local_order_book.py:155-173 | after any messages at all, numbered or not, true or not: the capped book agrees with the same feed applied without a cap in everything but its levels, every held level is the uncapped one's, the best depth - lost levels are the same, so best bid and ask are while lost < depth, and a side that was never cut is the uncapped side |
| `BookCap.ReactKeepsTwins` | bot/market_data/local_order_book.py:99-153 | one event keeps the two books that close, with what it costs counted |
| `BookCap.WideCapIsNoCap` | bot/market_data/local_order_book.py:165-173 | a cap that is not exceeded changes nothing: the uncapped reaction is the book's own |
| `BookProgress.DeltaMeetsBook` | bot/market_data/local_order_book.py:108-152 | a numbered delta at a synchronized book: one that builds on its number is applied and answered True, with the new number and no gap; one from before changes nothing; any other is answered False, counts one gap, and leaves the levels waiting for a snapshot |
| `BookProgress.UnnumberedIsApplied` | bot/market_data/local_order_book.py:113-152 | without a number on either side a delta is applied unseen |
| `BookProgress.WaitingRefuses` | bot/market_data/local_order_book.py:105-107 | a book that waits for a snapshot answers False to every delta and counts nothing |
| `BookProgress.SnapshotReplaces` | bot/market_data/local_order_book.py:78-97 | a snapshot of the book's market replaces everything whatever the book was; one of another market raises and changes nothing |
| `BookProgress.DeltaAtPrice` | bot/market_data/local_order_book.py:156-163 | the last level a delta has at a price decides: a size is the size there, no size means no level, and other prices stay |
| `BookProgress.SnapshotAtPrice` | bot/market_data/local_order_book.py:81-82 | a side of a snapshot holds exactly the prices that come with a size, each with the last one |
| `BookProgress.FeedInOrder` | bot/market_data/local_order_book.py:99-152 | whatever the book was: a snapshot and every delta in order, repetitions among them, leave it synchronized at the last number without a gap |
| `BookProgress.FeedInOrderIsVenue` | bot/market_data/local_order_book.py:99-152 | if these are a venue's own, each level is the venue's at that number, and the side is the venue's if nothing was cut |
| `BookProgress.WaitsForSnapshot` | bot/market_data/local_order_book.py:105-107 | nothing but a snapshot of its market ends the waiting |
| `BookProgress.FreshBookWaits` | bot/market_data/local_order_book.py:29-48 | a new book has no levels, number or gaps, and waits |
| `BookProtocol.BookTheorem` | bot/market_data/local_order_book.py:67-163 | however a truthful venue's numbered messages are dropped, repeated and reordered: while the book calls itself synchronized, every held level is the venue's at the shown sequence number, the best depth - lost levels are the venue's, and the whole side is if the cap never cut |
| `BookProtocol.UnnumberedLossGoesUnnoticed` | bot/market_data/local_order_book.py:108-137 | why it needs the numbers: with or without a delta that carries none the book is synchronized and shows the same number and gaps |
| `BookProtocol.ReactFollows` | bot/market_data/local_order_book.py:99-153 | one message or disconnect keeps that relation, with what it costs counted |
| `BookSide.MessageKeepsShadow` | bot/market_data/local_order_book.py:155-163 | a message applied to the capped and the uncapped side loses at most as many of the best levels as it deletes held ones |
| `BookSide.ShadowTop` | bot/market_data/local_order_book.py:165-173 | the best depth - lost levels of both sides are the same levels |
| `BookSide.BoundIsTight` | bot/market_data/local_order_book.py:165-173 | the bound cannot be improved: one deleted held level makes the best depth levels wrong and leaves depth - 1 right |
| `BookSide.CutIsTrim` | bot/market_data/local_order_book.py:165-173 | sorting and cutting keeps exactly the prices with fewer than depth better ones |
| `BookView.TopOfBookIsExact` | bot/market_data/local_order_book.py:179-189 | best bid and best ask are the venue's own, for numbered messages, while fewer held levels were deleted than the cap has |
| `BookView.ViewHeads` | bot/market_data/local_order_book.py:179-238 | the tops are the heads of every view |
| `BookView.ViewShows` | bot/market_data/local_order_book.py:201-238 | a synchronized book with both sides shows the best levels of each, so many as are asked for, at least one, up to its cap when nothing is said; no other book shows anything |
| `BookView.LiquidityIsPrefixSum` | bot/market_data/local_order_book.py:191-199 | the sum over the dict is the whole prefix sum of the sorted asks |
| `BookView.SliceKeeps` | bot/market_data/local_order_book.py:191-199 | a limit keeps the first so many levels, a negative one all but the last so many |
| `BookView.DeepViewsAgree` | bot/market_data/local_order_book.py:201-238 | asking for the cap or more is asking for everything, so one cache serves all such requests |
| `BookView.ReactKeepsHeld` | bot/market_data/local_order_book.py:78-173 | no side ever exceeds the cap or holds a level without size |
| `BookView.ListedInTradingOrder` | bot/market_data/local_order_book.py:214-226 | a materialized side is sorted best first, each price once, with the held amount: what the depth walks assume |
| `BookView.ListRoundTrip` | bot/market_data/local_order_book.py:201-238 | a published list read back as a snapshot is the side it was made from |
| `BookView.RemoteCopyIff` | bot/market_data/service.py:205-234 | a consumer with room shows what the publisher shows if and only if the shortcut does not fire, or fires on a book that really is unchanged |
| `BookView.ShortcutCanBeStale` | bot/market_data/service.py:217-228 | the shortcut does misjudge two different books of the same time and size |
| `LocalOrderBook.LocalOrderBook.constructor` | bot/market_data/local_order_book.py:29-48 | an empty book waiting for a snapshot, with a depth of at least one |
| `LocalOrderBook.LocalOrderBook.Take` | bot/market_data/local_order_book.py:99-153 | the object and its answer are those of the protocol: gap, duplicate, next, or the exception; BookProgress tells each branch apart |
| `LocalOrderBook.LocalOrderBook.TakeSnapshot` | bot/market_data/local_order_book.py:78-97 | a snapshot replaces the book and synchronizes it, a foreign one changes nothing |
| `LocalOrderBook.LocalOrderBook.MarkDesynchronized` | bot/market_data/local_order_book.py:67-76 | the book waits for a snapshot and the cache is gone |
| `LocalOrderBook.LocalOrderBook.Updated` | bot/market_data/local_order_book.py:155-163 | the loop applies the levels in order, an amount of zero or less removing the level |
| `LocalOrderBook.LocalOrderBook.TrimSide` | bot/market_data/local_order_book.py:165-173 | sorting, slicing and rebuilding keeps exactly the best max_depth levels |
| `LocalOrderBook.LocalOrderBook.BestOf` | bot/market_data/local_order_book.py:179-189 | the best price held and its amount |
| `LocalOrderBook.LocalOrderBook.TopLiquidity` | bot/market_data/local_order_book.py:191-199 | the prefix sum of the sorted asks, on both paths |
| `LocalOrderBook.LocalOrderBook.ToOrderBook` | bot/market_data/local_order_book.py:201-238 | the answer is always the view a fresh sort gives, from the cache or not |
| `LocalOrderBook.MarketDataConsumer.ApplyRemoteBook` | bot/market_data/service.py:205-234 | the book of the market, found or created, takes the published view; no other book changes |
| `KillSwitch.AuditTrailTheorem` | bot/risk/kill_switch.py:68-199 | after any history the switch blocks if and only if the last audit event is an activation, carrying its state, reason and code; failures at the limit mean an emergency stop |
| `KillSwitch.UnblocksIff` | bot/risk/kill_switch.py:118-149 | a blocked switch is released if and only if recovery is asked for by force or with all five conditions reported as met; the setting that demands manual recovery changes nothing |
| `KillSwitch.RecoveryUsesStaleConditions` | bot/risk/kill_switch.py:105-149 | right after failures have stopped a switch whose last report was good, an unforced recovery succeeds |
| `KillSwitch.ReportedInstabilityHolds` | bot/risk/kill_switch.py:101-149 | once an unmet condition is reported, nothing short of force or a new report releases the switch |
| `SwitchMeaning.ActsFollow` | bot/risk/kill_switch.py:68-180 | every act in every state: the new state, reason, code, time, failures, conditions and audit event, and when nothing changes |
| `SwitchMeaning.FewFailuresDoNothing` | bot/risk/kill_switch.py:86-99 | executions failing and succeeding in any order leave the state alone as long as there have not been failure_limit failures in a row |
| `SwitchMeaning.FailureRowStops` | bot/risk/kill_switch.py:89-99 | and the failure that completes the row is an emergency stop |
| `SwitchMeaning.RecoveryAnswers` | bot/risk/kill_switch.py:118-149 | recover says yes exactly when the switch is running afterwards |
| `KillSwitch.KillSwitch.Transit` | bot/risk/kill_switch.py:151-199 | state, reason, code, time and the emitted event of a transition, and nothing for a repeated one |
| `KillSwitch.KillSwitch.RecordFailure` | bot/risk/kill_switch.py:89-99 | failures are counted and the limit stops the switch, with the audit trail kept |
| `KillSwitch.KillSwitch.DoRecover` | bot/risk/kill_switch.py:118-149 | the answer and the new state of a recovery, with the audit trail kept |
| `KillSwitch.KillSwitch.DoPause` | bot/risk/kill_switch.py:73-76 | pausing does not weaken an emergency stop |
| `KillSwitch.KillSwitch.DoWarn` | bot/risk/kill_switch.py:68-71 | a warning never changes a blocked switch |
| `KillSwitch.KillSwitch.DoStop` | bot/risk/kill_switch.py:78-84 | an emergency stop from any state |
| `RiskGate.UnbreachedIsFull` | bot/risk/position_limits.py:58-101 | without a breach the calculator allows exactly the request, within all three caps |
| `RiskGate.TrimmedIffBreached` | bot/risk/position_limits.py:58-101 | the allowed quantity is worth the allowed notional, within every cap and the request, and falls short of the request if and only if a breach is reported |
| `EngineRuns.GateSeesPortfolioDrawdown` | bot/risk/position_limits.py:108-115 | the drawdown the gate computes from a snapshot is the one the portfolio keeps |
| `RiskGate.ApprovalMeaning` | bot/risk/risk_engine.py:79-439 | the gate approves if and only if the switch is unblocked, the opportunity is unleveraged, profitable and above the minimum, the exchange healthy, data age, latency, slippage, liquidity and price move within their limits, the daily loss and the drawdown below theirs, and there is room among the positions, in the window and under all three caps; an approval is for the full request and is stamped |
| `RiskVerdict.VerdictTheorem` | bot/risk/risk_engine.py:67-439 | the whole verdict from what the caller holds: the first of eighteen checks that objects gives its code, score, quantity and loss, and pauses the switch exactly for an unhealthy exchange, stale data, the daily loss and the drawdown, with the figures compared; with no objection the approval is for all of it, with its warnings, score and loss; the conditions reported are those of the moment |
| `RiskVerdict.LimitsAre` | bot/risk/position_limits.py:58-101 | which cap is breached first, and that the quantity offered instead is worth the smallest of the caps and what is left of the exposure |
| `RiskVerdict.ConditionsAreTold` | bot/risk/risk_engine.py:441-463 | the five conditions reported to the switch are what is true now |
| `RiskGate.LossReachedIff` | bot/risk/position_limits.py:103-106 | the daily loss is at its limit exactly when it has reached the amount, or for positive equity the share of it |
| `RiskGate.DrawdownReachedIff` | bot/risk/position_limits.py:108-115 | the drawdown is at its limit exactly when the equity has fallen from a recorded peak by the share of it |
| `RiskGate.PriceJumpedIff` | bot/risk/risk_engine.py:248-274 | the price move is abnormal exactly when the current price is further from the reference than the percentage of it |
| `RiskRuns.TraceSafetyTheorem` | bot/risk/risk_engine.py:79-95 | between an activation in the audit trail and any later approval there is a recovery, forced or with all five conditions reported as met |
| `RiskRuns.RunKeepsAudit` | bot/risk/risk_engine.py:67-463 | asking, in any order with anything else that acts on the switch, keeps state and audit trail in step |
| `RiskRuns.BlockedNeverApproves` | bot/risk/risk_engine.py:79-95 | a blocked switch means no approval, whatever is asked |
| `RiskRuns.RateBoundTheorem` | bot/risk/risk_engine.py:336-352 | with a clock that does not run backwards, every closed window of 60 seconds holds at most max_trades_per_minute approvals |
| `RiskRuns.RunKeepsRate` | bot/risk/risk_engine.py:428 | the window holds the latest approvals and what dropped out is more than a minute old; an approval and the one max_trades_per_minute later are more than a minute apart |
| `RiskRuns.SpacedIff` | bot/risk/risk_engine.py:336-352 | every minute holds at most so many ordered times if and only if each is more than a minute later than the one that many places before it |
| `RiskRuns.OneMoreKeepsSpacedIff` | bot/risk/risk_engine.py:336-352 | one more time keeps the spacing if and only if fewer than the rate of the times so far lie in the minute that ends with it |
| `RiskRuns.PruneDropsOld` | bot/risk/risk_engine.py:500-503 | pruning drops a prefix of entries older than the cutoff, and nothing else |
| `RiskEngine.RiskEngine.Evaluate` | bot/risk/risk_engine.py:67-439 | the engine's objects and its decision, with code, quantity, loss, risk score and warnings, are those of the gate value, which VerdictTheorem tells from the outside |
| `RiskEngine.RiskEngine.Screen` | bot/risk/risk_engine.py:97-334 | the first check that objects, with its code, score, quantity and loss, and the pause it causes |
| `RiskEngine.RiskEngine.PruneTradeWindow` | bot/risk/risk_engine.py:500-503 | the loop is the pruning function |
| `RiskEngine.RiskEngine.MaybeActivateKillSwitch` | bot/risk/risk_engine.py:441-463 | only the reported conditions change |
| `RiskEngine.RiskEngine.SoftWarnings` | bot/risk/risk_engine.py:402-423 | the warnings that accompany an approval, on the switch and in the decision, and their part of the score |
| `EngineTheorems.CapsTheorem` | bot/engine/orchestrator.py:84-131 | in every reachable state, through run_once, execute_approved with any ruling, and restarts, the ledger is sound and switch and audit trail agree; there are at most the maximum of open positions and one for each execute_approved that reached the executor; and the exposure never exceeds what approvals (the cap at the equity shown, with the fee, and what went unseen) and those calls allowed; without such calls there is no slack |
| `EngineTheorems.RunKeepsCaps` | bot/engine/orchestrator.py:84-131 | the same from any state in which it holds |
| `EngineRuns.ManualCall` | bot/engine/orchestrator.py:228-277 | execute_approved with any honoured ruling: the ledger stays sound, a position is opened exactly when the fill opens one, and a buy's exposure grows by exactly what its fill costs |
| `EngineRuns.ManualKeepsCapsIff` | bot/engine/orchestrator.py:228-242 | execute_approved keeps the caps that held if and only if a buy that will fill opens no position at the maximum, and what sweeping the book within its limit costs, with the fee, fits into what the exposure leaves: told from the order, the book, the fee rate and the funds before the call |
| `EngineRuns.RefusedCallChangesNothing` | bot/engine/orchestrator.py:228-239 | a decision that is not approved or not for this opportunity changes nothing |
| `Witnesses.ReplayCanPassCap` | bot/engine/orchestrator.py:228-242 | the decision just used is used again: an exposure of 404 where the approval allowed 202 |
| `EngineTheorems.DispatchRateTheorem` | bot/engine/orchestrator.py:84-131 | however the engine is used, any minute holds at most max_trades_per_minute orders handed to the executor, and those the gate has no record of: calls of execute_approved, and what came before the risk engine was made anew |
| `EngineTheorems.RunOnceKeepsRate` | bot/engine/orchestrator.py:104-120 | used through run_once alone, by one risk engine, at most max_trades_per_minute in any minute |
| `EngineTheorems.RateHoldsIff` | bot/engine/orchestrator.py:84-131 | for everything handed over, every minute holds at most the setting if and only if at each handover fewer than that lie in the minute that ends with it |
| `Witnesses.ReplayCanBreakRate` | bot/engine/orchestrator.py:228-242 | an approval and its replay a second later: two orders in a minute under a setting of one |
| `Witnesses.RebootCanBreakRate` | bot/risk/risk_engine.py:38-51 | a new risk engine knows nothing of the old one's approvals: again two orders in a minute under a setting of one |
| `EngineTheorems.StoppedEngineTradesNothing` | bot/engine/orchestrator.py:104-120 | from the moment the switch blocks until it is recovered or replaced, what reaches the executor is exactly what execute_approved is called for: run_once hands over nothing |
| `EngineTheorems.RunIsGateRun` | bot/engine/orchestrator.py:104-120 | the engine's gate runs as the gate alone does since it was made, and what it has a record of is exactly its own approvals |
| `EngineTheorems.RunOnceIsTasks` | bot/engine/orchestrator.py:84-131 | a cycle is a look and a deal for each opportunity it gets to, so what holds over all sequences of tasks holds over all cycles |
| `EngineRuns.ApprovalKeepsCaps` | bot/engine/orchestrator.py:244-277 | an approved opportunity becomes an order for the requested quantity, and whatever the executor makes of that order, the open positions stay within the maximum and a buy's exposure within its allowance, but for what the gate was not shown; a sale never raises it |
| `EngineRuns.ApprovedOrder` | bot/engine/orchestrator.py:252-265 | the order handed over is for what was asked, at the asked price |
| `EngineRuns.RejectionNeverExecutes` | bot/engine/orchestrator.py:109-112 | a rejected opportunity changes no order, fill, result, balance or position |
| `EngineRuns.SettledExposure` | bot/risk/position_limits.py:71-74 | a buy adds its cost with the fee to the exposure, a sale never adds to it |
| `EngineRuns.ExposureIsCost` | bot/core/models.py:214-219 | for long positions the gross exposure is the cost basis of the ledger identity |
| `TradingEngine.TradingEngine.RunOnce` | bot/engine/orchestrator.py:84-131 | the objects and the outcomes of a cycle are those of the desk value: snapshot first, refreshed only after executions, an exception ending the cycle |
| `TradingEngine.TradingEngine.ConsiderOne` | bot/engine/orchestrator.py:98-127 | one turn of the loop: mark, ask, execute what was approved, look again |
| `TradingEngine.TradingEngine.ExecuteOpportunity` | bot/engine/orchestrator.py:244-277 | a limit order at the entry price for the granted quantity |
| `TradingEngine.TradingEngine.ExecuteApproved` | bot/engine/orchestrator.py:228-242 | the guard on status and opportunity, then the same call, with nothing recorded in the gate |
| `EngineAnswer.ConsiderTells` | bot/engine/orchestrator.py:98-127 | one opportunity from the outside: its price is marked, the gate is asked with what it was shown, what it approves is handed over as a limit order at the entry price and answered by the executor, and only then is the portfolio looked at again |
| `EngineAnswer.DispatchHandsOver` | bot/engine/orchestrator.py:244-277 | the order is for what was granted, or all of it when that is zero, at the entry price; a quantity that is not positive is refused before anything happens |
| `EngineAnswer.LookSees` | bot/portfolio/portfolio.py:77-109 | a look at the portfolio brings unrealized PnL and peak up to date, moves nothing, and is what the gate is shown next |
| `EngineAnswer.CycleTheorem` | bot/engine/orchestrator.py:84-131 | a cycle looks at the portfolio and then considers every opportunity in turn, each on what the one before has left; only an exception ends it early |
| `EngineRuns.SnapshotShows` | bot/portfolio/portfolio.py:77-109 | what the gate is shown: the account's own figures, and each position that is not empty with its gain at its mark |
| `EngineLedger.EngineIsLedgerRun` | bot/engine/orchestrator.py:84-131 | whatever the engine is made to do, its portfolio and its file are those of a run of ledger actions, its own snapshots included, and an admissible run for the tasks that the theorems admit |
| `EngineLedger.EngineLedgerTheorem` | bot/engine/orchestrator.py:84-131 | so after any tasks nothing is negative, short or unaccounted for, the accounting identity holds, and without a restart every reserved amount is the sum of the claims of the open orders |
| `EngineLedger.EngineDrawdownTheorem` | bot/portfolio/portfolio.py:174-186 | after any tasks the drawdown statistics are the quadratic definition over all equities looked at, the engine's snapshots included, and within zero and one |
| `EngineLedger.EngineTallyTheorem` | bot/portfolio/accounting.py:135-152 | after any tasks at all the totals are the sums over the positions and there is one trade per processed fill |
| `TrackerMeaning.RecordMeans` | bot/paper/tracker.py:166-299 | what an execution leaves: a filled one with a known result exactly one trade, with that result, and a Profitable mark exactly when it is positive; a failed, empty or unmarked one no trade; the totals and counters with it; an unknown id nothing |
| `TrackerMeaning.ConclusionIs` | bot/paper/tracker.py:166-244 | the result is the sum over the fills of quantity times the selling price less the fill's price, less its fee and slippage; the change of equity only where that is not known |
| `TrackerMeaning.DetectMeans` | bot/paper/tracker.py:84-135 | a detected opportunity is listed, indexed and counted once under its strategy, pair and hour |
| `TrackerMeaning.JudgeMeans` | bot/paper/tracker.py:146-164 | a verdict marks the latest opportunity of the id and counts once |
| `TrackerMeaning.FoldMeans` | bot/paper/tracker.py:246-299 | what a bucket says of the trades with its key: how many, how many gained and lost, and gains less losses |
| `TrackerMeaning.TotalsTheorem` | bot/paper/tracker.py:200-222 | after any calls the totals of fees, slippage and volume are those of all fills of executions that went right, each once, and the gross total that of the trades |
| `TrackerRollups.RollupTheorem` | bot/paper/tracker.py:84-299 | after any calls every strategy, pair and hour bucket is the fold of the trade log with its key, the three dimensions and the list of results sum to the same realized PnL, and the counters agree across dimensions |
| `TrackerRollups.ApplyRollsUp` | bot/paper/tracker.py:146-222 | every single call keeps the buckets equal to the folds |
| `TrackerRollups.BucketsAddUp` | bot/paper/tracker.py:254-281 | splitting the log by any key splits its result |
| `TrackerRollups.ApplyKeepsCounters` | bot/paper/tracker.py:128-222 | opportunities, approvals, executions and failures are the sums over the strategies and the pairs |
| `Tracker.PerformanceTracker.RecordDetected` | bot/paper/tracker.py:124-135 | the opportunity is listed and counted in its three buckets |
| `Tracker.PerformanceTracker.RecordRisk` | bot/paper/tracker.py:146-164 | the latest opportunity of the id is marked and counted |
| `Tracker.PerformanceTracker.RecordExecution` | bot/paper/tracker.py:166-222 | what an execution does to the opportunity, the counters and, when a result is known, the log |
| `Tracker.PerformanceTracker.RegisterTrade` | bot/paper/tracker.py:246-299 | the log and its three rollups move together |

## Left out

- Records are values held in maps: orders, balances and positions are reassigned, not aliased, so a caller that keeps a reference to one and edits it is not modelled.
- `Decimal` rounding: amounts, prices and rates are exact reals.
- Wall-clock time, UUIDs, log lines and the simulated latency: ids are given and assumed fresh, the clock of the rate limit is a given sequence of readings, a reason is its text and the figures written into it.
- Symbols and assets are taken as already stripped and in upper case.
- Fixed slippage, market orders and missing books are modelled in `PaperExecution` and in the objects, but outside the positive run theorems; `ScopeLimits` says what goes wrong for fixed slippage, and when.
- A market buy without a price reserves nothing and may reach the accounting's clamp: modelled, no theorem of its own beyond `LedgerFacts.PostKeepsBooksIff`.
- Cancelling partly filled or already cancelled orders is outside the run theorem; `LedgerRuns.CancelReconcilesIff` says exactly when it is harmless.
- Deltas without a sequence number against the venue's own book: their loss goes unnoticed, so nothing can be claimed of them there; the cap theorem holds for them like for all others.
- Promotion of two-sided deltas to snapshots in `handle_event` (`bot/market_data/service.py:251-256`), which installs a delta as a whole book.
- `age_ms` and the quality figures of the market-data service.
- Venues that change between scans: the acyclicity theorem is about the depth edges of one scan, with all venues' books as they are in that scan.
- RiskEngine.RiskEngine.Evaluate: the messages of rejections are their codes; their texts are not modelled.
- TradingEngine.TradingEngine.RunOnce: takes the opportunities with what was looked up for them, and does not collect the orders and fills for the report of the cycle.
- How the engine obtains its inputs: loading snapshots, resolving the execution book and the risk context; an opportunity comes with what was looked up for it.
- `sync_portfolio` and the daily statistics (`bot/paper/tracker.py:301-351`).
- The runner's reset, which starts over with an opening portfolio, and its other bookkeeping (`bot/paper/runner.py`); of the runner only the points at which it saves and loads are modelled.
- The in-memory store's `reload_portfolio`, which drops marks, trade counts and the peak (`bot/portfolio/persistence.py:131-175`).
- Web routes, dashboards, login, fleet and exchange adapters, Redis, WebSockets, retries, JSON parsing and the database models: input, output and library wrappers.
- The stub strategy, the stub exchange, the backtest loop and the live executor: too thin to carry a hard property.
