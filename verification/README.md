# Verified model of the trading platform's order, ledger and currency code

The platform sends orders to a MetaTrader 5 broker that it does not control and rebuilds money figures from what that
broker reports. This project models the parts of it where a mistake costs money, and proves what they keep: over every
behaviour of the broker, every interleaving of threads and every history of deals.

* **Bridge protocols** (`Mt5Terminal`, `ClosePosition`, `CloseSchedules`, `PartialClose`, `PartialCloseFloor`,
  `PartialCloseWorker`, `ModifyPosition`, `StopMoves`, `ModifySchedules`, `StopClamp`, `OpenOnce`). The outside world
  is an `Env`: one `Move` per MT5 call, which says which account is active, whether the read succeeds, what others did
  to the book meanwhile, whether an order lands, how much of it is filled and whether an answer comes back. Every
  operation exists twice, as an imperative method on a `Terminal` object and as a function of `Env` and `World` that
  the method is proved equal to; the theorems are about that function, for every `Env`. What is assumed of the broker
  is written into `Mt5Terminal`: an order bound to a ticket trades at that ticket of the account that is active when it
  arrives, and nowhere else; an order of the position's own side makes it larger; a closing order is limited to the
  position on a hedging account, while on a netting account what exceeds the position turns it around; `DONE` fills all
  that this allows, any other answer, or none, may hide any smaller fill; nobody else makes a position larger.
  `OpenOnce` adds that comments are stored as sent and that positions of others carry none; a filled order may become
  visible at once or later.
* **Backtests** (`FetchBars`, `Ema`, `Backtest`, `BacktestRunners`). The paged history fetch against a server whose
  positions shift as bars arrive; the bar loop, proved against a description of a correct list of trades.
* **Deals and trades** (`DealIngest`, `TradeStore`, `TradeProfit`). Positions from raw deals, a store that survives
  replays, and what becomes of a stored profit.
* **Ledgers, curves and currency** (`BalanceSeries`, `EquityCapture`, `EquityCurve`, `PortfolioStats`, `UsdTotals`,
  `SummaryBudget`, `FxStore`, `FxSelection`). One-pass figures are proved against the definitions in `CurveStats`.
* **Duplicate cleanup** (`DuplicateNames`, `DuplicateCleanup`). A transformation of a tree of files, directories and
  links, and what the base of every removed file is afterwards.

Money, volumes and prices are reals. `Rounding.RoundTo` is rounding to a number of decimals, ties to even, over exact
reals. Times are integers. Calls into code that is not modelled (strategy templates, the comment-to-stage inference,
rate sources, the directory listing) are function parameters.

## Where the code promises less than its documentation

Each of these comes with an input that fails, as a lemma, and with the exact condition under which the promise holds.

* *A confirmed-flat close.* The position re-check is not behind the identity gate. For any number of attempts, pin and
  account, `ok` proves that the account's ticket is gone, whatever else happens on a schedule of account switches, if
  and only if every read that the attempts can make sees the account (`OkIsProofExactlyWhenAllSee`). With three or more
  attempts (three is the default) and a pin that admits the account, or none, that is one hedging account through all
  calls that they can make (`OkIsProofExactlyOnOneAccount`); every other schedule has a run that answers `ok` with the
  position still open.
* *A confirmed stop.* Neither the read behind `unchanged` nor the one behind `verified` is behind the gate. `ok` speaks
  of the account of that read (`ModifyOkMeansStopSet`); with the pin set and the terminal switched for one read only,
  it is answered while the pinned account's stop is a whole unit away (`OneCallSwitchMisleads`). For any account it is
  proof exactly when the deciding read sees it and, if the gate lets the call send, so does the send or the confirming
  read (`OkIsProofExactlyWhenSeen`).
* *A close only reduces exposure.* An order only shrinks, for every fill, exactly when it meets a position of the side
  that was read, on a hedging account or no smaller than was read (`OnlyShrinksExactlyWhenHarmless`); over all runs of
  a fixed number of attempts on a schedule of account switches exactly when, for every read that they can make, an
  admitted order goes to the hedging account that was read (`NeverGrowsExactlyWhenSentWhereRead`). What fails is
  `OtherAccountGrows` and `NettingPositionFlips`.
* *Open once.* On one account the guard holds exactly when the lock is on, position reads succeed, filled orders are
  visible at once and the account is not switched while a thread is inside (`OpensAtMostOnceExactlyWhenGuarded`); over
  all accounts together exactly when it is moreover never switched, or every commented order is pinned to one account
  (`OpensAtMostOnceOverallExactly`). An empty comment is never guarded (`EmptyCommentOpensTwice`).
* *A stop only tightens.* True for positive requests on the price grid of their symbol, sent to the account that was
  read (`StopRatchet`); on a schedule of account switches one such call loosens nothing exactly when it is refused, or
  positive and sent where it was read (`NeverLoosensExactlyWhenSentWhereRead`). In general, for every
  environment, a stop move loosens the stop it was decided from exactly when that stop is half a unit on the safe side
  of the rounded request, or a SELL's request is not positive (`EveryStopMoveLoosensExactly`); each such call really
  occurs (`StopCanBeLoosenedExactly`). A SELL stop is safe without a tick exactly when the request is positive
  (`SellStopSafeExactlyWhenPositive`).
* *A partial close never becomes a full one.* It keeps the minimum however the broker fills it exactly when others
  take no more from the ticket between read and send than the planned remainder exceeds the minimum by: for one call
  (`FloorHoldsExactlyWithinSlack`), and for any number of rounds of the worker (`LoopFloorHoldsExactlyWithinSlack`).
  `OthersCanBreakTheFloor` is a run in which it closes the position. With nobody else at the ticket it keeps the
  minimum on a schedule of account switches exactly when it is refused or its order goes to the account that was read
  (`LeavesMinimumExactlyWhenSentWhereRead`); elsewhere it can close a smaller position (`OtherTicketIsClosed`).
* *A replay never loses a close.* True for time, price and stamp. The profit stays exactly when every later snapshot
  that handles the position still reports it (`ProfitStaysThroughoutExactly`), as it does while the exit deals are all
  there (`ProfitKeptWhileExitsAre`); a snapshot that no longer covers the position puts the profit of the remaining
  legs in its place (`ProfitOfAClosedTradeIsLost`).
* *Byte-identical curves for accounts funded before trading.* Only within the reconciliation tolerance. The curves are
  the same exactly when the broker's balance is net funding plus trading result: unrounded for all figures
  (`FundingBeforeTradingShiftsWithinTolerance`), and point for point as reported for figures in whole cents
  (`SameCurveExactlyWhenBooksClose`). `FourCentsShiftTheCurve` is a history whose curves differ.
* *Health reports the rate in use.* Status and source do, the age does so exactly when no observation is dated today or
  later (`HealthAgeIsSelectionAge`); `TodaysRowChangesTheAge` is what happens otherwise.
* *A dashboard that one hung account cannot starve.* The design speaks of reading times only; the work between reads
  runs on the same clock. No healthy account loses its live read exactly when all healthy reading and that work fit
  beside the caps of the hung reads (`OneHungAccount`, `FourSecondsAreEnough`); with four seconds of reading, half a
  second of work before each read is too much (`WorkCostsALiveRead`).
* *Only removed if the base file exists.* A directory counts as the base (`DirectoryCountsAsBase`), and so does a link
  to the very file that is removed (`LinkToItsCopyDangles`). After the run the base is, or leads to, a file exactly
  when what it led to is no directory and no removed match (`RemovedHasSurvivingBase`).
* *Cleaning up twice.* A second run finds nothing exactly when the first did not itself bring the base of a kept
  duplicate into being: by making `.trash_duplicates` beside a file named like a numbered copy of it, or by filling a
  place that a link with the base's name led to (`SecondRunRemovesNothing`).

## Model

| member | source | states |
|---|---|---|
| Mt5Terminal.EvaluateMutationIdentity | scripts/mt5_signal_bridge.py:780-802 | passing means exactly: connected, demo account, and equal to every pin that is set; hard mismatches only arise from successful reads |
| Mt5Lock.Mt5Serialized.Enter | scripts/mt5_signal_bridge.py:458-468 | a no-op with threading off; otherwise entered exactly when the lock is free or its owner comes again; a blocking entry that cannot get in waits, another is busy, and neither changes anything |
| Mt5Lock.Mt5Serialized.Exit | scripts/mt5_signal_bridge.py:470-486 | releases exactly what was taken, one level of a nested entry; only a clean exit of a held lock stamps the clock |
| OpenOnce.FindExistingExecution | scripts/mt5_signal_bridge.py:850-867 | finds an open position with the 31-character comment exactly when the read succeeded and there is one |
| OpenOnce.StepKeepsInv | scripts/mt5_signal_bridge.py:1180-1413 | every step of every thread and of the broker keeps: nothing is in flight, whoever is inside holds the lock, whoever has searched and may still send has no open position with its comment, at most one per account and comment |
| OpenOnce.OpensAtMostOnceExactlyWhenGuarded | scripts/mt5_signal_bridge.py:1180-1416 | over every interleaving, redelivery and lost answer, for orders with or without a pin, checked before the search and again before the send: at most one open position per account and non-empty comment if and only if the lock is on, reads succeed, filled orders are visible at once and the account is not switched while a thread is inside |
| OpenOnce.OpensAtMostOnceOverallExactly | scripts/mt5_signal_bridge.py:739-746 | at most one per non-empty comment over all accounts together if and only if the account is moreover never switched, or no commented order may be sent to two accounts |
| OpenOnce.LateLandingDuplicates | scripts/mt5_signal_bridge.py:1418-1430 | with a lost answer and a position that becomes visible late, a run that opens two positions |
| OpenOnce.SwitchBetweenOrdersOpensTwice | scripts/mt5_signal_bridge.py:739-746 | switched between two deliveries, an order that its pin, if any, admits to both accounts is open on both |
| OpenOnce.UnlockedDuplicates | scripts/mt5_signal_bridge.py:458-460 | with the lock off, a run of two threads that opens two positions |
| OpenOnce.FailedReadDuplicates | scripts/mt5_signal_bridge.py:862-866 | with failing reads, a run that opens two positions |
| OpenOnce.SwitchedAccountDuplicates | scripts/mt5_signal_bridge.py:1674-1680 | with the account switched away and back, a run that opens two positions |
| OpenOnce.EmptyCommentOpensTwice | scripts/mt5_signal_bridge.py:852-854 | an empty comment passes the full guard twice |
| StopClamp.ClampCheckSend | scripts/mt5_signal_bridge.py:1286-1416 | at most retries + 1 checks, each the prescribed one, all but the last refused; sent is exactly the request that passed, if the account still matches |
| StopClamp.ClampedKeepsDistance | scripts/mt5_signal_bridge.py:1311-1325 | stop and target keep their distance from the price, up to half a digit; exactly when price and distance are on the grid |
| StopClamp.ClampedIsClosest | scripts/mt5_signal_bridge.py:1311-1325 | on the grid the stop is the closest to the wanted one among all that keep the distance |
| StopClamp.BufferDoubles | scripts/mt5_signal_bridge.py:1365-1367 | the buffer grows at least by a factor of two per attempt |
| StopClamp.EveryCheckIsClear | scripts/mt5_signal_bridge.py:1297-1344 | for prices on the grid the request of every attempt keeps the whole distance of that attempt on both sides |
| ClosePosition.ClosePosition | scripts/mt5_signal_bridge.py:2165-2255 | the retry loop ends in the world and result of the specification, for every environment |
| ClosePosition.CloseSendsAreBoundedAndGuarded | scripts/mt5_signal_bridge.py:2176-2243 | at most the configured number of orders, each opposite-side for the volume just read, right after a passing identity check |
| ClosePosition.OnlyShrinksExactlyWhenHarmless | scripts/mt5_signal_bridge.py:2199-2213 | for every fill an order only shrinks, if and only if it meets nothing or a position of the opposite side, on a hedging account or no smaller than the order |
| ClosePosition.CloseNeverGrowsExposure | scripts/mt5_signal_bridge.py:2193-2237 | no position on any account grows, appears or changes side while every order goes to the account that was read and, on a netting account, nobody reduced the ticket in between |
| CloseSchedules.NeverGrowsExactlyWhenSentWhereRead | scripts/mt5_signal_bridge.py:2178-2237 | for any fixed number of attempts: on a schedule of account switches nothing can grow in any run if and only if, for every read that those attempts can make, an order that the gate admits goes to the hedging account that was read |
| CloseSchedules.ReadsOfAdmittedSchedule | scripts/mt5_signal_bridge.py:2176-2237 | with three attempts or more and every account admitted, those reads are exactly the calls 1 to 5 * attempts - 4 |
| ClosePosition.DoneFlattensExactly | scripts/mt5_signal_bridge.py:2242-2251 | a DONE close on the account of the read leaves no position if and only if others had closed it, the account is hedging, or nobody had reduced it |
| ClosePosition.CloseOkMeansFlat | scripts/mt5_signal_bridge.py:2183-2251 | while the account stays (and on a netting account nobody reduces the ticket), `ok` means the ticket is gone, on the evidence of an empty successful read or a DONE fill |
| CloseSchedules.OkIsProofExactlyWhenAllSee | scripts/mt5_signal_bridge.py:2176-2251 | for any number of attempts, any pin and any account: `ok` is proof on a schedule, whatever else happens, if and only if the close is refused at once or every read that the attempts can make sees the account |
| CloseSchedules.OkIsProofExactlyOnOneAccount | scripts/mt5_signal_bridge.py:2176-2251 | with three attempts or more and a pin that admits the account: if and only if it is one hedging account through every call that the attempts can make |
| PartialClose.NormalizeFloorsToStep | scripts/mt5_signal_bridge.py:2268-2277 | the normalised volume is the largest multiple of the step not above the request, within the guard; rounding is exact for steps of at most eight digits |
| PartialClose.PlannedReductionIsPartial | scripts/mt5_signal_bridge.py:2375-2394 | a planned volume lies between the minimum and the position, and leaves at least the minimum |
| PartialClose.PartialClosePosition | scripts/mt5_signal_bridge.py:2317-2455 | the operation ends in the world and result of the specification, for every environment |
| PartialClose.PartialCloseCalls | scripts/mt5_signal_bridge.py:2343-2432 | at most one order, the last call; it is the planned reduction of the position and constraints just read, behind a mandatory pin, and no more than its volume is filled |
| PartialCloseFloor.OrderOfCall | scripts/mt5_signal_bridge.py:2343-2432 | the order of a call comes from the position and constraints read in it, closes part of it, and on a steady account meets what others left of it |
| PartialCloseFloor.FloorHoldsExactlyWithinSlack | scripts/mt5_signal_bridge.py:2343-2432 | a whole call keeps the floor however its order is filled, if and only if what others take from the ticket between the read and the send is at most what the planned remainder exceeds the minimum by |
| PartialCloseFloor.UndisturbedKeepsFloor | scripts/mt5_signal_bridge.py:2375-2432 | undisturbed between read and send, an order leaves the minimum up to half of the eighth digit, exactly for volumes on that grid |
| PartialCloseFloor.OthersCanBreakTheFloor | scripts/mt5_signal_bridge.py:2426-2432 | a run in which another reduction in between makes the partial order close the position |
| PartialCloseFloor.LeavesMinimumExactlyWhenSentWhereRead | scripts/mt5_signal_bridge.py:2329-2432 | with nobody else at the ticket, a call leaves the minimum on a schedule of account switches, whatever else happens, if and only if the entry checks or the gate refuse it, or its order goes to the account that was read |
| PartialCloseWorker.Worker.RunOnce | scripts/mt5_partial_close_worker.py:149-190 | one claim, authorisation, bridge call and report, ending where the specification does |
| PartialCloseWorker.Worker.RunForever | scripts/mt5_partial_close_worker.py:193-206 | any number of rounds; errors only count while consecutive |
| PartialCloseWorker.EveryOrderIsAuthorized | scripts/mt5_partial_close_worker.py:165-187 | for every server and broker, every bridge call follows its own claim and authorisation and makes at most one order |
| PartialCloseWorker.LoopTakesNoMoreThanAuthorized | scripts/mt5_partial_close_worker.py:149-206 | for every server, broker and other trader, over any number of rounds: what the orders were filled with on a ticket grows by at most what the bridge calls were authorised to take, each rounded up by the float guard at most |
| PartialCloseWorker.LoopKeepsVolumeFloor | scripts/mt5_partial_close_worker.py:179-206 | in every environment every order whose ticket is left alone between its read and its send on a steady account keeps the minimum; other tickets and the time between rounds are free |
| PartialCloseWorker.LoopFloorHoldsExactlyWithinSlack | scripts/mt5_partial_close_worker.py:179-206 | over any number of rounds all floors hold for every way to fill the orders, if and only if for every way others stay within the slack of each order |
| ModifyPosition.ModifyPosition | scripts/mt5_signal_bridge.py:2493-2606 | the operation ends in the world and result of the specification, for every environment |
| ModifyPosition.MovesOnlyTighten | scripts/mt5_signal_bridge.py:2513-2532 | on the grid only a strictly tighter stop is ever sent |
| StopMoves.EveryStopMoveLoosensExactly | scripts/mt5_signal_bridge.py:2493-2577 | for every environment and sequence of requests: an order loosens the stop read in its call, and the stop it meets when that was kept, if and only if it is half a unit off or a SELL's request is not positive; never on the grid |
| StopMoves.StopCanBeLoosenedExactly | scripts/mt5_signal_bridge.py:2493-2577 | some call has the broker move this stop to a looser one if and only if the decision is to adjust and the stop is half a unit off or removed |
| ModifyPosition.SellStopSafeExactlyWhenPositive | scripts/mt5_signal_bridge.py:2529-2557 | a SELL stop is safe for every tick, a missing one included, if and only if the request is positive |
| StopMoves.StopRatchet | scripts/mt5_signal_bridge.py:2502-2577 | over any sequence of calls and account switches, each symbol with its own digits, dropped, rejected or unanswered: while nobody else edits stops and every order goes to the account that was read, a set stop never moves down for a BUY nor up for a SELL on any account, and is never removed |
| ModifySchedules.ModifyOkMeansStopSet | scripts/mt5_signal_bridge.py:2499-2603 | for every environment: `ok` is `unchanged`, and the account of the position read has the requested stop unless somebody moves it during the symbol read; or it is `verified`, and the account of the confirming read has it |
| ModifySchedules.OkIsProofExactlyWhenSeen | scripts/mt5_signal_bridge.py:2499-2603 | on a schedule of account switches `ok` proves that a given account's stop is the requested one if and only if the call is refused at once, or its position read sees the account and, when the gate admits, so does the send or the confirming read |
| ModifySchedules.OneCallSwitchMisleads | scripts/mt5_signal_bridge.py:2499-2515 | pinned, and switched for the position read only, the call answers `unchanged` while the pinned account's stop is another |
| ModifySchedules.NeverLoosensExactlyWhenSentWhereRead | scripts/mt5_signal_bridge.py:2499-2577 | on a schedule of account switches a call loosens no stop of any account, whatever else happens, if and only if it is refused at once or at the gate, or asks for a positive stop and sends to the account that was read |
| ModifyPosition.StopMoveKeepsTheRest | scripts/mt5_signal_bridge.py:2502-2577 | a stop move changes one position's stop only; the target stays unless one is given |
| FetchBars.FetchBars | backend/backtests/engine.py:117-158 | with at most one page of arrivals: a gap-free, strictly ordered, one-bar-per-time run of the history in at most ceil(count/1000) requests, every bar with a quote served for its time; never more bars than asked, and when no request failed short of that by at most the bars that arrived meanwhile |
| FetchBars.FetchPage | backend/backtests/engine.py:122-156 | one page overlaps or adjoins the run collected so far, however far positions shifted |
| FetchBars.RateServer.Rates | scripts/mt5_signal_bridge.py:1554-1605 | bars arrive, then the page counted from the newest bar is served; an empty page is a failure |
| Ema.ComputeEma | backend/backtests/engine.py:165-184 | every entry is the average's value by definition, undefined before the period is filled |
| Ema.EmaBetweenPrices | backend/backtests/engine.py:173-182 | the average never leaves the range of the prices it is made of |
| Backtest.Simulate | backend/backtests/engine.py:235-368 | the trades are good (entered by rule, left at the first firing exit or forced out at the end), numbered, ordered and non-overlapping; no signal is missed while flat; balance is initial plus the sum of results |
| BacktestRunners.RunBacktest | backend/backtests/engine.py:215-368 | the crossover runner is that simulation, from the first bar with both averages, with stop before target before signal |
| BacktestRunners.RunTemplateBacktest | backend/backtests/engine.py:535-651 | the template runner is that simulation with a template's signals |
| BacktestRunners.TradeStaysInRange | backend/backtests/engine.py:248-281 | for well-formed bars a trade gains at most its target and loses at most spread plus the larger of stop and spread |
| BacktestRunners.TradeMoneyBounds | backend/backtests/engine.py:283-292 | the same bounds in money, up to half a cent |
| BacktestRunners.RunWithBoundedTrades | backend/backtests/engine.py:234-368 | every trade of every crossover run is within the bounds |
| BacktestRunners.ComputeMetrics | backend/backtests/engine.py:429-482 | wins, losses and sums by definition; the drawdown is the largest percentage fall below the running peak, the streak the longest losing run |
| DealIngest.BuildPositionsFromDeals | backend/mt5_trade_ingest_worker.py:614-703 | the grouping loops compute the positions of the specification |
| DealIngest.BuildPosition | backend/mt5_trade_ingest_worker.py:636-700 | one position from its legs: quarantined with a reversal, skipped without an opening leg, built otherwise |
| DealIngest.DropRepeats | backend/mt5_trade_ingest_worker.py:636-646 | the loop with a seen-set keeps exactly the first sighting of every deal |
| DealIngest.DedupKeepsEachOnce | backend/mt5_trade_ingest_worker.py:633-646 | no deal is kept twice and none is lost |
| DealIngest.OfDedup | backend/mt5_trade_ingest_worker.py:625-646 | dropping repeats per position is dropping them from the whole snapshot |
| DealIngest.BuildIds | backend/mt5_trade_ingest_worker.py:647-666 | exactly the positions with an opening leg and no reversal are built, each once |
| DealIngest.TimesAreExtremes | backend/mt5_trade_ingest_worker.py:670-686 | open time is the earliest and close time the latest known leg time |
| DealIngest.ReplayedDealsChangeNothing | backend/mt5_trade_ingest_worker.py:633-646 | appending any already-seen ticketed deals leaves every built position unchanged |
| DealIngest.CostsAreConserved | backend/mt5_trade_ingest_worker.py:680-681 | commission and swap over all built positions equal those of the de-duplicated deals of these positions |
| DealIngest.PricesWithinLegs | backend/mt5_trade_ingest_worker.py:667-696 | the open price lies between the prices of the in legs and the close price between those of the out legs, rounded |
| DealIngest.ClosedExactlyWhenCovered | backend/mt5_trade_ingest_worker.py:679-691 | closed if and only if there is an out leg and out volume covers in volume within 1e-9; profit and close time accordingly |
| TradeStore.Trades.Upsert | backend/mt5_trade_ingest_worker.py:706-784 | one sync leaves the store of the specification; inserted is its growth; nothing counted means nothing changed |
| TradeStore.Trades.UpsertOne | backend/mt5_trade_ingest_worker.py:718-782 | one position: skipped, inserted, or refreshed |
| TradeStore.Refresh | backend/mt5_trade_ingest_worker.py:755-782 | the field-by-field loop refreshes as specified, and the flag that it raises on the way is up exactly when the row is different now |
| TradeStore.ReplayChangesNothing | backend/mt5_trade_ingest_worker.py:709-712 | replaying a snapshot, repeated deals included, leaves any store unchanged |
| TradeStore.HistoryKeepsCloses | backend/mt5_trade_ingest_worker.py:751-779 | over any syncs: close time, close price and stamp never return to null, the stamp never changes, and it is set exactly when the close time is |
| TradeProfit.ProfitStaysExactlyWhenReported | backend/mt5_trade_ingest_worker.py:679-769 | a stored profit survives a sync if and only if the snapshot does not handle the position or its de-duplicated legs (out legs if they cover, else all) still sum to it |
| TradeProfit.ProfitStaysThroughoutExactly | backend/mt5_trade_ingest_worker.py:679-769 | over any sequence of syncs it stays after each if and only if every sync that handles the position reports it |
| TradeProfit.ProfitKeptWhileExitsAre | backend/mt5_trade_ingest_worker.py:709-712 | a closed trade keeps its profit through all syncs that still see its exit deals, even if they lost entry deals |
| TradeProfit.ProfitOfAClosedTradeIsLost | backend/mt5_trade_ingest_worker.py:689-691 | for any deals: a later snapshot that no longer covers a closed position leaves it closed with the profit of all legs that are left |
| TradeProfit.LostExitDealOverwritesProfit | backend/mt5_trade_ingest_worker.py:689-691 | for every deal that opens and deal that closes a position: the sync without the exit puts the entry's profit in the place of the exit's |
| BalanceSeries.ComputeBalanceSeries | backend/analytics/views_trade_history.py:588-752 | the points are those of the chosen plan; statistics by definition over the trade results |
| BalanceSeries.FundingIsPartitioned | backend/analytics/views_trade_history.py:671-677 | opening funding and dated steps add up to net funding |
| BalanceSeries.LastBalanceReconciles | backend/analytics/views_trade_history.py:641-683 | ledger mode ends at net funding plus trading result, within max(0.05, n/10000) of the broker; otherwise exactly at a given broker balance |
| BalanceSeries.MergingKeepsTrades | backend/analytics/views_trade_history.py:686-688 | the stable merge of cash flows never reorders trades |
| BalanceSeries.TradesIgnoreCashFlows | backend/analytics/views_trade_history.py:686-709 | the merged stream is in time order and its trades are the completed trades, whatever the cash flows |
| BalanceSeries.StatsIgnoreCashFlows | backend/analytics/views_trade_history.py:690-750 | any two reports of the same trades, under any cash flows, broker balances and credits, agree on every statistic but the drawdown, and on that too for equal openings |
| BalanceSeries.FundingBeforeTradingShiftsWithinTolerance | backend/analytics/views_trade_history.py:611-615 | with all funding before trading the ledger curve is the older one up to the tolerance, and the very same if and only if the broker's balance is net funding plus trading result |
| BalanceSeries.SameCurveExactlyWhenBooksClose | backend/analytics/views_trade_history.py:611-752 | for figures in whole cents the reported points, and the reported openings, are the same under exactly that condition, and then the statistics are too |
| BalanceSeries.FourCentsShiftTheCurve | backend/analytics/views_trade_history.py:647-656 | one deposit and one trade whose two curves differ by four cents |
| EquityCapture.Ledger.Capture | backend/analytics/equity_snapshots.py:80-94 | throttled, duplicate or stored, each exactly when it should be; spacing is kept |
| EquityCapture.RunKeepsInv | backend/analytics/equity_snapshots.py:74-94 | every interleaving keeps: one lock holder, and a capture past its check is still past it |
| EquityCapture.SpacedExactlyWhenIntervalIsPositive | backend/analytics/equity_snapshots.py:61-94 | in every interleaving rows are inserted in increasing order and more than the interval apart, if and only if the interval is positive |
| EquityCurve.Edges | backend/analytics/equity_snapshots.py:141-156 | edges strictly increase from first to last observation, evenly but for the last gap, and number at most the limit plus one |
| EquityCurve.ScanFindsNewest | backend/analytics/equity_snapshots.py:170-178 | the scan finds the newest equity-bearing observation of the window, and nothing only if there is none |
| EquityCurve.BisectRight | backend/analytics/equity_snapshots.py:174-174 | the position splits the times into those up to the edge and those after it |
| EquityCurve.LatestValid | backend/analytics/equity_snapshots.py:158-178 | the bisect lookup over the index returns exactly what the full scan returns |
| EquityCurve.SumAt | backend/analytics/equity_snapshots.py:181-203 | at one edge present plus stale is every account, the total is the sum over the present ones |
| EquityCurve.PortfolioEquityCurve | backend/analytics/equity_snapshots.py:118-212 | a good point for exactly the edges with a usable observation, in order; complete if and only if nothing is stale |
| EquityCurve.ThinnedKeepsEnds | backend/analytics/equity_snapshots.py:103-109 | thinning keeps both ends and the order, invents nothing, and leaves at most the limit plus one |
| PortfolioStats.ClosedTradeStats | backend/analytics/portfolio.py:147-174 | every figure by its definition; the one-pass drawdown is the maximum over all earlier and later points |
| PortfolioStats.DescribesIsUnique | backend/analytics/portfolio.py:271-291 | the definitions determine every figure, so any two computations agree |
| PortfolioStats.StatsCommuteWithConversion | backend/analytics/portfolio.py:176-189 | the statistics of converted trades are the converted statistics |
| PortfolioStats.ReportCommutesWithConversion | backend/analytics/portfolio.py:176-206 | the report is the same either way; win rate and profit factor do not depend on the rate |
| PortfolioStats.InlineFigures | backend/analytics/portfolio.py:271-312 | the second loop, with its own variables, and its inline report give the helper's figures at rate 1 |
| PortfolioStats.SingleCurrencyRate | backend/analytics/portfolio.py:209-226 | a rate is given if and only if all accounts share one foreign currency with a positive rate, and it is that rate |
| PortfolioStats.PortfolioMetrics | backend/analytics/portfolio.py:229-321 | figures are reported in one denomination only, and withheld in exactly the other cases |
| UsdTotals.AggregateUsd | backend/analytics/portfolio_fx.py:211-228 | the loop fills the record to the value of the specification |
| UsdTotals.Aggregated | backend/analytics/portfolio_fx.py:167-228 | converted and excluded items make up all items; partial exactly when something was excluded |
| UsdTotals.AggregationIsHomomorphic | backend/analytics/portfolio_fx.py:211-228 | aggregating all items is combining the aggregates of any two parts |
| UsdTotals.NoItemIsLost | backend/analytics/portfolio_fx.py:176-185 | an item is summed or named with its reason; state OK if and only if all convert |
| UsdTotals.PortfolioOpenPl | backend/analytics/portfolio.py:486-508 | the loops compute the top-level aggregate and name every stale account |
| UsdTotals.TopLevelIsSumOfAccounts | backend/analytics/portfolio.py:486-508 | the top-level figure is the sum of the per-account ones, and partial if and only if some account was stale or partial |
| UsdTotals.StaleAccountsAreNamed | backend/analytics/portfolio.py:502-507 | a stale account is always listed, and the total never complete |
| UsdTotals.CardsAddUp | backend/analytics/portfolio.py:473-482 | the rounded cards add up to the exact sum within half a cent each |
| SummaryBudget.Pass | backend/analytics/portfolio.py:434-459 | one pass lists every account once, in order, and starts no read after the deadline |
| SummaryBudget.BuildSummary | backend/analytics/portfolio.py:578-650 | both passes share one clock and behave like one pass over the concatenated accounts; the aggregation follows |
| SummaryBudget.SummaryEndsWithinBudget | backend/analytics/portfolio.py:29-45 | for any accounts, bridges and work in between: every started read starts within the budget and is over by it plus the overrun (or the longest read), and the summary ends by then but for the work before skipped reads and the aggregation |
| SummaryBudget.HealthyLiveExactlyWhenLastFits | backend/analytics/portfolio.py:439-606 | for any healthy and hung accounts and any work before each turn, all healthy reads are live if and only if the last one fits the budget with all work, reads and caps before it |
| SummaryBudget.OneHungAccount | backend/analytics/portfolio.py:34-45 | with one hung account: if and only if all healthy time and work plus one cap, or two when a healthy account follows, fits 10 s |
| SummaryBudget.FourSecondsAreEnough | backend/analytics/portfolio.py:34-45 | with at most 4 s of healthy reading and work no healthy account loses a live read in either pass; exactly then, when a healthy account follows the hung one |
| SummaryBudget.WorkCostsALiveRead | backend/analytics/portfolio.py:34-45 | 4 s of reading and a second of work in all: a healthy account loses its live read |
| FxStore.Store.AppendObservation | backend/analytics/fx_ingest.py:56-75 | a known payload changes nothing; a new one gets the next number of its group, old rows stay |
| FxStore.GroupsStayNumbered | backend/analytics/fx_ingest.py:56-75 | every interleaving of writers keeps every group numbered 1..n with distinct payloads, with or without the lock |
| FxStore.OldRowsStay | backend/analytics/models.py:120-133 | stored rows stay in place, unchanged, however a run continues |
| FxStore.LockedRunNeverRefuses | backend/analytics/fx_ingest.py:57-60 | under the advisory lock, even on colliding hashes, an allocated number stays free until it is inserted |
| FxStore.NeverRefusedExactlyWithLock | backend/analytics/fx_ingest.py:57-67 | no append is ever refused by a constraint if and only if the lock is taken |
| FxStore.Table.Save | backend/analytics/models.py:152-163 | refused exactly when it would change an immutable field of a stored row; no stored row disappears or changes what was observed |
| FxStore.EditsLeaveRowsUntouched | backend/analytics/models.py:152-166 | no sequence of saves and deletions makes a stored row disappear or changes what it observed |
| FxSelection.SelectionIsNewestUsable | backend/analytics/fx_source.py:126-136 | the selection is the (date, revision) maximum of the accepted rows up to yesterday, and refuses if and only if none lies within the week |
| FxSelection.AppendingMovesForward | backend/analytics/fx_source.py:126-136 | a new row can only move the selection to a later one, and an unusable one not at all |
| FxSelection.SelectPrioritised | backend/analytics/fx_source.py:216-229 | the loop is first-usable-source selection |
| FxSelection.FirstUsableSourceWins | backend/analytics/fx_source.py:225-229 | exactly one source speaks: the first with a usable row |
| FxSelection.IngestionHealth | backend/analytics/fx_source.py:282-328 | healthy if and only if prioritised selection yields a rate, from the same source; empty if and only if nothing is ingested; stale names the freshest |
| FxSelection.HealthAgeIsSelectionAge | backend/analytics/fx_source.py:304-328 | the reported age is that of the rate in use if and only if no accepted row is dated today or later |
| FxSelection.TodaysRowChangesTheAge | backend/analytics/fx_source.py:304-328 | a row dated today or later makes the report give a negative age, not that of the row in use |
| FxSelection.StoredDbFxRateSource.GetRate | backend/analytics/fx_source.py:246-266 | identity at 1, otherwise the cached or first selection; the cache only grows |
| FxSelection.AskTwice | backend/analytics/fx_source.py:246-256 | two questions about one pair in one request get the same answer whatever the store does in between |
| DuplicateNames.BaseName | tools/cleanup_duplicate_numbered_files.py:56-75 | the base name is shorter, so stripping suffixes ends |
| DuplicateNames.CopyLeadsBack | tools/cleanup_duplicate_numbered_files.py:59-73 | a numbered copy of a name leads back to it if and only if the name does not end in a dot |
| DuplicateCleanup.FindRemovable | tools/cleanup_duplicate_numbered_files.py:50-188 | exactly the matches whose base exists, or all with force; nothing when the path of the root itself contains an excluded name |
| DuplicateCleanup.MoveToTrash | tools/cleanup_duplicate_numbered_files.py:81-89 | fails before anything moved when the trash name is taken by a non-directory; otherwise every file is at one place of its own, unchanged, no other file exists, links stay, and exactly the needed directories are new |
| DuplicateCleanup.RemoveDuplicates | tools/cleanup_duplicate_numbered_files.py:176-198 | decide about all, then move or delete exactly those |
| DuplicateCleanup.RemovedHasSurvivingBase | tools/cleanup_duplicate_numbered_files.py:179-198 | without force, stripping one or more suffixes of a removed file leads to a name that existed and was not removed; after the run it is or leads to a file if and only if it led to a file that is not itself removed |
| DuplicateCleanup.LinkToItsCopyDangles | tools/cleanup_duplicate_numbered_files.py:179-182 | a base that is a link to its own duplicate leads nowhere after the run |
| DuplicateCleanup.DirectoryCountsAsBase | tools/cleanup_duplicate_numbered_files.py:179-182 | a directory with the base's name authorises removal without any base file |
| DuplicateCleanup.MovedTreeIsWellFormed | tools/cleanup_duplicate_numbered_files.py:81-89 | after the move there is one thing at every path, and every file has its directories |
| DuplicateCleanup.SecondRunRemovesNothing | tools/cleanup_duplicate_numbered_files.py:166-198 | a second run removes nothing if and only if the first filled no empty place that the base of a kept duplicate is or links to |
| DuplicateCleanup.SecondRunAfterDeletion | tools/cleanup_duplicate_numbered_files.py:92-95 | after a permanent deletion a second run never removes anything |
| DuplicateCleanup.TrashCanHaveACopy | tools/cleanup_duplicate_numbered_files.py:33-35 | such a tree exists |
| DuplicateCleanup.RenameMissingBases | tools/cleanup_duplicate_numbered_files.py:98-130 | nothing is lost or overwritten but a dangling link at a target; only the lowest-numbered copy of a group moves, to that group's target; every base is provided unless the file it led to was itself promoted |
| DuplicateCleanup.ChosenIsLowest | tools/cleanup_duplicate_numbered_files.py:112-114 | the promoted copy has the lowest number |

## Left out

- Exceptions raised by the MT5 module inside a bridge operation: a failing call is a failed read or a missing answer.
- `scripts/mt5_signal_bridge.py` plumbing: terminal attach, symbol selection, filling modes of requests, slippage, magic
  numbers, log lines, HTTP handlers and tokens.
- The partial close's replies for several or mismatched returned positions, and its `volume_confirmed` flag.
- The execution binding of opening orders is one boolean in `StopClamp`, and in `OpenOnce` the accounts that it admits a
  comment's order to; its other rules are not modelled. A comment has one pin: two orders that share a comment are one.
- The lost-answer lookup after an opening order only changes the reported result, so `OpenOnce` has no step for it.
  Threads never enter the lock twice in `OpenOnce`, as no path of the source does; re-entry is in `Mt5Lock`.
- HTTP threads that give up waiting for the lock; they leave without a read or a send.
- `run_forever` sleeps and back-off times; the number of consecutive errors is kept.
- The equity list, the data-quality notes and the regime tags of a backtest result.
- The ratios, averages and expectancy that `compute_metrics` derives from the figures modelled.
- NaN, infinity and the bits of floats: arithmetic is exact, rounding is to the nearest grid point.
- Deal fields that are not numbers or not plain integers are read as 0 or none before the model starts.
- `_build_round_trips`: its output shape is the input of `BalanceSeries`.
- The database's ordering of closed trades by closing time and id: `PortfolioStats` starts from the ordered list.
- `since` filters, stages and row serialisation of the equity curves and portfolio figures.
- The identity check and the no-values refusal in front of an equity capture.
- The durable-snapshot fallback of an account's balance in the summary.
- Database isolation beyond what the locks and unique constraints give: reads see committed rows.
- File names with line breaks, and Unicode blanks and digits in them; a base name that is no valid file name.
- Two cleanup runs within one second: the time stamp of a run's trash directory is assumed to be new.
- FxSelection.StoredDbFxRateSource.GetRate: the rate stays exact, the source converts it to a float.
- Links to directories: the scan does not follow them, and a trash name that is one would send the files elsewhere.
- OpenOnce.StepKeepsInv: for the guarded configurations only, because the lock prevents neither failed reads, nor late
  visibility, nor an account switch; what those do is in the duplicating runs.
- CloseSchedules.OkIsProofExactlyOnOneAccount: for three attempts or more and an admitted starting account; the other
  cases are in `OkIsProofExactlyWhenAllSee`.
- PartialCloseFloor.LeavesMinimumExactlyWhenSentWhereRead: for volumes of at most eight decimals; a smaller one may
  round to nothing, which is never sent.
- StopMoves.StopRatchet: assumes that nobody else edits stops, since their edits are not this operation's doing.
- FetchBars.FetchBars: assumes at most one page of new bars during the fetch.
- BacktestRunners.TradeStaysInRange: assumes that stop, target and spread distances are not negative.
