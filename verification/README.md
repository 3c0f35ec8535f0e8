# Backtest engine: model and proofs

A Dafny 4.11 model of the backtest engine, its accounting, its walk-forward analysis and its overfitting
referee, with proofs about whole runs. `dafny verify dfyconfig.toml` checks all of it.

The engine steps once per timestamp: marks, option settlement, expirations, cancellations, fills with their
margin checks, the strategy call, mark to market. `Engine` states this as a state machine (`Step`, `Run`)
over cash, signed average-cost positions, resting orders, trailing-stop water marks and requested
cancellations. `BacktestRuns` and `Portfolios` are the loop and the portfolio as objects updated in place,
proved to do exactly what the state machine does. Theorems about runs quantify over every number of bars and every
strategy, a strategy being an arbitrary deterministic function of its own state and of what the engine shows
it, and over every market and configuration, except where a theorem names what it needs of them: solvency
needs a cash account, positive prices and sane orders, and some money theorems need multipliers of one.

| file | content |
|---|---|
| Prelude, Groups, StableSorts | options, sums, filters; grouping by key; stable sorting |
| Types, Fills, Prices, Accounts, Timelines | data and configuration, fill simulation and its terms in numbers, accounting, timeline and history |
| Engine, BacktestRuns, Portfolios | the state machine; the imperative loop and portfolio that refine it |
| Marks, Hearing | what the marks and the equity curve are; what a strategy is shown and told |
| Causality, Orders, Lifecycle, Fates | no look-ahead, conservation of orders, timing, what becomes of a resting order |
| Trailing, WaterMarks, Settlement, Expiries | trailing stops, when their marks are forgotten, settlement of options |
| Ledger, Margin, Solvency | conservation of money, the buying-power check, solvency of a cash account |
| RoundTrips, Analytics, EntryTags, Attribution, Signals, Money | round trips, attribution, and their agreement with the engine |
| Grids, Walkforward, Straddles | parameter grids, selection, windows, the replayed warm-up, trades across a cut |
| Witnesses, UnitTrades | small concrete runs, worked out bar by bar |
| Cscv, Pbo, Sharpes, Embargo | split enumeration, ranks and probability of overfitting, the performance statistic, embargoed blocks |

Modelling conventions: amounts are `real`; timestamps are whole seconds and a date is a day number; a
dictionary whose order matters (positions) is a sequence in insertion order, any other is a map; client order
ids are natural numbers in order of submission, hence fresh and unique; a log of every submitted order is kept
for the statements about orders. Preconditions not written in the source: frames are sorted by time where the
cursors are used, and a walk-forward window fits its data.

Where the code and its own text differ, the code is modelled, a concrete input shows the difference and an
equivalence says exactly when the text holds:

| text | difference | holds exactly when |
|---|---|---|
| trailing marks are dropped when the order leaves the book | `Witnesses.CancelledMarkStays` | `WaterMarks.MarkForgottenIff` |
| an expired option position is closed | `UnitTrades.ReopenedStaysOpen` | `Settlement.ExpiredStaysOpenIff` |
| a trade across a walk-forward cut counts as open | `Straddles.StraddlingTradeMispaired` | `Straddles.StraddlerStaysOpenIff` |
| reductions and closes never need margin | `Witnesses.ReductionRefused` | `Margin.ShrinkingAcceptedIff` |
| gross P&L of a round trip is its average spread times its quantity | `Analytics.SettledShortHasNoSpread` | `Analytics.PaysItsSpreadIff` |
| gross P&L of a round trip, at a contract multiplier | `Money.MultiplierIgnored` | `Money.AccountingsEqualIff` |

The projection of the buying-power check is exact under a condition on multipliers (`Accounts.ProjectionExact`)
which every run satisfies (`Margin.MarginCheckIsExact`).

## Model

| member | source | states |
|---|---|---|
| Fills.FillSplitsOrder | packages/backtest/fills.py:68-236 | Every simulator: a fill carries its order's id, symbol, side, tags and submission time and the bar's timestamp; fill and remainder are positive/non-negative and add up to the order; the partial flag is set exactly when something remains; without a volume cap nothing remains. |
| Fills.CapBinds | packages/backtest/fills.py:48-65 | With a volume cap: a fill never exceeds it, an order is cut exactly when it is larger and then exactly down to the cap, and a non-positive cap blocks every order type. |
| Fills.LimitNeverWorse | packages/backtest/fills.py:126-147 | A limit order trades if and only if the bar trades through its limit by the margin and the volume cap allows it; through any margin it has touched the limit; without a maker model the price is inside the bar and never worse than the limit; with one it is never better, and equal exactly without adverse selection. |
| Fills.StopNeverBetter | packages/backtest/fills.py:205-220 | A stop trades if and only if the bar reaches the trigger and the volume cap allows it; its price is never better than the trigger or the open, and inside the bar when there is no slippage. |
| Prices.MarketFillsAtOpen | packages/backtest/fills.py:68-91 | Every market order on every bar: it fills if and only if the volume cap allows it, and its price times 10000 is the open times 10000 plus (buy) or minus (sell) the slippage in basis points, so a buy never pays less than the open and a sale never gets more. |
| Prices.FillsOnTerms | packages/backtest/fills.py:68-236 | Every order type on every bar: it fills if and only if the bar reaches it and the cap allows it, with the order type's own trigger, price, fee and quantity, all stated in numbers. |
| Prices.FeeTerms | packages/backtest/types.py:127-141 | Taker and maker fees in numbers: options per contract, anything else basis points of its value. |
| Prices.MultiplierPrecedence | packages/backtest/types.py:114-120 | A per-symbol override decides the multiplier whatever the metadata say, metadata decide where there is none, and otherwise it is one. |
| Prices.FillsAreOnTerms | packages/backtest/engine.py:301-390 | In every run each fill of a strategy order happened at a bar that traded its symbol and reached the order, at the price and fee of its type and within the volume cap; a trailing stop's at the water mark it had by then. |
| Accounts.FillMovesBasis | packages/backtest/portfolio.py:58-104 | Average-cost accounting over open, add, reduce, close and flip: quantity moves by the fill, and realized P&L minus the cost still held moves by exactly the fill's cash flow, the fee being charged to realized P&L only by reducing fills. |
| Accounts.AveragingPreservesCost | packages/backtest/portfolio.py:85-87 | The weighted average keeps total cost: basis after an add is basis before plus the fill's cost, long or short. |
| Accounts.ClosingRealizes | packages/backtest/portfolio.py:88-102 | The closed part is realized at the price; a flip leaves the residual at the fill price and a reduction leaves the rest at cost, so nothing is lost either way. |
| Accounts.FillRealizes | packages/backtest/portfolio.py:72-104 | What a fill realizes and leaves as cost: nothing when opening (cost is the price) or adding (cost is averaged); against the position the closed part at the difference to its cost less the fee, the rest keeping its cost or, after a flip, costing the price. |
| Accounts.ProjectionExact | packages/backtest/portfolio.py:149-186 | The projected equity equals the equity after the fill if and only if the fill is quoted at the multiplier the position will carry (or the position is worthless); under that multiplier condition the gross exposure is exact as well. |
| Accounts.GetPut | packages/backtest/portfolio.py:41-45 | Dictionary law: writing one symbol's position changes what that symbol reads and no other. |
| Accounts.PutDistinct | packages/backtest/portfolio.py:37-45 | The position dictionary never holds a symbol twice. |
| Portfolios.EntryAt | packages/backtest/portfolio.py:41-45 | A scan that stops at a symbol's entry, or at the end, is the place a lookup reads and a write-back changes or appends. |
| Portfolios.Portfolio.constructor | packages/backtest/portfolio.py:37-39 | A new portfolio holds its starting cash and no positions. |
| Portfolios.Portfolio.GetPosition | packages/backtest/portfolio.py:41-45 | Returns the symbol's position, creating a zero one in the dictionary when it is missing. |
| Portfolios.Portfolio.StorePosition | packages/backtest/portfolio.py:77-104 | Writes a listed position back in place and changes nothing else. |
| Portfolios.Portfolio.ApplyFill | packages/backtest/portfolio.py:58-104 | The in-place updates of cash, average cost, realized P&L, multiplier and quantity do to the account exactly what the fill specification says, about which the accounting laws above are proved. |
| Portfolios.Portfolio.ApplySell | packages/backtest/portfolio.py:117-127 | Without a multiplier argument a sale uses the position's own one. |
| Portfolios.Portfolio.MarkToMarket | packages/backtest/portfolio.py:132-147 | The loop computes the sum of signed quantity times mark times multiplier over open, marked positions. |
| Portfolios.Portfolio.ProjectedEquityAndGross | packages/backtest/portfolio.py:149-186 | The loop computes the projection that ProjectionExact compares with the account after the fill, for listed and unlisted targets. |
| Timelines.Timeline | packages/backtest/engine.py:193-199 | The timeline is strictly increasing and holds exactly the timestamps at which some traded symbol has a bar. |
| Timelines.BarAt | packages/backtest/engine.py:201-205 | A symbol's bar at a timestamp exists exactly when its frame has that timestamp; of duplicates the last row counts. |
| Timelines.ViewsAgree | packages/backtest/engine.py:260-263 | Removing the rows after a cut changes neither the bars nor the history seen at any timestamp up to the cut. |
| Timelines.TimelineCut | packages/backtest/engine.py:193-199 | The timeline of the cut market is the initial part of the full timeline. |
| Timelines.CountUpTo | packages/backtest/engine.py:258-258 | How many bars of a timeline are at or before a timestamp: exactly those below the count. |
| Engine.AcceptedIff | packages/backtest/engine.py:142-153 | Inputs are accepted if and only if there is a symbol and every traded symbol has a non-empty frame; without symbols that is the error, otherwise the error names the first symbol without bars and says whether its frame is missing or empty. |
| Marks.MarksAreLastCloses | packages/backtest/engine.py:259-263 | After k bars of any run a symbol has a mark exactly when one of those bars traded it, and the mark is the close of its bar at the last of them. |
| Marks.MidBarMarks | packages/backtest/engine.py:259-263 | While a bar settles options and tries its orders, the marks are already the last closes including that bar. |
| Marks.EquityFromCloses | packages/backtest/engine.py:437-446 | Every point of the equity curve from fills and bars alone: cash is starting cash plus the fills' cash flow, and the positions are worth, summed over different symbols including every one held, what the fills left times the last close times the multiplier. |
| BacktestRuns.CursorIsFilter | packages/backtest/engine.py:248-255 | On a sorted frame the prefix before the first later row is exactly the rows up to the timestamp. |
| BacktestRuns.BacktestRun.constructor | packages/backtest/engine.py:207-255 | The loop starts in the state machine's initial state with no cursor moved. |
| BacktestRuns.BacktestRun.UpdateMarks | packages/backtest/engine.py:259-263 | The marks loop overwrites the marks of exactly the symbols that traded and carries the others forward. |
| BacktestRuns.BacktestRun.SettleExpiringOptions | packages/backtest/engine.py:98-136 | The settlement loop does what the settlement phase of the state machine does. |
| BacktestRuns.BacktestRun.SettleOption | packages/backtest/engine.py:110-136 | One position: skipped when flat, already settled or not due, else sold at the settlement price, logged and marked settled. |
| BacktestRuns.BacktestRun.ExpireOrders | packages/backtest/engine.py:274-286 | The loop moves exactly the due orders to the expired list in order, calling the strategy once for each, and keeps the rest in order. |
| BacktestRuns.BacktestRun.CancelOrders | packages/backtest/engine.py:288-299 | The cancellation phase: nothing without requests, else the requested orders go and the requests are consumed. |
| BacktestRuns.BacktestRun.DropCancelled | packages/backtest/engine.py:291-298 | The loop moves exactly the requested orders to the cancelled list in order, calls the strategy once for each and keeps the rest in order. |
| BacktestRuns.BacktestRun.SimulateOrder | packages/backtest/engine.py:311-318 | Dispatch by order type to the simulator of that type. |
| BacktestRuns.BacktestRun.TryFillStopOrder | packages/backtest/fills.py:169-236 | The stop simulator with its in-place update of the water marks, which happens whether or not the order then triggers. |
| BacktestRuns.BacktestRun.FillOrders | packages/backtest/engine.py:301-390 | Trying the resting orders one by one is the state machine's fill phase. |
| BacktestRuns.BacktestRun.TryOrder | packages/backtest/engine.py:303-388 | One order: kept without a bar or a fill, rejected with a callback, or booked. |
| BacktestRuns.BacktestRun.RejectOrder | packages/backtest/engine.py:347-348 | A refused order is recorded with its reason and the strategy is told. |
| BacktestRuns.BacktestRun.BookFill | packages/backtest/engine.py:373-388 | An accepted fill is applied and logged; what is left is requeued under the same id, or the water mark of a completed order is dropped. |
| BacktestRuns.BacktestRun.CheckFill | packages/backtest/engine.py:335-371 | The shorting and buying-power rules on the live portfolio decide as the specification, and only add a zero position for the symbol. |
| BacktestRuns.BacktestRun.AdvanceCursors | packages/backtest/engine.py:397-405 | Forward-only cursors yield exactly the rows up to the timestamp for every symbol; counted move by move, no cursor has moved more often since the start of the run than its frame has rows. |
| BacktestRuns.BacktestRun.AdvanceCursor | packages/backtest/engine.py:399-405 | One symbol: the slice is the filter, and the moves made are exactly those from where the cursor stood to where it stands. |
| BacktestRuns.BacktestRun.CallStrategy | packages/backtest/engine.py:392-435 | The strategy sees history, positions, cash and pending orders of this bar; its orders join the book and its cancel requests wait for the next bar. |
| BacktestRuns.BacktestRun.RecordEquity | packages/backtest/engine.py:437-446 | One equity point per bar: cash plus the marked value of the positions. |
| BacktestRuns.BacktestRun.OpenBar | packages/backtest/engine.py:259-299 | Marks, settlement, expirations and cancellations, in that order. |
| BacktestRuns.BacktestRun.ProcessBar | packages/backtest/engine.py:258-446 | One iteration of the loop is one step of the state machine and keeps every cursor's moves within its rows. |
| BacktestRuns.CheckInputs | packages/backtest/engine.py:142-153 | Input validation reports the first complaint in symbol order. |
| BacktestRuns.BacktestRun.WalkTimeline | packages/backtest/engine.py:257-446 | The loop over the timeline ends in the state machine's last state, and counted from the start of the run all cursors together move at most as often as the traded frames have rows. |
| BacktestRuns.RunBacktest | packages/backtest/engine.py:183-461 | Over sorted frames the backtest returns exactly what the state machine computes. |
| Causality.StepsAgree | packages/backtest/engine.py:258-446 | A bar at or before a cut does the same on the full and on the cut market. |
| Causality.RunsAgree | packages/backtest/engine.py:192-205 | The run on the market cut at a time passes through the very states of the full run. |
| Causality.UntradedIgnored | packages/backtest/engine.py:193-205 | The frames of symbols that the strategy does not trade make no difference to a backtest. |
| Causality.StateIsPrefix | packages/backtest/engine.py:226-232 | Every state of a run records exactly the part of the final result stamped so far, and the rest of the result is stamped later. |
| Causality.StepContinues | packages/backtest/engine.py:258-446 | One bar only appends to the logs, with its own timestamp, and appends one equity point. |
| Causality.CutAccepted | packages/backtest/engine.py:142-153 | The cut market is accepted if and only if every traded symbol has a bar by then. |
| Causality.NoLookAhead | packages/backtest/engine.py:33-36 | For every strategy and cut: the backtest on the bars up to the cut is exactly the prefix of the full backtest (fills, equity, rejections, cancellations, expirations, signals), and it is accepted exactly when each symbol has a bar by then. |
| Hearing.HearsTheLog | packages/backtest/engine.py:274-299 | For every strategy: writing everything down does not disturb a run, and the callbacks tell of exactly the orders recorded as expired, cancelled and rejected, in order and with the reasons. |
| Hearing.HearsTheBars | packages/backtest/engine.py:407-435 | In every run the j-th context shows the j-th timestamp and bar number, the cash and the open signed quantities that the fills so far left, the rows up to then, the option contracts and the resting orders; and the answer becomes the bar's orders, cancel requests and signals. |
| Hearing.ResultReports | packages/backtest/engine.py:448-461 | The returned result: cash and positions are what its fills leave, one equity point per timestamp, the orders the strategy was told about, its final state, the signals of all answers and the number of its valid requests. |
| Orders.SubmitsEachValid | packages/strategy/base.py:92-106 | The valid requests of a bar, and no others, become orders, each with its own fields and in order. |
| Orders.SubmitIsFresh | packages/strategy/context.py:507-522 | Submitted orders carry fresh consecutive ids, this bar's timestamp and an expiry beyond this bar. |
| Orders.FillOrderBalances | packages/backtest/engine.py:303-388 | Trying an order, whatever happens to it, keeps its books balanced. |
| Orders.StepBalances | packages/backtest/engine.py:258-446 | One bar keeps every order's books balanced. |
| Orders.OrdersConserved | packages/backtest/engine.py:274-390 | In every reachable state each submitted order is in exactly one of pending, cancelled, expired, rejected or completely filled; its fills plus what is left where it rests equal its original quantity; and wherever it rests it is the submitted order but for that quantity. |
| Lifecycle.FillOrderAdds | packages/backtest/engine.py:303-388 | Trying an order adds at most one fill, its own, and at most itself to the book. |
| Lifecycle.BarShape | packages/backtest/engine.py:258-446 | What one bar of a run can do to fills, submissions and the book. |
| Lifecycle.FillsAreTimely | packages/backtest/engine.py:274-286 | Over any run every fill of an order happens strictly after its submission bar and strictly before the bar count at which it expires, and carries its symbol, side and tags. |
| Lifecycle.OneFillPerBar | packages/backtest/engine.py:301-390 | Two fills of one order are never on the same bar, remainders included. |
| Lifecycle.UntriedLeaves | packages/backtest/engine.py:301-390 | A bar neither fills nor keeps an order that it does not try. |
| Lifecycle.UntriedStaysOut | packages/backtest/engine.py:301-390 | In particular one that is not in the book or is to be cancelled. |
| Lifecycle.GoneForGood | packages/backtest/engine.py:379-388 | An order that has left the book never comes back and never fills again. |
| Lifecycle.NoFillAfterCancel | packages/backtest/engine.py:288-299 | From the bar after the request on, a cancelled order is out of the book and nothing of it ever fills again. |
| Fates.DecreedIff | packages/backtest/engine.py:274-299 | The orders a bar expires are exactly the resting ones whose lifetime is over at it, and those it cancels are exactly the others whose cancellation was requested. |
| Fates.EveryOrderIsServed | packages/backtest/engine.py:301-318 | Every other resting order is tried, and the attempt comes to a fill if and only if its symbol trades, the bar reaches it and the volume cap allows it. |
| Fates.TriedFate | packages/backtest/engine.py:303-388 | Without a fill it is left alone; with one that the account at its turn objects to it is refused for that reason; otherwise it is filled by the cap's allowance and what is left rests on. |
| Fates.RefusalsAreTrue | packages/backtest/engine.py:340-371 | In every run the reason given for a refusal is true: of the position the fill would have made, or of the equity and exposure the account would have had. |
| Trailing.WaterIsExtreme | packages/backtest/fills.py:192-200 | The running water mark is undefined exactly while no bar has tried the order, and otherwise the maximum high (SELL) or minimum low (BUY) of the bars that did, reached by one of them. |
| Trailing.TriggerRatchets | packages/backtest/fills.py:193-200 | The trigger only moves in the protective direction, for BUY at any trail and for SELL at one of at most 100 percent. |
| Trailing.SellRatchetCondition | packages/backtest/fills.py:191-196 | A SELL trigger follows its water mark upwards if and only if the trail is at most 100 percent. |
| Trailing.TrailingRatchet | packages/backtest/engine.py:313-323 | In every reachable state the stored water mark of a pending trailing order is exactly that extreme, and without a volume cap no bar that tried it has breached its trigger. |
| Trailing.TrailingFires | packages/backtest/fills.py:205-216 | Every fill of a trailing order happened on a bar that breached the trigger in force, the first such bar when volume is not capped. |
| WaterMarks.MarkDroppedIff | packages/backtest/engine.py:379-388 | Trying a trailing order forgets its water mark if and only if the bar fills what is left and the rules accept the fill, and drops it from the book if and only if that or a refusal happens; both are decided by the state before. |
| WaterMarks.MarkAfterBar | packages/backtest/engine.py:274-388 | Every way of leaving the book in a run: an order that expires or is cancelled leaves, its mark staying exactly if some bar had tried it; one whose symbol does not trade stays; otherwise the state at its turn decides. |
| WaterMarks.MarkStaysPut | packages/backtest/engine.py:387-388 | After an order has left, its mark is kept, or absent, for the rest of the run. |
| WaterMarks.MarkForgottenIff | packages/backtest/engine.py:234-236 | When the comment there holds: an order that leaves is without a mark ever after if and only if it was completed, or expired or cancelled before any bar tried it. |
| Witnesses.CancelledMarkStays | packages/backtest/engine.py:234-236 | Against the comment there: in a concrete run a cancelled trailing order is out of the book and its water mark is still kept. |
| Ledger.FillReconciles | packages/backtest/portfolio.py:58-104 | Applying and logging any fill keeps account and fill list reconciled: cash, quantities, multipliers and basis. |
| Ledger.AccountReconciles | packages/backtest/engine.py:373-377 | In every reachable state cash is the starting cash plus the fills' cash flow, each quantity is the signed sum of its fills, and realized P&L less the cost held is sells minus buys less the fees of reducing fills. |
| Ledger.EquityPointOfBar | packages/backtest/engine.py:437-446 | Point j of the equity curve of any longer run is the one that bar j recorded. |
| Ledger.EquityDecomposes | packages/backtest/engine.py:437-446 | At every equity point of every run total equity is starting cash plus realized and unrealized P&L over the positions minus the fees of opening and adding fills, option settlements of longs and shorts included. |
| Margin.MidBarStep | packages/backtest/engine.py:301-303 | The states between the orders of a bar: trying the next order is one step from one to the next. |
| Margin.ExtensionPassesIff | packages/backtest/engine.py:351-371 | A fill that raises exposure passes if and only if shorting allows it and the equity after it covers margin_rate times the gross exposure after it. |
| Margin.ShrinkPassesIff | packages/backtest/engine.py:340-371 | At any marks and multipliers, a fill that shrinks a position without crossing zero passes if and only if the shorting ban does not concern it and a unit of the symbol is worth at least nothing, or the fill changes nothing, or the account after it covers its margin. |
| Margin.ExtendsIff | packages/backtest/engine.py:351-356 | Where a unit is worth something a fill counts as extending exactly when it takes the position further from zero. |
| Margin.GrossIsLongLessShort | packages/backtest/portfolio.py:18-24 | Gross exposure is the value of the longs less the value of the shorts, and the marked value their sum. |
| Margin.MarginCheckIsExact | packages/backtest/engine.py:335-371 | Whenever a run tries an order whose fill raises exposure, the check accepts exactly when the true account after the fill meets the shorting rule and the margin. |
| Margin.ShrinkingAcceptedIff | packages/backtest/engine.py:351-371 | In every run, at any prices and multipliers, a reduction is accepted if and only if a unit of the symbol is worth at least nothing, or the fill changes nothing, or the account after it covers its margin. |
| Witnesses.ReductionRefused | packages/backtest/engine.py:351-371 | Against the comment there: in a concrete run two units are held at a price below zero, and the order to sell one of them is rejected for want of buying power. |
| Margin.ShrinkingNeverRefused | packages/backtest/engine.py:351-356 | In particular, over positive prices and multipliers it is never refused. |
| Margin.RunLongOnly | packages/backtest/engine.py:340-349 | With shorting disabled no reachable state has a negative position. |
| Solvency.FeeAtMostValue | packages/backtest/types.py:127-141 | With rates of at most 100 percent the fee on a fill of anything but an option is at most the fill's value. |
| Solvency.BuyKeepsCash | packages/backtest/engine.py:351-371 | A purchase that passes the check of a cash account leaves cash non-negative. |
| Solvency.FillOrderCash | packages/backtest/engine.py:303-388 | Trying any sane order leaves a cash account's cash non-negative. |
| Solvency.MidBarSolvent | packages/backtest/engine.py:303-388 | Cash and positions stay non-negative even in the middle of a bar. |
| Solvency.CashAccountStaysSolvent | packages/backtest/engine.py:333-375 | No shorting, margin rate at least one, sane orders, positive prices, no options: in every reachable state cash and positions are non-negative, and so is every point of the equity curve. |
| Settlement.SettlementParity | packages/backtest/engine.py:83-95 | Intrinsic value: calls and puts settle at no less than zero, at most one of them above it, and call less put is mark less strike. |
| Settlement.SettlementCloses | packages/backtest/engine.py:110-136 | The settlement phase closes exactly the open, due and not yet settled option positions and leaves every other quantity alone. |
| Expiries.SettlementsAreFair | packages/backtest/engine.py:83-136 | Every settlement fill of any run is of an option whose expiry date had come; it sells, free of charge, exactly what the fills before it left, at intrinsic value on the underlying's last close when the contract names one that has one, else at the option's own last close, else at zero. |
| Expiries.DueOptionsSettle | packages/backtest/engine.py:110-118 | If the fills so far have left a position in an option whose expiry date has come and none has settled it, the bar settles it. |
| Settlement.ExpiredStaysOpenIff | packages/backtest/engine.py:111-112 | An expired position survives the phase if and only if it was opened after its symbol had been settled. |
| UnitTrades.ReopenedStaysOpen | packages/backtest/engine.py:265-269 | Against the comment there: in a concrete run an option bought back after its settlement is held although it has expired. |
| Settlement.SettledAtMostOnce | packages/backtest/engine.py:242-242 | Over any run no option is settled twice, and a settlement fill is of the symbol it names. |
| Groups.GroupByGroups | packages/backtest/analytics.py:127-129 | Grouping by a key gives one group per key, holding that key's items in their original order. |
| Groups.GroupsTotal | packages/backtest/analytics.py:127-129 | Grouping neither loses nor duplicates: group totals add up to the total. |
| Groups.GroupsInFirstOrder | packages/backtest/analytics.py:127-130 | The groups stand in the order in which their keys first occur. |
| RoundTrips.SegmentIsSegmentation | packages/backtest/analytics.py:133-148 | Extraction cuts the fills into trips that go from flat to flat without being flat in between, and an unfinished rest, losing nothing. |
| RoundTrips.SegmentationUnique | packages/backtest/analytics.py:136-148 | There is only one such cut. |
| RoundTrips.ExtractionIsTheSegmentation | packages/backtest/analytics.py:133-148 | A cut into trips and a rest is valid if and only if it is the extraction. |
| RoundTrips.FlatMeansClosed | packages/backtest/analytics.py:143-148 | Nothing is left open if and only if the fills net to zero. |
| RoundTrips.ExtractionComposes | packages/backtest/analytics.py:143-145 | Cut at any flat point, the extractions of the parts join to the extraction of the whole. |
| Analytics.SortedByTime | packages/backtest/analytics.py:132-132 | The sort orders by time and keeps simultaneous fills in their order. |
| Analytics.TripIsItsCash | packages/backtest/analytics.py:159-185 | A trip's gross and net P&L are the cash its fills moved before and after fees, in either direction. |
| Analytics.PaysItsSpreadIff | packages/backtest/analytics.py:72-72 | For any fills that net to zero, gross P&L is quantity times the spread of the average prices, signed by direction, if and only if the reported quantity is positive or the gross P&L is zero. |
| Analytics.SettledShortHasNoSpread | packages/backtest/analytics.py:166-185 | Against the comment at line 72: a short option sold at 5 and settled at 2 has earned 3 with quantity and both averages zero. |
| Analytics.TripPnlFromAverages | packages/backtest/analytics.py:166-185 | A closed trip of positive fills has a positive quantity, and its gross P&L is quantity times the spread of the average prices, signed by direction. |
| Analytics.CollectTagsCollects | packages/backtest/analytics.py:193-199 | Collecting over a list of fills gives exactly the tags known before and those of the fills, each once, the known ones first. |
| EntryTags.EntryTagsAreTheEntrys | packages/backtest/analytics.py:172-199 | A tag is among a trip's entry tags exactly when some fill on the side of its first fill carries it; each is there once, in the order in which those fills first mention them. |
| EntryTags.TripFrame | packages/backtest/analytics.py:155-215 | A trip has its first fill's symbol, is long exactly when that is a buy, runs from the first fill to the last, and reports their number and fees. |
| EntryTags.TripAverages | packages/backtest/analytics.py:159-182 | Its quantity is what was entered, and its average prices times the quantities are what the entries and the exits cost. |
| Analytics.ExtractedTagsDistinct | packages/backtest/analytics.py:193-199 | No extracted trip carries a tag twice. |
| Analytics.ExtractionKeepsTotal | packages/backtest/analytics.py:116-150 | Whatever is measured so that a trip of one symbol weighs as much as its fills, closed trips and open fills together weigh as much as all fills. |
| Analytics.ExtractionConservesCash | packages/backtest/analytics.py:116-150 | For any fills whatever, the net P&L of the closed trips and the cash of the open fills add up to the cash of all fills. |
| Analytics.GatherTags | packages/backtest/analytics.py:193-199 | The two loops over fills and tags compute the collected tags. |
| Analytics.RoundTripFromFills | packages/backtest/analytics.py:153-200 | The summary computes the round trip that the laws above are about. |
| Analytics.WalkSymbol | packages/backtest/analytics.py:132-148 | The walk with a running position computes the segmentation of the sorted fills. |
| Analytics.ExtractAll | packages/backtest/analytics.py:116-150 | Grouping and walking every symbol computes the extraction. |
| Attribution.SymbolAttributionAddsUp | packages/backtest/attribution.py:226-254 | Rows by symbol are ranked, one for each symbol with a trip and no other; each summarizes exactly its symbol's trips; nets, grosses, fees and counts add up to those of all trips, and percentages to 100 when the total is not zero. |
| Attribution.SignalAttributionAddsUp | packages/backtest/attribution.py:270-295 | Rows by signal count a trip's P&L once for each of its tags, and exactly that. |
| Attribution.SingleTagsPartition | packages/backtest/attribution.py:154-155 | If no trip carries two tags, the signal rows and the untagged trips partition the total. |
| Attribution.AttributeTrips | packages/backtest/attribution.py:226-254 | Grouping, summarizing and sorting computes the ranked rows by symbol. |
| Attribution.SymbolRowMeans | packages/backtest/attribution.py:116-136 | A symbol's row: wins and losses are the numbers of its trips with positive and negative P&L; win rate, average and share of the total are the numbers whose products give them back, absent exactly without trades or total. |
| Attribution.SignalRowMeans | packages/backtest/attribution.py:278-295 | A signal's row reports the trips that carry its name in the same way. |
| EntryTags.SignalRowFromFills | packages/backtest/attribution.py:257-299 | From the fills: a name's row counts exactly the closed trips of which some entry fill carries the name, how many brought cash in or lost some and the cash they moved, and the events in which the name passed and was blocked. |
| Signals.CountEvents | packages/backtest/attribution.py:262-268 | The two dictionaries hold, for each name, the number of its passed and of its blocked events, and no other name. |
| Signals.FileTrip | packages/backtest/attribution.py:272-274 | One trip is filed under each of its tags and under no other name. |
| Signals.GroupByTag | packages/backtest/attribution.py:270-274 | The tag dictionary lists, for each tag, exactly the trips carrying it, in order. |
| Signals.SummarizeSignal | packages/backtest/attribution.py:278-295 | One name's row has its event counts and the summary of exactly the trips it tags. |
| Signals.AttributeSignals | packages/backtest/attribution.py:257-299 | Every name that was evaluated or tags a trip gets one row, whatever order the set of names is visited in, and the rows are ranked. |
| Signals.ComputeAttribution | packages/backtest/attribution.py:138-168 | Totals, rows, untagged trips and extremes fit together: symbol rows add up to the total, signal rows to the P&L per tag; there is one signal row for each name that was evaluated or tags a trip and no other, and they are in descending order; no symbol's trips earned more than the best symbol's or less than the worst one's; and with single tags signals plus untagged make the total. |
| Money.TwoAccountingsAgree | packages/backtest/portfolio.py:72-104 | Over any flat-to-flat stretch of one symbol's fills, with adds, reductions and flips, the P&L realized by average cost before fees is the multiplier times the round trip's gross P&L. |
| Money.AccountingsEqualIff | packages/backtest/analytics.py:162-184 | The two report the same number if and only if the multiplier is one or the gross P&L is zero, since the analytics ignore the multiplier. |
| Money.MultiplierIgnored | packages/backtest/analytics.py:162-184 | They do differ: bought at 10 and sold at 12 under a multiplier of 100, realized P&L is 200 and the trip's gross P&L is 2. |
| Money.RealizedMatchesTrips | packages/backtest/analytics.py:116-150 | In every reachable state where a symbol is flat, the engine's realized P&L on it before fees is its multiplier times the gross P&L of its closed trips. |
| Money.FillsLoggedInOrder | packages/backtest/engine.py:377-377 | Over any run the fills are logged in time order. |
| Money.SortChangesNothing | packages/backtest/analytics.py:132-132 | Hence the sort by time changes nothing on any symbol's fills of a run. |
| Money.MoneyConserved | packages/backtest/analytics.py:131-150 | In every state of every run, at any multipliers, the change in cash is each closed trip's gross P&L times its symbol's multiplier less its fees, plus what the open fills moved. |
| Money.MoneyConservedAtUnit | packages/backtest/analytics.py:131-150 | At multiplier 1 that is the net P&L of the closed trips plus what the open fills moved, fees included. |
| Money.FlatRunAttribution | packages/backtest/attribution.py:148-168 | When a run at multiplier 1 ends flat, the change in cash, the change in equity, the attribution's total and the sum of its symbol rows are one number. |
| Grids.AxesAreSorted | packages/backtest/walkforward.py:105-105 | The keys of the grid are taken in sorted order, none lost or added. |
| Grids.LexLeqIff | packages/backtest/walkforward.py:107-107 | Keys are ordered by the character at the first place where they differ, a prefix coming first. |
| Grids.GridIsComplete | packages/backtest/walkforward.py:101-107 | One combination per choice of an index for each sorted key, at the choice's lexicographic rank and with its chosen values; their number is the product of the list lengths. |
| Grids.RankIsOnto | packages/backtest/walkforward.py:107-107 | Every place of the enumeration is the rank of some choice. |
| Grids.SelectCombo | packages/backtest/walkforward.py:232-262 | The selection is a first maximum among the combinations with a metric, and there is none exactly when no combination has one. |
| Grids.FirstMaximumUnique | packages/backtest/walkforward.py:252-255 | There is at most one first maximum. |
| Walkforward.ComputeWindows | packages/backtest/walkforward.py:113-152 | Exactly min(requested, fitting) windows, or none when that is not positive; train abuts test, the test segments tile the tail of the data and end with it, and no training start is negative, so none is skipped. |
| Walkforward.LeastIsLeast | packages/backtest/walkforward.py:130-131 | The windows are limited by a shortest frame. |
| Walkforward.NoMoreFit | packages/backtest/walkforward.py:133-139 | One more window than fits would start before the data. |
| Walkforward.SliceRows | packages/backtest/walkforward.py:155-161 | A slice holds exactly the rows at the positions from start to end, as far as there are any. |
| Walkforward.TrainIsTruncated | packages/backtest/walkforward.py:227-228 | If in the frames of the traded symbols the cut by position is also a cut in time, their training bars are their extended bars up to just before the test window. |
| Walkforward.WarmUpReplaysTraining | packages/backtest/walkforward.py:264-275 | Then the extended run passes through the training run's final state, and the training result and the filtered test result partition the extended result. |
| Walkforward.WarmUpReplaysOnSharedIndex | packages/backtest/walkforward.py:264-275 | The same for any window over traded frames that share a strictly increasing index, a single symbol in particular, with acceptance of both runs proved. |
| Walkforward.ComputedWindowsReplay | packages/backtest/walkforward.py:113-152 | Every computed window is such a window: its training and filtered test results partition the extended result whenever the traded frames share an index. |
| Straddles.OwnIsFirstFlat | packages/backtest/walkforward.py:176-178 | The straddling trade's own test fills reach to the first point at which the position carried over the cut is flat, or to the end. |
| Straddles.StraddlerIsOneTrip | packages/backtest/walkforward.py:176-178 | Over both sides of the cut, what was open and those fills are one trip, closed exactly when it nets to zero. |
| Straddles.SymbolsOpen | packages/backtest/analytics.py:131-150 | The open fills of one symbol in an extraction over all symbols are those of the symbol's own extraction. |
| Straddles.StraddlerStaysOpenIff | packages/backtest/walkforward.py:167-187 | When the text there holds: for any run, any window cut in time and any symbol held at the cut, what the window's analytics leave open of the symbol is a tail of its test fills, and it contains all of the straddling trade's own ones if and only if no non-empty prefix of the symbol's test fills nets to zero. |
| Straddles.StraddlingTradeMispaired | packages/backtest/walkforward.py:176-178 | Against the text there: a concrete run and window in which the straddling sale starts a closed short trip and nothing is open. |
| Straddles.WindowAllOpenIff | packages/backtest/walkforward.py:176-187 | A window reports no closed trip of a symbol if and only if its own fills never net to zero. |
| Walkforward.RunWindow | packages/backtest/walkforward.py:212-275 | Sweep, first best, rerun on train and test rows, filter: the outcome is that of the first best combination, no combination that runs has a higher metric, it fails exactly when none has one, and at a cut in time its training and test results partition the extended result. |
| Cscv.CombinationsCount | referee/stats.py:147-147 | There are binomially many subsets of each size. |
| Cscv.CombinationsAre | referee/stats.py:147-147 | What is enumerated is a subset of the right size in increasing order, and none twice. |
| Cscv.CombinationsComplete | referee/stats.py:147-147 | Every subset of the right size is enumerated. |
| Cscv.VisitsHalvesWithBlockZero | referee/stats.py:147-156 | For every even number of blocks the loop visits exactly the half-size subsets containing block 0, in order. |
| Cscv.SplitsAreTransversal | referee/stats.py:147-156 | Each complementary pair is visited once: a half or its mirror, never both and never twice, and twice the number of splits is C(S, S/2). |
| Pbo.ArgMaxIsFirstBest | referee/stats.py:169-169 | The in-sample winner is the first of the best. |
| Sharpes.SharpeRatio | referee/stats.py:161-168 | The performance statistic from its sums: defined exactly for more than one bar and positive variance, then the number with the sign of the total whose square times the variance is the square of the mean. |
| Sharpes.ScaleFree | referee/stats.py:161-168 | Scaling every return by the same positive factor leaves it alone. |
| Sharpes.RisesWithMean | referee/stats.py:161-168 | At the same number of bars and the same variance a higher total has a higher statistic. |
| Sharpes.SharpeOfReturns | referee/stats.py:159-168 | Of a list of returns it is defined if and only if some two differ, and its square times the sum of squared deviations is the squared mean times one less than their number. |
| Sharpes.PerformanceIsSharpe | referee/stats.py:156-168 | Over any choice of blocks a configuration's performance is the Sharpe ratio of all its returns in those blocks together. |
| Sharpes.AccumulatedIsSharpe | referee/corpus.py:98-117 | With statistics accumulated over the bars the embargo keeps, a configuration's performance over any blocks is the Sharpe ratio of the kept returns in them. |
| Pbo.RankInUnitInterval | referee/stats.py:170-173 | Every relative rank lies in [0, 1], 1 exactly for a strict best and 0 exactly when nothing finite is lower (two finite performances or more). |
| Pbo.RankCounts | referee/stats.py:170-173 | The rank is the number of finite performances strictly below the winner's out of the finite others. |
| Pbo.WinnerRankMeans | referee/stats.py:156-179 | A split: the winner is the first of those that perform best on the split's own blocks, the rank is the share of the others it beats on the remaining blocks, and the split overfits exactly when it beats at most half. |
| Pbo.OddsOfRank | referee/stats.py:174-175 | Odds are rank to one minus rank between the margins of one in a million, and those of the margin beyond them. |
| Pbo.SidesPoolToAll | referee/stats.py:160-163 | In-sample and out-of-sample statistics of a split add up to those of all blocks. |
| Pbo.FindArgMax | referee/stats.py:169-169 | The scan for the winner finds that first best. |
| Pbo.RankWinner | referee/stats.py:157-173 | The rank of a split's winner out of sample, in [0, 1]. |
| Pbo.CountOverfits | referee/stats.py:149-178 | The loop over all halves, skipping seen mirrors, counts the visited splits and the overfit ones among them and collects their logits in order. |
| Pbo.EvenOddsIff | referee/stats.py:174-176 | The clipped odds of a rank are at most even if and only if the rank is at most one half. |
| Pbo.LogitsCountOverfits | referee/stats.py:174-178 | The overfit splits are exactly those whose logit is not positive. |
| Pbo.PboCscv | referee/stats.py:132-181 | The probability of overfitting is the share of overfit splits, equally of non-positive logits, and lies in [0, 1]; the mean logit is that of the visited splits; a wrong block count is refused; for even S the splits are half of all halves. |
| Embargo.LabelsNondecreasing | referee/corpus.py:74-76 | Block labels are in range and never decrease with time. |
| Embargo.BlocksAreEqualShares | referee/corpus.py:75-76 | Within the span a bar is in block b exactly when b equal shares of the calendar have passed and b + 1 have not; before it the first block counts, from its end on the last. |
| Embargo.RunStart | referee/corpus.py:99-102 | The last label change at or before a bar. |
| Embargo.RunStartIsBlockStart | referee/corpus.py:96-103 | For nondecreasing labels it is the first bar of the bar's own block. |
| Embargo.KeptBarsAreSeparated | referee/corpus.py:103-104 | Two kept bars of different blocks are more than the embargo apart. |
| Embargo.KeptIffPastEmbargo | referee/corpus.py:103-104 | A bar is kept if and only if it is at least the embargo past its block's first bar. |
| Embargo.BlocksPartition | referee/corpus.py:105-109 | Per-block statistics of the kept bars add up to those over all kept bars. |
| Embargo.KeptFlags | referee/corpus.py:99-104 | The running maximum computes the kept flags. |
| Embargo.PoolBlock | referee/corpus.py:106-109 | One block's sum, sum of squares and count over its kept bars. |
| Embargo.AccumulateBlocks | referee/corpus.py:98-109 | The returned arrays hold those statistics for every block, and each array adds up to the sum, the sum of squares or the number of all kept bars. |

## Left out

- Strategies: exceptions in `on_bar` and in callbacks, which the engine logs and swallows, are not modelled; a strategy returns a state, order requests, cancel requests and signal events. A request whose order would be refused by its constructor is dropped and the bar's other requests stand, as for a strategy that catches the error.
- Strategy context: indicators, option chain lookups, the assembly of tags from signals and the returned flag of a cancel request belong to the strategy's function; the tags arrive with the request.
- Random order ids: ids are the submission index instead of random hexadecimal text.
- Decimal: the 28-digit rounding of quotients and products is not modelled; amounts are exact reals.
- Position objects: a position is a value written back into the portfolio rather than an object shared by reference.
- Settlement metadata: asset classes other than "option" and rights other than C and P are only distinguished as the code distinguishes them; upper-casing is spelled out for the letter c.
- Input checks on columns and index type: frames are typed in the model.
- BacktestRuns.RunBacktest: requires frames sorted by time, which the source assumes of its callers but does not check; the state machine itself needs no such assumption.
- Margin.ShrinkingNeverRefused: states the rule for positive prices and multipliers, since a negative mark or multiplier makes a reduction raise the measured exposure; `Margin.ShrinkingAcceptedIff` covers every other case and `Witnesses.ReductionRefused` is one.
- Solvency.CashAccountStaysSolvent: assumes a configuration without options, because an option's fee per contract is not bounded by its value.
- Analytics metrics: Sharpe, Sortino, drawdown, Calmar, win rates and profit factors of a backtest are formulas over floating point and are not modelled.
- Attribution: serialization to dictionaries is not modelled; among names with equal P&L and trade count the order is the arbitrary one of a set, as in the source.
- Walkforward.RunWindow: combinations whose parameters or strategy fail to construct are represented by a failed score; the metric is an arbitrary function of the training result; window timestamps and per-window metrics are not reported.
- Walk-forward aggregates: averages over windows, durations and persistence are not modelled.
- Pbo.PboCscv: the square root is a parameter that is positive on positive numbers and the logarithm any function, increasing and zero at one where that matters; for an odd number of blocks which splits are visited is not characterized.
- Embargo: the return series, costs, skewness and kurtosis of a configuration are inputs; only the embargoed accumulation is modelled.
- Live brokers, data download, storage, queues, reports, signatures and the statistics with an inverse normal or bootstraps are not part of this model.
