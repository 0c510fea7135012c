# Verified model of the trading core

A Dafny model of the Rust trading core: the order lifecycle between a runtime and its broker, the two
position books, the backtest engine with its accounting and metrics, and the stream algorithms that
feed them. Loops and objects that change state are methods and classes, each proved against a
function on values; the properties are lemmas about those functions, over every run.

`dafny verify dfyconfig.toml` checks everything.

## Layout

- `types`, `sorting`: wrappers, order-independent sums, the stable sort.
- `portfolio`, `orders`, `brokers`, `state_machine`, `gateway`, `risk`: the entities. A venue is
  either the in-memory broker (`MockVenue`) or a fully arbitrary one (`OpenVenue`: a script of
  answers, one per call).
- `history`, `aggregator`, `strategy`, `runtime`, `trading_runtime`, `simulation`, `sim_loop`: the
  runtime. `Desk` is everything orders touch, `Tape` everything quotes touch.
- `lifecycle`, `answers`: invariants of every run against every broker, and what callers are told.
- `agreement`, `simulation`, `discoveries`, `recovery`, `discipline`, `live_bounds`: two-book agreement,
  what the unseen fills add, restart, position discipline and risk limits on the in-memory broker.
- `order_pairs`, `order_runs`: when two fills may be discovered in either order, and runs that part.
- `indicators`, `built_ins`, `strategy_properties`, `macd_window`, `thresholds`, `built_in_runs`,
  `quote_history`: the strategies and how much history they need.
- `signals`, `crossings`, `strategy_rules`, `safeguards`: what indicators and strategies mean, and what a
  decision cycle lets through.
- `backtest`, `engine_views`, `lookahead`, `accounting`, `engine_runs`, `engine_cases`, `metrics`,
  `drawdowns`, `fifo`, `sold_shares`, `summaries`: the engine.
- `chart`, `chart_properties`, `chart_failures`, `frames`: the chart window splitter and the tick-frame
  parser.

## Where the code and a promise part

- **Reused order ids.** A restarted runtime counts its orders from one again. If it also keeps its
  prefix, the in-memory broker answers a reused id with the old acknowledgement, and the old fill is
  booked a second time. `Recovery.ReusedIdAfterRestart` says exactly when, `OrderRuns.RestartBooksTwice`
  is such a run; with fresh ids recovery is right in every continuation.
- **Recovery in the middle of a run.** It rebuilds a portfolio that already contains the fills still
  to be discovered, whether or not it is given their orders: the next full sync leaves the books agreeing
  exactly when it refuses every one of them (`Recovery.RecoveryThenSyncExactly`).
- **Two orders of one symbol.** Two-book agreement holds for single orders and for buys alone. For
  another pair it may depend on the order of the sync: `OrderPairs.TwoOrdersExactly` says exactly when,
  `OrderRuns.TwoOrdersOneSymbolDisagree` is such a run.
- **Unchecked quantities.** Without a risk manager the engine sends quantities that are not positive.
  `EngineRuns.EngineBooksExactly` says exactly when its books stay with the broker's.
- **Refused sells.** The engine records and cashes a sell that its portfolio refuses.
  `Accounting.Conservation` carries the notional of those sells as an extra term,
  `Accounting.ExtraMeansRefused` says when it is zero, `EngineCases.SellFromFlatRaisesCash` when not.
- **Negative equity.** The one-pass drawdown is the largest fall on some curves with negative points
  and not on others: `Drawdowns.DrawdownExactly`.
- **MACD and the bounded window.** Its averages are seeded at the oldest close, so it is the one
  strategy whose intents depend on how far back the window reaches: `MacdWindows.MacdIntentsExactly`.
- **Limits in the live loop.** Every order of a cycle is checked against the portfolio before the cycle,
  so several buys may add up beyond the limit on exposure, or on one symbol beyond the cap:
  `LiveBounds.ExposureAfterTick` and `SharesAfterTick` give the sum that decides,
  `OrderRuns.TwoBuysPassTheLimit` is such a run.
- **Loss limit.** The loss check rejects sells as well as buys, so beyond the limit a run books
  nothing more (`EngineRuns.StoppedForGood`).
- **Silent rotation.** The momentum score needs 253 closes, the replay loop and the default backtest
  keep 120 (`BuiltInRuns.SilentReplay`; `Thresholds.SilentExactly` is the exact number for every strategy).
- **Earlier ticks.** The header comment of `rust/lossfunction/src/marketdata/aggregator.rs` speaks of a
  later trading date, the code closes a bar on any other date (`TickGroups.BarsInOrderExactly`).
- **Dead check.** The second length check of the MACD cross never fires (`rust/lossfunction/src/strategies2.rs:270`).
- **Frame width.** The header comment of `rust/lossfunction/src/kis/ws.rs` speaks of 46 columns, the
  code cuts records of 47; the model uses 47. `docs/recovery.md` names a Python file as the place of
  the recovery procedure; the model follows `rust/lossfunction/src/runtime/mod.rs`.

## Model

| member | source | states |
|---|---|---|
| StateMachines.StateMachine.RegisterOrder | rust/lossfunction/src/execution/state_machine.rs:91-103 | A new id enters with the given status and an empty history; a known id is refused and nothing changes. |
| StateMachines.StateMachine.MoveTo | rust/lossfunction/src/execution/state_machine.rs:121-156 | A legal move sets the status and appends exactly one event; an unregistered id or an illegal move is an error and changes nothing. |
| StateMachines.StateMachine.MoveToUnknown | rust/lossfunction/src/execution/state_machine.rs:158-175 | Unknown is entered only where the table allows it; otherwise an error and no change. |
| StateMachines.LegalMoves | rust/lossfunction/src/execution/state_machine.rs:15-25 | The rule behind the table: nothing leaves a terminal status or returns to Pending, a fill needs an acknowledged order, a partly filled order is not rejected, Submitted is entered from Pending or Unknown, and only a partial fill repeats. |
| StateMachines.UnknownEntry | rust/lossfunction/src/execution/state_machine.rs:158-175 | A pending or submitted order is marked unknown, and no other; no other status changes. |
| AuditTrail.AuditChain | rust/lossfunction/src/execution/state_machine.rs:91-175 | After any sequence of register / transition / mark_unknown calls, the history of each order is a connected path in the table from its registered status to its current one, one event per successful call and none per failed call. |
| AuditTrail.TerminalClosesHistory | rust/lossfunction/src/execution/state_machine.rs:16-25 | An event into a terminal status is the last one of its order, in every reachable machine. |
| Gateways.OrderGateway.SubmitOrder | rust/lossfunction/src/execution/gateway.rs:64-121 | The new machine, id table, call trace and venue, and the result, for every answer: duplicates never reach the broker, an acknowledgement submits, a definitive refusal rejects, anything else parks the order in Unknown. |
| Gateways.OrderGateway.Conclude | rust/lossfunction/src/execution/gateway.rs:90-120 | The status, id table and result that the broker's answer makes of a pending order. |
| Gateways.ReportStatus | rust/lossfunction/src/execution/gateway.rs:202-214 | A report is Filled or Cancelled when it is closed, by its quantity, and partly filled or submitted while it is open, by its fill. |
| Answers.SubmitAnswers | rust/lossfunction/src/execution/gateway.rs:64-121 | The result of a submission and the status afterwards: acknowledged and Submitted with its broker id on record, refused and Rejected, anything else a timeout and Unknown; a duplicate changes nothing. |
| Gateways.Reconciler.ReconcileOrder | rust/lossfunction/src/execution/gateway.rs:135-176 | Only an Unknown order asks the broker; a report moves it to the reported status, an order the broker does not know is rejected, any other failure leaves it in Unknown. |
| Gateways.Reconciler.ReconcileOne | rust/lossfunction/src/execution/gateway.rs:188-197 | An order the machine has never seen enters at Unknown and is then reconciled. |
| Gateways.Reconciler.ReconcileAll | rust/lossfunction/src/execution/gateway.rs:181-199 | The batch equals reconciling one by one in some enumeration of the pending map, stopped by the first error. |
| Gateways.StopBatch | rust/lossfunction/src/execution/gateway.rs:181-199 | Once a batch is stopped, the order of the unvisited entries does not matter. |
| Lifecycle.EveryRun | rust/lossfunction/src/runtime/mod.rs:131-290 | Against every broker and for every sequence of quotes, cycles, syncs, recoveries and outside changes: ids are sent once, each status is explained by the broker's one answer, open orders are working, bookings are unique and Filled. |
| Lifecycle.AtMostOnceSubmission | rust/lossfunction/src/execution/gateway.rs:64-121 | `submit_order` reaches the broker at most once per client order id; a lost answer stays Unknown until a recovery names the order; Rejected needs a definitive refusal or a recovery; Unknown needs a lost answer. |
| Lifecycle.UnknownNeedsReconcile | rust/lossfunction/src/execution/gateway.rs:135-199 | In every reachable state an order leaves Unknown only in a recovery that names it. |
| Lifecycle.ExactlyOnceBooking | rust/lossfunction/src/runtime/mod.rs:188-265 | Over any run, recoveries included, an order is booked at most once, only when Filled, and is then out of the open set for good. |
| Lifecycle.SendKeeps | rust/lossfunction/src/execution/gateway.rs:64-121 | One submission keeps the run invariant, whatever the broker answers. |
| Lifecycle.SyncKeeps | rust/lossfunction/src/runtime/mod.rs:188-230 | One sync keeps the run invariant, whatever the broker reports. |
| Lifecycle.RecoverKeeps | rust/lossfunction/src/runtime/mod.rs:268-290 | A recovery keeps the run invariant and excuses only the orders it names. |
| Orders.ClientIdInjective | rust/lossfunction/src/runtime/mod.rs:164-166 | `{prefix}-{seq:04}` determines the sequence number, beyond four digits too. |
| Orders.MockIdInjective | rust/lossfunction/src/broker/mock.rs:73-76 | Broker ids of the in-memory broker never repeat. |
| Orders.PaddedWidth | rust/lossfunction/src/runtime/mod.rs:164-166 | Sequence numbers are written in decimal, four digits up to 9999 and unpadded above. |
| Orders.WellShaped | rust/lossfunction/src/domain/order.rs:80-123 | An order exists if and only if the quantity is positive and a limit order has a positive price, a market order none; it asks for what the intent asks. |
| Brokers.MockBroker.Submit | rust/lossfunction/src/broker/mock.rs:63-124 | The whole new book and the answer, for every requested quantity: a repeated id gets the old acknowledgement, a symbol without price is refused, market orders and crossing limits fill whole, others stay open, and a buy that leaves no shares panics. |
| Brokers.MockBroker.MoveShares | rust/lossfunction/src/broker/mock.rs:182-213 | Positions after a fill of any quantity: blended buys, sells at the kept average, a closed position removed, an uncovered sell ignored; false exactly where the average divides by zero. |
| Brokers.SubmitFills | rust/lossfunction/src/broker/mock.rs:63-124 | A market order fills whole at the market, a limit order whole at its limit, except a buy below and a sell above the market, which stay open and untouched. |
| Brokers.MockBroker.Cancel | rust/lossfunction/src/broker/mock.rs:126-138 | Closes the report of a known order and changes nothing else. |
| Brokers.CancelCloses | rust/lossfunction/src/broker/mock.rs:126-138 | Exactly known open reports can be cancelled, once; only the report changes, and what it had filled stays. |
| Answers.CancelIsSeen | rust/lossfunction/src/runtime/mod.rs:188-230 | After a venue-side cancel the next sync answers Cancelled, books nothing and drops the order. |
| Brokers.MockBroker.Positions | rust/lossfunction/src/broker/mock.rs:153-166 | The held symbols in ticker order, each once. |
| Recovery.SortedByTicker | rust/lossfunction/src/broker/mock.rs:153-166 | The listed positions are strictly increasing in their ticker. |
| Agreement.SubmitKeepsBook | rust/lossfunction/src/broker/mock.rs:63-124 | The book keeps all-or-nothing reports, fresh broker ids and acknowledged reports; exactly one report is new. |
| Portfolios.BlendConservesCost | rust/lossfunction/src/domain/mod.rs:38-46 | The blended average carries exactly the cost of both parts. |
| Portfolios.ApplyFillRow | rust/lossfunction/src/domain/portfolio.rs:60-110 | What one accepted fill does to quantity, cost and realized profit of its row, that other rows are untouched, and exactly when a fill is refused. |
| Portfolios.ApplyFillTotals | rust/lossfunction/src/domain/portfolio.rs:52-110 | Over the whole portfolio, cost minus realized profit moves by the signed notional. |
| Portfolios.RefusedExactly | rust/lossfunction/src/domain/portfolio.rs:85-99 | A fill of some shares is refused exactly when it sells more than is held, and the error names what was asked and what is held. |
| Portfolios.ComputeTotalRealizedPnl | rust/lossfunction/src/domain/portfolio.rs:52-54 | The total does not depend on the iteration order. |
| TradingRuntimes.TradingRuntime.ReceiveQuote | rust/lossfunction/src/runtime/mod.rs:97-107 | Quote table, open bars and window after a tick; orders and books unchanged; the snapshot is of the new state. |
| TradingRuntimes.TradingRuntime.SeedDailyClose | rust/lossfunction/src/runtime/mod.rs:109-115 | Only the window changes, by the seeded close. |
| TradingRuntimes.TradingRuntime.RunDecisionCycle | rust/lossfunction/src/runtime/mod.rs:131-162 | The whole state and the submitted orders of a decision pass: every intent, accepted or not, in order. |
| TradingRuntimes.TradingRuntime.PlaceIntent | rust/lossfunction/src/runtime/mod.rs:133-175 | One intent: a sequence number is used up even by malformed and risk-rejected intents. |
| TradingRuntimes.TradingRuntime.SyncExecution | rust/lossfunction/src/runtime/mod.rs:188-230 | One sync: state, open set, portfolio and the answered status on each of its branches; what the answer must be is `Answers.SyncAnswers`. |
| TradingRuntimes.TradingRuntime.PollOrder | rust/lossfunction/src/runtime/mod.rs:196-214 | A working order moves to the reported status, which is the answer; a failing report or an illegal move leaves it. |
| TradingRuntimes.TradingRuntime.DiscoverFill | rust/lossfunction/src/runtime/mod.rs:243-265 | A booking happens only for a Filled order with a positive, priced report; a refused fill leaves the portfolio. |
| TradingRuntimes.TradingRuntime.SyncEverything | rust/lossfunction/src/runtime/mod.rs:232-240 | Syncs every open id once, in some order; state and results are those of the single syncs in that order. |
| Answers.SyncAnswers | rust/lossfunction/src/runtime/mod.rs:188-230 | Against every broker: the answer of a sync is the order's status in the machine afterwards; there is none exactly for an unregistered order, a partly filled one reported as untouched, and a lookup that fails for an unknown one, and then nothing has changed. |
| Answers.SyncAllAnswers | rust/lossfunction/src/runtime/mod.rs:232-240 | Each result of a full sync is the order's status after all of it. |
| Answers.MockSyncAllAnswers | rust/lossfunction/src/runtime/mod.rs:232-240 | At the in-memory broker every open order is answered: Filled where it was filled, Submitted where it still works, Cancelled otherwise, whatever the order of the visits. |
| Answers.SyncSettles | rust/lossfunction/src/runtime/mod.rs:197-265 | Against every broker: an order whose answer is no longer working is closed, and if it is Filled and the broker's newest report names shares and a price, exactly that fill is booked; no other sync closes, books or moves the portfolio. |
| Answers.PartialFillCompletes | rust/lossfunction/src/runtime/mod.rs:188-265 | At any broker a partial fill is answered and stays open without a booking; when it completes, the whole quantity is booked once and the order closed. |
| Answers.CycleReturns | rust/lossfunction/src/runtime/mod.rs:131-162 | A decision cycle returns exactly the orders whose submission was acknowledged, in order, whatever the broker. |
| TradingRuntimes.TradingRuntime.RecoverPending | rust/lossfunction/src/runtime/mod.rs:268-290 | Reconcile, rebuild, reopen what still works; the results of a failed batch are dropped. |
| Answers.RecoverAnswers | rust/lossfunction/src/runtime/mod.rs:268-290 | Every recovered status is the one in the machine, and exactly the working ones are reopened under their broker ids. |
| TradingRuntimes.TradingRuntime.RebuildPortfolio | rust/lossfunction/src/runtime/mod.rs:293-314 | The portfolio is rebuilt from the broker's positions, or kept when the broker does not answer. |
| Agreement.BooksMoveAlike | rust/lossfunction/src/domain/portfolio.rs:60-110 | One fill, oversells included, moves a portfolio row exactly as it moves the broker's row, although one side keeps zero rows with stale averages and the other deletes them. |
| Agreement.SendKeepsMid | rust/lossfunction/src/runtime/mod.rs:131-162 | Between syncs the broker is ahead, on each symbol, by one known fill exactly or by known buys in shares and cost. |
| Agreement.SyncKeepsMid | rust/lossfunction/src/runtime/mod.rs:188-230 | A sync books the fill of its order, if there is one, and leaves the other unseen fills and their relation to the portfolio. |
| Agreement.FullSyncAgrees | rust/lossfunction/src/runtime/mod.rs:232-265 | After a full sync in any order both books agree on every symbol. |
| Discoveries.FullSyncDiscovers | rust/lossfunction/src/runtime/mod.rs:232-265 | After a full sync in any order, shares and exposure are what they were plus what the unseen fills add, even where the books do not agree. |
| Simulation.TickKeepsBoundary | rust/lossfunction/src/runtime/sim.rs:128-177 | One complete tick leads from tick boundary to tick boundary. |
| Simulation.TwoBookAgreement | rust/lossfunction/src/runtime/mod.rs:188-265 | At every tick boundary of every replay, venue-side cancels included and whatever order each sync takes, both books have the same quantity and average price on every symbol, as long as the orders of one cycle on one symbol are a single order, or buys alone. |
| OrderPairs.SwapExactly | rust/lossfunction/src/domain/portfolio.rs:60-110 | Exactly when two fills on one row may change places: two buys always, a buy and a sell or two sells under a condition on row, quantities and price. |
| OrderPairs.SwappedSyncExactly | rust/lossfunction/src/runtime/mod.rs:232-265 | Two waiting fills of one symbol: discovered as the broker booked them the books agree, discovered the other way round if and only if the two may change places. |
| OrderPairs.TwoOrdersExactly | rust/lossfunction/src/runtime/mod.rs:131-265 | The same for any two filled orders of one symbol sent from a tick boundary. |
| OrderRuns.TwoOrdersOneSymbolDisagree | rust/lossfunction/src/runtime/mod.rs:232-265 | A run from an empty broker, a lot at 50 and then a buy and a sell at 100 in one cycle: the books end agreeing or parted as the second sync goes. |
| SimLoops.SimLoop.TickOnce | rust/lossfunction/src/runtime/sim.rs:128-177 | Price, quote, decision, sync of one replayed bar, in that order; nothing after the last bar. |
| Recovery.RestartSettles | rust/lossfunction/src/runtime/mod.rs:268-314 | A fresh runtime on whatever book a crash left: books agree, nothing filled is open, and exactly the pending orders the broker still works on are reopened. |
| Recovery.RestartRecovery | rust/lossfunction/src/runtime/mod.rs:268-314 | If the broker has not seen the ids to come, recovery ends at a tick boundary. |
| Recovery.AgreementAfterRestart | rust/lossfunction/src/runtime/mod.rs:268-314 | From there the two books agree after every tick of every continuation. |
| Recovery.OldFillsStayBookedOnce | rust/lossfunction/src/runtime/mod.rs:243-314 | No order the broker knew before the restart is ever booked by the new runtime. |
| Recovery.ReusedIdBooksTwice | rust/lossfunction/src/runtime/mod.rs:164-175 | When the broker does know a new id, the books still agree after that order's sync if and only if the old order never filled, or was a sell the portfolio now refuses. |
| Recovery.ReusedIdAfterRestart | rust/lossfunction/src/runtime/mod.rs:164-175 | The same, right after any recovery: a restarted sequence books old fills a second time. |
| OrderRuns.RestartBooksTwice | rust/lossfunction/src/runtime/mod.rs:164-175 | A run from an empty broker: buy, crash, recover under the same prefix, buy. The books agree before the crash and after the recovery, and not after the first order. |
| Recovery.RecoverKeepsSteady | rust/lossfunction/src/runtime/mod.rs:268-314 | A recovery on a running desk, given its own open orders, or orders the machine does not hold as working, or both: the open orders and what is unseen stay, and the rebuilt portfolio is the broker's. |
| Recovery.RecoveryBooksUnseenTwice | rust/lossfunction/src/runtime/mod.rs:268-314 | After a recovery that is given a waiting order, as `open_local_orders` names it, or not, that order's sync leaves the books agreeing if and only if its fill is a sell that the broker's row does not cover. |
| Recovery.RecoveryThenSyncExactly | rust/lossfunction/src/runtime/mod.rs:232-314 | Such a recovery between a cycle and its sync, then a full sync in any order: the books agree if and only if every fill that was unseen is a sell the broker's row does not cover. |
| Recovery.RebuildAgrees | rust/lossfunction/src/runtime/mod.rs:293-314 | The rebuilt portfolio agrees with the broker on every symbol. |
| Recovery.RebuildAnswers | rust/lossfunction/src/runtime/mod.rs:293-314 | At any broker: if the positions cannot be listed the portfolio is kept, and otherwise its rows are exactly the listed ones; orders and bookings stay. |
| StrategyProperties.BuiltInsAreDisciplined | rust/lossfunction/src/strategies.rs:104-262 | On every snapshot the SMA, RSI, Donchian, MACD and momentum strategies give at most one market order per symbol, a buy of one lot when flat or a sell of min(held, lot) when held. |
| BuiltIns.DecideOnCross | rust/lossfunction/src/strategies.rs:104-124 | The intents of the three threshold strategies and MACD, computed symbol by symbol. |
| BuiltIns.DecideRotation | rust/lossfunction/src/strategies2.rs:158-212 | The intents of the rotation: entries of the top, exits of the rest. |
| BuiltIns.ComputeScores | rust/lossfunction/src/strategies2.rs:136-172 | The scored symbols, those with 253 closes or more, in configuration order. |
| StrategyProperties.RankSorts | rust/lossfunction/src/strategies2.rs:172-180 | The ranking is a permutation of the scores, sorted by score and then by ticker. |
| StrategyProperties.RotationPrefersTheBest | rust/lossfunction/src/strategies2.rs:172-200 | A symbol in the top has a higher score of its closes than every symbol outside it, or the same and a lower ticker. |
| Discipline.PositionDiscipline | rust/lossfunction/src/strategies.rs:104-124 | In the replay on an empty in-memory broker, after every tick every holding is zero or one lot in both books and no fill was refused. |
| BuiltInRuns.BuiltInReplay | rust/lossfunction/src/runtime/sim.rs:128-177 | The same for each of the five built-in strategies, together with two-book agreement (for the rotation on a window of 253 closes or more; below, it is silent). |
| BuiltInRuns.RotationIsSilent | rust/lossfunction/src/strategies2.rs:136-172 | Below 253 closes per symbol the rotation asks for nothing, not even to sell. |
| BuiltInRuns.SilentReplay | rust/lossfunction/src/runtime/sim.rs:77-84 | With a window below its lookback, as the replay loop has it for the rotation, a built-in strategy never sends an order in any replay. |
| BuiltInRuns.SilentBacktest | rust/lossfunction/src/backtest.rs:36-46 | With a history capacity below its lookback, as the default is for the rotation, a backtest of a built-in strategy has no fill. |
| BuiltInRuns.BuiltInBacktest | rust/lossfunction/src/backtest.rs:159-270 | The same in the engine, with the exact accounting identity. |
| StrategyProperties.BoundedWindowIsEnough | rust/lossfunction/src/history.rs:36-64 | With the capacity at the lookback (slow+1, period+1, 253), SMA, RSI, Donchian and momentum give the same intents as on the full history. |
| StrategyProperties.FedThroughWindow | rust/lossfunction/src/history.rs:36-50 | The same for any sequence of closes pushed into a bounded window, against everything that was ever pushed. |
| Thresholds.SilentExactly | rust/lossfunction/src/strategies2.rs:136-172 | For each of the five strategies: no snapshot with at most n closes per symbol makes it ask for anything if and only if n is below its lookback, or its parameters rule every order out. |
| Thresholds.WindowExactly | rust/lossfunction/src/history.rs:36-64 | For SMA, RSI, Donchian and momentum: on histories of n closes a window decides as the full history does if and only if it holds them all, they are too few to decide, it reaches back the lookback, or the parameters rule every order out. |
| MacdWindows.MacdWindowExactly | rust/lossfunction/src/strategies2.rs:241-282 | For all periods, capacities and lengths: the cross on the window equals the cross on the full series for every series of that length if and only if the window holds it all, it is too short to decide, or (with a window long enough) the parameters rule every cross out. |
| MacdWindows.MacdIntentsExactly | rust/lossfunction/src/strategies2.rs:293-330 | The same for the intents of the strategy on any snapshot. |
| MacdWindows.SignalBehind | rust/lossfunction/src/strategies2.rs:241-255 | The average of a rising line stays below it. |
| Histories.HistoryWindow.Push | rust/lossfunction/src/history.rs:36-43 | The window of one symbol becomes the newest `capacity` closes, other symbols keep theirs. |
| Aggregators.BarAggregator.Push | rust/lossfunction/src/marketdata/aggregator.rs:57-104 | The open bars and the emitted bar after one tick. |
| Aggregators.BarAggregator.Flush | rust/lossfunction/src/marketdata/aggregator.rs:108-122 | Every open bar is emitted once, in some order, and none stays. |
| TickGroups.GroupsAreMaximalRuns | rust/lossfunction/src/marketdata/aggregator.rs:57-104 | The grouping used below cuts a tick list into non-empty same-date runs whose neighbours differ in date, and loses nothing. |
| TickGroups.Extremes | rust/lossfunction/src/marketdata/aggregator.rs:57-104 | High and low of a group are attained and bound every price of it. |
| TickGroups.TickGrouping | rust/lossfunction/src/marketdata/aggregator.rs:57-122 | For any interleaving, the bars of one symbol followed by a flush are its ticks grouped into maximal same-date runs. |
| TickGroups.EmittedBars | rust/lossfunction/src/marketdata/aggregator.rs:57-122 | Field by field: each bar has the symbol, the first price of its run as open, the last as close, its attained bounds as high and low, and 15:30 in Seoul on the day of the run as timestamp. |
| TickGroups.BarsInOrderExactly | rust/lossfunction/src/marketdata/aggregator.rs:57-122 | The bars of a symbol, flushed one included, have strictly increasing timestamps if and only if its ticks never go back to an earlier date. |
| QuoteHistory.RuntimeHistory | rust/lossfunction/src/runtime/mod.rs:97-107 | The runtime history of a symbol is the newest `capacity` closes of its completed groups, never the open one. |
| QuoteHistory.LiveShows | rust/lossfunction/src/runtime/mod.rs:97-128 | The live snapshot after any ticks: the newest tick of each symbol, and the last `capacity` closes of its completed days, for exactly the symbols that have one. |
| QuoteHistory.ReplayShows | rust/lossfunction/src/runtime/sim.rs:128-177 | At every tick of every replay, the strategy is asked on that snapshot of the ticks so far, this one included, and its answer is what the cycle places. |
| Indicators.ComputeRsi | rust/lossfunction/src/strategies.rs:128-153 | The loop computes average gain and loss over the last `period` changes. |
| Indicators.RsiRange | rust/lossfunction/src/strategies.rs:128-153 | RSI lies between 0 and 100. |
| Indicators.ComputeEmaSeries | rust/lossfunction/src/strategies2.rs:241-255 | Entry i of the series is the average at bar i + period - 1. |
| Indicators.ComputeMacdCross | rust/lossfunction/src/strategies2.rs:257-282 | No index goes out of range, fast and slow average are paired at the same bar, the signal series has two values, and the second length check never fires. |
| Indicators.EmaWithin | rust/lossfunction/src/strategies2.rs:241-255 | Every average lies between any bounds of the closes consumed so far. |
| Indicators.MacdAligned | rust/lossfunction/src/strategies2.rs:257-272 | Each entry of the MACD line pairs both averages at the same bar, and the signal series has at least two values. |
| Signals.DonchianBreaksChannel | rust/lossfunction/src/strategies.rs:238-262 | A breakout up means the newest close is above each of the `period` closes before it, and down means below each. |
| Signals.RsiEnds | rust/lossfunction/src/strategies.rs:128-153 | RSI is 100 exactly when the window only rises or rests and rises once, and 0 exactly when it only falls or rests and falls once. |
| Signals.SmaCrossFollowsMove | rust/lossfunction/src/strategies.rs:80-93 | Out of a flat market the averages cross up exactly on a rise and down exactly on a fall. |
| Signals.MacdCrossFollowsMove | rust/lossfunction/src/strategies2.rs:257-282 | The same for MACD with a signal over two values or more. |
| Crossings.SmaCrossExactly | rust/lossfunction/src/strategies.rs:80-93 | For every series: the averages cross up if and only if the sum of the newest `fast` closes leads that of the newest `slow`, scaled by the periods, and did not one bar earlier; down likewise. |
| Crossings.SmaNeverTwice | rust/lossfunction/src/strategies.rs:80-93 | No two adjacent bars cross the same way. |
| Crossings.MacdCrossExactly | rust/lossfunction/src/strategies2.rs:257-282 | The line crosses its signal up if and only if it leads now and did not on the series without the last close; down likewise. |
| Crossings.RsiExactly | rust/lossfunction/src/strategies.rs:128-153 | RSI times all movement of the last `period` closes is a hundred times their rises; 50 if nothing moved. |
| Crossings.MomentumExactly | rust/lossfunction/src/strategies2.rs:136-148 | The score is the growth between the closes 253 and 22 back, and exists exactly with that many closes and a base that is not zero. |
| StrategyRules.CrossTells | rust/lossfunction/src/strategies.rs:80-262 | A strategy has a signal exactly when the series reaches its lookback and no period is empty, and the signal is what its rule says about the closes: averages, RSI thresholds, channel, or MACD. |
| StrategyRules.OrdersExactly | rust/lossfunction/src/strategies.rs:104-124 | The orders of a threshold strategy on the closes themselves: it buys a lot of exactly the flat symbols its rule buys, and sells the holding, up to a lot, of exactly those it sells. |
| StrategyRules.EmaLag | rust/lossfunction/src/strategies2.rs:241-255 | On a straight line the exponential average of a period lags the close by exactly (period - 1) / 2 steps, from its first value on. |
| Signals.CrossIntentsExactly | rust/lossfunction/src/strategies.rs:104-124 | An order is among the intents if and only if it buys a lot of a configured flat symbol on an up cross or sells min(held, lot) of a held one on a down cross. |
| Signals.CrossIntentsFollow | rust/lossfunction/src/strategies.rs:104-124 | The orders follow the configuration. |
| Signals.RotationExactly | rust/lossfunction/src/strategies2.rs:158-202 | An order is among the intents if and only if it buys a flat symbol of the top or sells a held scored symbol below it. |
| Signals.RotationFollows | rust/lossfunction/src/strategies2.rs:158-202 | The orders follow the ranking: buys of the top come before sells of the rest. |
| Risk.ComputeGrossExposure | rust/lossfunction/src/risk.rs:225-237 | The exposure does not depend on the iteration order. |
| Risk.UnquotedAtCost | rust/lossfunction/src/risk.rs:225-237 | Without quotes the exposure is the cost of the positions. |
| Risk.RiskManager.Check | rust/lossfunction/src/risk.rs:135-220 | The first failing check names the rejection; otherwise the notional. |
| Risk.FirstViolation | rust/lossfunction/src/risk.rs:135-220 | An order is rejected for a reason if and only if it violates that limit and none of the earlier ones; one that violates none passes with shares times price. |
| Risk.RiskManager.ActivateKillSwitch | rust/lossfunction/src/risk.rs:122-126 | The switch is on with its reason. |
| Risk.RiskManager.DeactivateKillSwitch | rust/lossfunction/src/risk.rs:128-131 | The switch is off and the reason is gone. |
| Risk.FillMovesExposure | rust/lossfunction/src/risk.rs:225-237 | A fill moves the exposure by its signed quantity at the live quote, whatever it paid. |
| EngineRuns.RiskBounds | rust/lossfunction/src/risk.rs:135-237 | In every reachable engine state positions are within the cap, every fill is within the order notional, and right after each buy the exposure at live quotes is within the limit. |
| EngineRuns.OnlyPassedIsTraded | rust/lossfunction/src/backtest.rs:193-248 | With a risk manager, at any broker: an intent that is malformed or violates a limit uses up its order number and does nothing else, any other is submitted. |
| EngineRuns.TradeTells | rust/lossfunction/src/backtest.rs:199-236 | At any broker: a call that panics ends the run, a report of some shares becomes one fill of the order at the reported average or else the close, and any other answer changes nothing. |
| EngineRuns.StoppedForGood | rust/lossfunction/src/risk.rs:141-220 | Once the realized loss is beyond the limit, or the kill switch stays on, no continuation books another fill: sells are refused too. |
| Safeguards.KillSwitchBlocksCycles | rust/lossfunction/src/runtime/mod.rs:131-162 | With the kill switch on, a decision cycle sends nothing and only uses up sequence numbers. |
| Safeguards.CycleSendsExactly | rust/lossfunction/src/runtime/mod.rs:131-175 | Whatever the broker answers on the way, a cycle sends the requests of exactly those intents that are well-shaped, pass the risk checks on the portfolio as it was before the cycle, and are new to the gateway, in order. |
| Safeguards.CycleSendsOnlyPassed | rust/lossfunction/src/runtime/mod.rs:131-162 | Every request that reaches the broker in a cycle is that of an intent whose own order, kill switch off, had a fresh quote and kept the notional, position, exposure and loss limits. |
| Safeguards.EveryRequestPassed | rust/lossfunction/src/runtime/mod.rs:131-290 | Over any run against every broker, recoveries and outside changes included: each request ever sent is that of an intent of some decision cycle whose order passed every check on the portfolio and the quotes of that moment. |
| LiveBounds.PositionCap | rust/lossfunction/src/risk.rs:178-192 | In the live loop with one order per symbol no position is above the cap at any tick boundary of any run. |
| LiveBounds.SharesAfterTick | rust/lossfunction/src/risk.rs:178-192 | With single orders or buys alone per symbol: the shares of a symbol after a tick are the shares before and the sum over the intents that are let through and fill, each judged by the portfolio, gateway and book before the cycle. |
| LiveBounds.ExposureAfterTick | rust/lossfunction/src/risk.rs:193-206 | The same for the exposure at the quotes of the tick, so the limit is passed exactly when that sum, computed before the cycle, goes above it. |
| OrderRuns.TwoBuysPassTheLimit | rust/lossfunction/src/risk.rs:193-206 | From an empty broker: two buys of 500 under a limit of 600, each within it, end at 1000. |
| Backtests.BacktestFeed.Advance | rust/lossfunction/src/backtest.rs:92-96 | Hands out the sorted bars one by one. |
| Backtests.BacktestFeed.BarAt | rust/lossfunction/src/backtest.rs:108-116 | Only consumed bars are addressable. |
| Backtests.BacktestEngine.RunBars | rust/lossfunction/src/backtest.rs:159-270 | The loop over feed, broker, risk manager and history returns exactly the result of the engine specification, for every broker and strategy and with the kill switch turned between orders; none when a broker call panics. |
| EngineViews.EngineShows | rust/lossfunction/src/backtest.rs:168-243 | At every bar of every run that gets there: the strategy is asked on the last `historyCapacity` closes of each symbol among the bars before it, the newest quotes up to and with it, the portfolio and its time, and exactly its intents are tried, each under one order number. |
| Backtests.BacktestEngine.TradeIntent | rust/lossfunction/src/backtest.rs:197-248 | One intent of any shape: preflight, submission, and booking of what was filled, recorded and cashed even when the portfolio refuses it. |
| Backtests.BacktestEngine.Passes | rust/lossfunction/src/backtest.rs:284-304 | The shape check and the risk checks when there is a risk manager; everything passes without one. |
| LookAhead.NoLookAhead | rust/lossfunction/src/backtest.rs:76-270 | Cutting the bars at any instant, whatever order they come in, cuts the equity curve and the fills there and changes nothing before; a run that completes on the full bars completes on the cut. |
| LookAhead.OnePointPerBar | rust/lossfunction/src/backtest.rs:249-266 | One equity point per bar of a run that does not crash. |
| Sorting.SortThenCut | rust/lossfunction/src/backtest.rs:83-86 | Sorting stably and cutting at an instant commute. |
| Sorting.SortFacts | rust/lossfunction/src/backtest.rs:83-86 | The sort is an ordered permutation. |
| EngineRuns.IntentExactly | rust/lossfunction/src/backtest.rs:193-248 | One intent of any quantity, from agreeing books: they stay together if and only if it does not stray, that is, does not fill unchecked with a negative quantity that moves the row or divide by zero; if it does, the run crashes or the books differ. |
| EngineRuns.EngineBooksExactly | rust/lossfunction/src/backtest.rs:159-270 | For any strategy, with or without risk manager, over any bars: the portfolio and the in-memory broker are together in every state of the run if and only if no intent strays. |
| EngineRuns.EngineBooksAgree | rust/lossfunction/src/backtest.rs:159-270 | With a risk manager, or a strategy that asks for positive quantities, they agree after any bars. |
| EngineCases.NegativeBuyParts | rust/lossfunction/src/backtest.rs:272-304 | A market buy of a negative quantity without risk manager leaves the broker short and the portfolio empty. |
| EngineCases.TwoEmptyBuysCrash | rust/lossfunction/src/domain/mod.rs:38-46 | Two buys of no shares divide by zero and end the run. |
| Accounting.Conservation | rust/lossfunction/src/backtest.rs:199-248 | For any recorded fills: cash + cost of positions = initial cash + realized profit - commissions - taxes + notional of the refused sells. |
| Accounting.ExtraMeansRefused | rust/lossfunction/src/backtest.rs:199-248 | With positive prices the extra term is zero if and only if no fill was refused. |
| EngineCases.SellFromFlatRaisesCash | rust/lossfunction/src/backtest.rs:197-248 | A sell from flat on an empty broker: the cash rises by the notional of a sell that broker and portfolio both ignore. |
| Accounting.RunKeepsLedger | rust/lossfunction/src/backtest.rs:159-270 | Cash and portfolio are the replay of the recorded fills after every bar. |
| Accounting.AccountingConservation | rust/lossfunction/src/backtest.rs:199-266 | The identity after every bar, and each equity point, there unless the run has crashed, adds exactly the unrealized profit at live quotes. |
| EngineRuns.EngineDiscipline | rust/lossfunction/src/backtest.rs:159-270 | With a disciplined strategy every holding is zero or one lot after every bar, and no fill was refused. |
| EngineRuns.LotsMidBar | rust/lossfunction/src/backtest.rs:193-248 | The same between any two intents of a bar. |
| EngineRuns.DisciplinedAccounting | rust/lossfunction/src/backtest.rs:199-266 | Then the accounting identity has no extra term. |
| Metrics.ComputeDrawdown | rust/lossfunction/src/backtest.rs:341-353 | The one-pass loop computes the running-peak drawdown. |
| Metrics.ConsumeLots | rust/lossfunction/src/backtest.rs:367-384 | One sell against the lot queue: what is left and what it earned. |
| Metrics.Summarize | rust/lossfunction/src/backtest.rs:330-408 | All summary figures, including trades and wins over the fills in time order; what they mean is `Summaries.SummaryTells`. |
| Summaries.SummaryTells | rust/lossfunction/src/backtest.rs:330-408 | For every run that completes: trades are its sells, wins those whose price beats what was paid for the oldest shares left, summed share by share, the win rate their share in percent; the return is measured from the initial cash to the last point; the drawdown is the largest fall of a non-negative curve; costs are the rates on the money that changed hands. |
| Drawdowns.DrawdownIsLargestFall | rust/lossfunction/src/backtest.rs:341-353 | The one-pass drawdown is the largest percentage fall over all pairs of the curve with the initial cash prepended, and lies in [0, 100], for positive initial cash and non-negative equities. |
| Drawdowns.DrawdownExactly | rust/lossfunction/src/backtest.rs:341-353 | On every curve, whatever its signs, the one-pass drawdown is the largest fall between two points if and only if no positive point is followed by a negative one, or the relatively deepest such overdraft comes before a second positive level. |
| Drawdowns.RiseThenOverdraft | rust/lossfunction/src/backtest.rs:341-353 | From 10 over 100 to -10 the two differ. |
| Drawdowns.OverdraftAlone | rust/lossfunction/src/backtest.rs:341-353 | From 10 to -10 they agree, although a point is negative. |
| Fifo.MatchCovered | rust/lossfunction/src/backtest.rs:367-384 | A covered sell takes out exactly its shares and earns the sale price minus the cost that left. |
| Fifo.FifoMeetsAverageCost | rust/lossfunction/src/backtest.rs:355-393 | Without oversells the lots left are the shares held, first-in-first-out profit is sells minus buys plus the cost of those lots, and on a flat symbol it is the realized profit of the portfolio. |
| Fifo.TripsAreSells | rust/lossfunction/src/backtest.rs:358-398 | One trade per sell, one win per profitable sell. |
| SoldShares.MatchTakesFirst | rust/lossfunction/src/backtest.rs:367-384 | With the lots laid out share by share, the loop sells the first shares, as many as there are, and earns the price over what was paid for each. |
| SoldShares.LotsLeft | rust/lossfunction/src/backtest.rs:355-388 | After any fills the lots left of a symbol are, share by share, its purchases in order without those already sold. |
| SoldShares.FirstInFirstOut | rust/lossfunction/src/backtest.rs:355-393 | For any fills, oversells included: every sell earns its price over what was paid for the oldest shares bought and not yet sold. |
| Fifo.WinRateIsPercentage | rust/lossfunction/src/backtest.rs:394-398 | The win rate lies between 0 and 100. |
| Fifo.SummaryKeepsEngineOrder | rust/lossfunction/src/backtest.rs:358-359 | Sorting the fills of an engine run by time changes nothing. |
| Charts.TileRange | rust/lossfunction/src/kis/chart.rs:135-141 | The windows that tile the range. |
| Charts.FetchDailyBars | rust/lossfunction/src/kis/chart.rs:121-158 | The work-stack loop terminates and returns the result of the splitter specification, or the first page error. |
| ChartProperties.PageFacts | rust/lossfunction/src/kis/chart.rs:51-83 | A fetched page is increasing and shows the newest days of its window. |
| ChartProperties.ChartComplete | rust/lossfunction/src/kis/chart.rs:121-158 | Against a venue that truncates to its newest rows, the result is strictly increasing and holds exactly the bars with close in range, whenever window days <= page limit * 2^depth. |
| ChartProperties.KisChartComplete | rust/lossfunction/src/kis/chart.rs:29-32 | The condition holds for the source's constants. |
| ChartProperties.TooFewSplitsLoseABar | rust/lossfunction/src/kis/chart.rs:121-158 | The condition is sharp: beyond it a full window loses a bar, against every such venue. |
| ChartFailures.PageErrorsComeThrough | rust/lossfunction/src/kis/chart.rs:121-158 | At any venue: a fetch fails only with the error of a page inside the range, and fails if one of the windows that tile it cannot be read. |
| Frames.ParseMarketData | rust/lossfunction/src/kis/ws.rs:103-150 | The chunk loop returns all quotes, or the error of the first bad frame or record. |
| Frames.FrameRoundTrip | rust/lossfunction/src/kis/ws.rs:103-150 | Joining well-formed records and parsing the frame gives exactly their quotes, in order. |
| Frames.FrameColumns | rust/lossfunction/src/kis/ws.rs:103-150 | Each quote has the six digits of column 0 as ticker, the price of column 2, and the instant of columns 33 and 1. |
| Frames.FirstBadRecord | rust/lossfunction/src/kis/ws.rs:119-150 | The first bad record fails the whole frame, with its first bad field: ticker, then price, then instant. |
| Frames.OtherTransactions | rust/lossfunction/src/kis/ws.rs:103-107 | A message of another transaction is refused, whatever it holds. |
| Frames.WrongWidthYieldsNothing | rust/lossfunction/src/kis/ws.rs:111-120 | A value count that is not a multiple of the width yields no quotes. |

## Left out

- Rounding: `Decimal` is modelled as `real`, so the 28-digit rounding of its division is not captured.
- SQLite storage, including the order, fill and position rows that the replay loop persists.
- HTTP, REST, tokens, the websocket transport, the web pages, process entry points and configuration.
- Row parsing of the chart page, and the symbol, price and date-time parsers of a tick record: parameters (`Rows`, `Decoders`).
- Async, mutexes and threads: every operation is one sequential step, and the broker may change between any two.
- Timestamps and reason strings of machine events and rejections, and the event callback (a log of emitted events instead).
- The decision log, features and rationale texts of a strategy.
- Backtests.BacktestEngine.RunBars: clock and kill switch are readings per order number; other threads do nothing else.
- Bollinger bands (a floating-point square root) and the entry-price strategy.
- Panics: a broker call that panics ends a backtest run, and its broker is not used again. The division by zero in `Portfolio::apply_fill`, which only a broker that lists short rows can cause, leaves the portfolio as it was here.
- The panics of strategy constructors on bad parameters: the predicate `Configured` instead.
- `MachineError` of a submission: the proof shows that the gateway never produces it.
- Recovery.RestartRecovery: the in-memory broker fills whole orders, so a partly filled order that is reopened after a restart is not covered; the lifecycle claims do allow partial fills.
- A symbol is a number here: six digits, and no textual form.
- Hash-map iteration order: a ghost result that names some enumeration; nothing is said about which.
- The library sort: an insertion sort function that is proved stable and sorting, not the library's algorithm.
- `Order::amend`, `Order::cancel`, money scaling, the registry, VWAP slicing, walk-forward ranking and the demo random generator: finite case analysis or easy members.
- The analysis and code-generation parts, and the archived Python version of the core.
