# Verified models of the trading core

Dafny models of the stateful parts of a funding-rate arbitrage system: the strategy engine with its order
tracker and chunked unwind, the order manager actor, the account, price and position actors, the incremental
Bybit order book, the instrument registry and the paper-trading ledger. Each part is a class whose methods
follow the source step by step and are proved against a specification on values; the theorems are about runs of
these specifications, that is about every sequence of events, commands, replies, cache losses and timer ticks.

| file | content |
|---|---|
| `types.dfy`, `instrument.dfy` | shared values; tick and lot rounding |
| `arbitrage_types.dfy`, `perp_pair.dfy`, `decider.dfy`, `execution.dfy`, `engine.dfy` | the strategy: tracker, schedule, pair, decisions, orders, event loop |
| `unwind.dfy`, `lifecycle.dfy`, `lifecycle_limits.dfy`, `closing.dfy`, `graceful_exit.dfy`, `opening.dfy`, `hedging.dfy`, `decisions.dfy`, `reports.dfy` | theorems about unwinding, the lifecycle and its limits, closing orders, a whole graceful exit, opening orders, what filled orders do to the hedge, what is decided and sent on each input, what a pair knows over a run |
| `orders.dfy`, `order_runs.dfy`, `order_fills.dfy`, `cancel_path.dfy` | order manager, its interleavings, what it knows and says of an order, and cancel requests from the strategy |
| `single_flight.dfy`, `account.dfy`, `account_cache.dfy`, `price.dfy`, `price_cache.dfy` | the coalescing protocol, the two actors that refine it, and their caches over a run |
| `collateral.dfy`, `position.dfy` | collateral sums, the merged position store |
| `local_book.dfy`, `registry.dfy`, `paper_exchange.dfy`, `paper_orders.dfy` | order book, registry, paper ledger, the order manager on the paper exchange |

`dafny verify dfyconfig.toml` checks everything.

## Modelling decisions

- `Decimal` is `real`, so arithmetic is exact; the two rounding operations that matter, floor to the lot and
  half-even to the tick, are written out. Sizes and prices may be any reals unless a contract says otherwise.
- An actor handles one message at a time, so a message is one atomic step. What the outside answers during a step
  (router and exchange replies, quotes, margin verdicts, fetched snapshots, fresh identifiers) is an input of the
  step, arbitrary unless a contract says otherwise. A clock appears only as the result of its comparison: `stale`
  for a cached snapshot, `aged` for orders past their timeout, `timestampValid` for a book message.
- Identifiers are strings. Order runs assume that internal ids are fresh, client ids unshared and cancel
  confirmations echoing the client id (`OrderRuns.Admissible`); what happens without that is stated
  exactly by `SubmitKeepsInverse` and `CancelKeepsInverse`.
- A pair knows its positions only from position reports (strategies/src/arbitrage/perp_perp/types.rs:218-242), while
  an order event already dispatches the next chunk (engine.rs:227-242). Leg sizes in the engine are therefore the
  reported ones. `UnwindArithmetic` keeps reported and actual positions apart.
- The decider and the unwind work with exact quotients and the order manager floors each size to the lot
  (core/src/manager/order.rs:309). `Hedging` and `UnwindArithmetic` state what a filled order does with the floored
  size; for whole lots the exact laws follow.
- Nothing is assumed of the reduce-only flag: what is said of fills holds whether or not an exchange looks at it, and
  the paper exchange of the repository does not. Only `UnwindArithmetic.LaggingReportsCloseNoLater` takes fills to
  stop at the position.
- Tick and lot sizes are positive. Prices the decider divides by are guarded by the code itself.
- Hash maps are Dafny maps and their iteration order is left open: loops over them pick an arbitrary element, and
  what is proved holds for every order.

## What does not hold

Where an expected property fails, the code was kept and the exact condition proved.

- A dispatch whose long order is accepted and whose short order is refused leaves the long order live and
  untracked (`Lifecycle.AcceptedOrdersTracked`).
- A refused chunk stalls an unwind: the tracker is left empty (`LifecycleLimits.RefusedChunkStalls`), and from then on
  the pair acts only on an order event, which is then about an order it does not track, or on `ForceExit`
  (`StalledUnwindActsIff`, over runs `StalledRunStays`). A pair whose last report of a flat position arrives after
  its last order event stays in `Unwinding`: only an order event closes a flat unwind (`FlatUnwindClosesIff`), and over
  runs nothing but an order event, or a `ForceExit` after a report of a position, ends one (`UnwindingRunStays`).
- A poll closes a flat exiting pair with orders still in flight (`LifecycleLimits.ClosedWithOrdersInFlightIff`). Apart
  from that and from `ForceExit`, no second closing order is sent before the first has ended
  (`Closings.ClosingOrdersAreNotRepeated`).
- An unwind order sized on an old report can exceed the actual position, and a fill in full then turns it over
  (`UnwindArithmetic.DispatchExceedsIff`, `FullFillStaysIff`, `StaleReportsOvershootIff`). The orders carry the
  reduce-only flag, but the paper exchange ignores it (`PaperExchange.ReduceOnlyIgnored`): a filled order keeps the
  position within what it was exactly if its size does not exceed a position on the other side
  (`FilledOrderReducesIff`), and a reduce-only sale from flat opens a short (`ReduceOnlyOpensShort`). With up-to-date
  reports the orders fit and no flag is needed (`UnwindArithmetic.PartialUnwindNeverGrows`).
- A rebalance is not neutral once its sizes are floored to the lot: it leaves up to a lot of each leg
  (`Hedging.RebalanceLeavesRemainders`). Corrections below one lot each change nothing and are decided again at every
  evaluation (`RebalanceChangesNothingIff`, `RebalanceForever`). An entry can be off by as much, and is then
  rebalanced at once (`EntryLeavesRemainders`, `EntryRebalancedAtOnce`).
- A filled order of the paper exchange is never reported as such: its REST confirmation is booked as `New`, there is
  no websocket, and reconciliation reads the open orders only (`PaperOrders.FilledOrderIsNeverReported`,
  `ReconcileRemovesNothing`). The order manager takes every order it tracks there for open (`AllTakenForOpen`).
- The strategy cancels by client id and the order manager looks internal ids up. On the paper exchange such a request
  is never found, and on the others only for ids within 36 characters; a rebalance marks the order cancelled all the
  same (`CancelPath.CancelFindsOrderIff`, `CancelReplacedButLive`).
- A cancel confirmation that arrives after the order is gone is broadcast as a second terminal event
  (`OrderRuns.TerminalBroadcastsConserved`, `LateCancelIsBroadcastTwice`); a cancel reply that is not final removes the
  order without a terminal event.
- A REST confirmation and a websocket event that name different exchange ids do not commute
  (`OrderRuns.RestAndWsCommute`). Nor do a failed REST result and the first websocket event of an order that is live
  (`OrderRuns.RejectionAndWsCommute`). A websocket event that reports an order as pending does not keep that status: a
  later confirmation makes the order new (`OrderFills.TrackedAsReported`).
- A position patch and a REST synchronization do not always commute, even for keys that REST reports
  (`PositionManager.PatchAndSyncCommute`).
- A configuration whose exit level exceeds its entry threshold can enter and exit at once
  (`Hedging.NeverExitsAtOnceIff`, `NoChurnIffThresholdsOrdered`). The recovery of a leg restores it only if the present
  leg is worth a lot of it (`Hedging.MissingLegRestored`), and asks for a size of zero when the present leg has no
  price (`WholeLotLegRestored`).
- Re-inserting an instrument under a new exchange symbol, or two keys under one symbol, breaks the symbol lookup
  (`RegistryRuns.InsertKeepsSymbolsExact`).
- The paper ledger takes `MIRAUSDT` to be quoted in MIRA (core/src/types.rs:141-153): it can be sold for nothing
  and never bought (`PaperRuns.FillPaidIff`, `CashIsConservedIff`, `MiraHasNoBalance`). A fill that turns a position
  over gets a wrong entry price (`PaperExchange.TurnedOverEntryPrice`). Funds are checked for purchases only, so a
  sale of negative worth can overdraw the account (`PaperRuns.AlwaysSolventIff`, `NegativeSaleOverdraws`).
- Sizes are not checked for their sign (src/cli/manual.rs parses any decimal), and the maximal notional bounds the
  worth of an order from above only: a sale of minus a million units passes every limit
  (`OrderManager.NegativeSizeAdmitted`). `AdmittedNotionalBoundedIff` is the exact condition and
  `OrdinaryNotionalBounded` the ordinary case.
- strategies/README.md:310 says that a pause stops exits. In the code order events and commands are still handled
  while paused: the exits, unwinds and recoveries under way continue, and `GracefulExit` and `ForceExit` start new
  closings. `LifecycleLimits.PausedActsIff` gives the exact condition and `PausedRunActsIff` lifts it to runs;
  `PausedOrderEventCloses`, `PausedOrderEventRecovers` and `PausedCommandUnwinds` are the inputs. Entries and
  rebalances do stop (`Lifecycle.PausedRunOpensNothing`).
- The minimal notional is checked with a price of zero for an order without a price (core/src/manager/order.rs:316),
  and a notional of zero passes. So it never applies to market orders, nor to requests below one lot, which are
  admitted as orders of size zero (`OrderManager.MinimumIgnored`, `BelowMinimumAdmitted` and
  `Instruments.SizeZeroIffBelowOneLot`; the exact condition is `OrderManager.AdmittedMeetsMinimumIff`).
- A forced price refresh is also answered by a websocket update that arrives before the REST reply
  (`PriceManager.FirstSourceAnswers`).

## Model

| member | source | states |
|---|---|---|
| Lifecycle.LifecycleHoldsOnEveryRun | strategies/src/arbitrage/engine.rs:152-404 | over every run of events, commands and timers from a fresh engine each status change is one of the lifecycle diagram, with the leg condition of the status entered, and an unwinding pair always has its schedule with a chunk dispatched |
| Lifecycle.StepChange | strategies/src/arbitrage/engine.rs:215-404 | one handled event, command or timer, from any state and with any replies, respects the diagram: Inactive only from Exiting or Unwinding and flat, Active only with both legs present, Entering only unpaused from Inactive, and so on |
| Lifecycle.StepConsistent | strategies/src/arbitrage/engine.rs:306-404 | tracker keys and the unwind schedule stay consistent in every step |
| Lifecycle.EvaluatedChange | strategies/src/arbitrage/engine.rs:406-567 | an evaluation respects the diagram in each of its branches: pause, account gate, recovery and exit retries, margin gate, depth gate |
| Lifecycle.OpenPairIsClosedFlat | strategies/src/arbitrage/engine.rs:335-364 | between any state that is not Inactive and a later Inactive one lies a step out of Exiting or Unwinding with both legs at zero |
| Lifecycle.ActivePairWasFullyEntered | strategies/src/arbitrage/engine.rs:317-358 | between any state that is not Active and a later Active one lies a step that became Active with both legs present |
| Lifecycle.PausedRunOpensNothing | strategies/src/arbitrage/engine.rs:185-194 | from a pause (by the operator or by an emergency exit) until Resume, no step of any run enters Entering, executes an entry or executes a rebalance, and the pause lasts |
| Lifecycle.PausedStep | strategies/src/arbitrage/engine.rs:406-410 | the same for one step from any paused state |
| Lifecycle.WhoPauses | strategies/src/arbitrage/engine.rs:491-531 | an engine that was not paused becomes paused only by the Pause command or by an emergency exit of an active or entering pair whose margin check failed |
| Lifecycle.EmergencyPauses | strategies/src/arbitrage/engine.rs:494-530 | the emergency exit asks to cancel everything pending, pauses, and reaches Exiting exactly if neither closing order was refused |
| Closings.ExitClosesBothLegs | strategies/src/arbitrage/perp_perp/execution.rs:285-297 | every step that executes an exit, in whatever state and on whatever input, sends one reduce-only market order per leg that is not flat, against its whole reported position, the long one first and the second only if the first was not refused; with both accepted the pair is exiting with them in flight |
| Closings.UnwindClosesItsPart | strategies/src/arbitrage/engine.rs:156-174 | every step that executes an unwind sends such orders for an equal part of either position: one of the chunks the schedule has left, a quarter on the command, all of it when the schedule is exhausted |
| Closings.ExitLeavesRemainders | strategies/src/arbitrage/perp_perp/execution.rs:285-297 | filled in full, the orders that an exit sent leave of either leg what its position has beyond whole lots, so the pair is flat exactly if both are whole lots |
| Closings.ClosingNeverIncreases | strategies/src/arbitrage/perp_perp/execution.rs:275-345 | whatever the inputs, every order of an exit or unwind is a reduce-only market order against the position of its leg and not larger than it |
| Closings.ExitIsRetriedIff | strategies/src/arbitrage/engine.rs:444-458 | an evaluation of an exiting pair sends the exit again if and only if it is neither paused nor stopped by the account gate, a position is left and every order on record has ended; it makes the pair inactive if and only if it is not gated and the pair is flat |
| Closings.RecoveryIsRetriedIff | strategies/src/arbitrage/engine.rs:424-443 | an evaluation of a recovering pair recovers if and only if it is not gated, every order has ended and exactly one leg is missing whose maker price is known; it makes the pair active if and only if it is not gated and both legs are present |
| Closings.ClosingOrdersAreNotRepeated | strategies/src/arbitrage/engine.rs:306-458 | over every run, from the dispatch of an exit or unwind order on and as long as any one of its orders has not ended, no step sends another order except under ForceExit or after a poll has found the pair flat and closed it |
| Lifecycle.UnwindContinues | strategies/src/arbitrage/engine.rs:360-395 | with nothing in flight and a reported position left, an order event makes an unwinding pair send another closing order, sized on the reported positions |
| LifecycleLimits.StalledUnwindActsIff | strategies/src/arbitrage/engine.rs:152-201 | an unwinding pair with a position and no order on record acts on an input if and only if it is an order event or ForceExit |
| LifecycleLimits.FlatUnwindClosesIff | strategies/src/arbitrage/engine.rs:306-364 | a flat unwinding pair leaves Unwinding in a step if and only if the input is an order event that leaves nothing in flight |
| LifecycleLimits.UnwindingRunStays | strategies/src/arbitrage/engine.rs:306-364 | over any stretch of a run an unwinding pair stays so as long as there is no order event and no ForceExit of a pair that is not flat |
| LifecycleLimits.RefusedChunkStalls | strategies/src/arbitrage/perp_perp/execution.rs:70-101 | when a leg of the next chunk is refused the pair is left unwinding with an empty tracker and its reported positions |
| LifecycleLimits.StalledRunStays | strategies/src/arbitrage/engine.rs:459-463 | over any stretch of a run without order events and ForceExit such a pair stays so and sends nothing |
| LifecycleLimits.ClosedWithOrdersInFlightIff | strategies/src/arbitrage/engine.rs:444-458 | a step into Inactive leaves orders in flight if and only if there were some and it was not an order event |
| LifecycleLimits.PausedActsIff | strategies/src/arbitrage/engine.rs:215-252 | while paused the engine acts if and only if an order event leaves nothing in flight and the pair is closing and not flat, or entering or recovering with sizes to recover, or GracefulExit meets an active pair, or ForceExit one that is not flat; it then exits, unwinds or recovers |
| LifecycleLimits.PausedRunActsIff | strategies/src/arbitrage/engine.rs:185-194 | the same at every step of a run between a pause and the next Resume |
| LifecycleLimits.PausedOrderEventCloses | strategies/src/arbitrage/engine.rs:236-241 | paused engines that exit and unwind on an order event |
| LifecycleLimits.PausedOrderEventRecovers | strategies/src/arbitrage/engine.rs:236-241 | a paused engine that recovers on an order event |
| LifecycleLimits.PausedCommandUnwinds | strategies/src/arbitrage/engine.rs:156-174 | a paused engine that starts to unwind by command |
| Lifecycle.AcceptedOrdersTracked | strategies/src/arbitrage/perp_perp/execution.rs:70-101 | with fresh client ids a dispatch tracks every accepted order if and only if it is not the case that the long order was accepted and the short one refused; a failed dispatch leaves the pair as it was |
| Execution.RunExecute | strategies/src/arbitrage/perp_perp/execution.rs:214-345 | sends, tracks and changes status as the specification of each action says, for every combination of replies |
| Execution.RunDispatchLegs | strategies/src/arbitrage/perp_perp/execution.rs:68-101 | long leg first; a refusal stops the dispatch before anything is tracked or the status set |
| Execution.DispatchRecords | strategies/src/arbitrage/perp_perp/execution.rs:68-101 | a dispatch succeeds exactly if nothing it sent was refused; its orders are then on record under their client ids with their signed sizes and acknowledged prices, and no other order is touched |
| Execution.CancelPendingOrders | strategies/src/arbitrage/perp_perp/execution.rs:43-66 | after the loop everything that was pending is force-cancelled, in whatever order it was visited, and nothing else changed |
| Execution.PlacePerpOrder | strategies/src/arbitrage/perp_perp/execution.rs:103-165 | no order for a zero size; otherwise side by sign, post-only limit with a price and market without |
| Execution.TrackIfSome | strategies/src/arbitrage/types.rs:414-436 | an acknowledged order is tracked under its client id with the signed requested size and the acknowledged price |
| OpeningOrders.OpeningOrdersJoin | strategies/src/arbitrage/perp_perp/execution.rs:230-345 | entries, recoveries and rebalances send first the order of the long leg and then that of the short leg, each only if it has something to do and the second only if the first was not refused; each is post-only, of the decided size and side and priced at the quote of its own side, so it cannot cross a book whose bid is below its ask |
| OpeningOrders.EntriesAreHedged | strategies/src/arbitrage/perp_perp/decider.rs:58-155 | at positive prices the decider and the recovery buy the long leg and sell the short leg |
| Decisions.InactiveDecision | strategies/src/arbitrage/perp_perp/decider.rs:58-154 | an inactive pair is entered if and only if it is flat with both prices known and the two funding rates at least the threshold apart in the carry direction, for the target notional on either side, or one leg is missing and can be priced, for the worth of the other |
| Decisions.ActiveDecision | strategies/src/arbitrage/perp_perp/decider.rs:155-206 | an active pair is exited if and only if the rates are less apart than the exit threshold, or than zero without one; otherwise it is rebalanced, by half the delta on either leg, if and only if the delta exceeds the drift limit and both prices are known |
| Decisions.TransitionalDecision | strategies/src/arbitrage/perp_perp/decider.rs:52-56 | while orders are under way nothing is decided |
| Decisions.EvaluationExecutes | strategies/src/arbitrage/engine.rs:406-567 | which action an evaluation executes, from gate, margins, quotes and book depth; an exit is never held back by the book |
| Decisions.EntryIsSent | strategies/src/arbitrage/engine.rs:406-567 | end to end: an evaluation of a flat inactive pair that is neither gated nor at risk sends a post-only buy of the long leg at its bid and a post-only sale of the short leg at its ask, each for the target notional, if and only if the rates are at least the threshold apart and neither book is known to be too thin; it is then entering if and only if both are accepted |
| Decisions.RebalanceIsSent | strategies/src/arbitrage/perp_perp/execution.rs:246-284 | an evaluation that decides to rebalance asks to cancel exactly what is in flight, marks it cancelled and sends maker orders for the corrections |
| Decisions.CommandActsIff | strategies/src/arbitrage/engine.rs:152-201 | ForceExit exits if and only if a position is left, GracefulExit unwinds if and only if the pair is active, and apart from Resume no other command sends anything |
| Decisions.PausedAfterIff | strategies/src/arbitrage/engine.rs:185-194 | the engine is paused after a step if and only if the step was the command to pause, it was paused and not resumed, or an evaluation met a pair at risk that is active or being entered |
| Decisions.AgedOrdersAreCancelled | strategies/src/arbitrage/engine.rs:274-304 | the timer asks to cancel exactly the aged orders that have not ended, and spares entries and recoveries |
| Decisions.OrderEventSettles | strategies/src/arbitrage/engine.rs:306-404 | an order event moves a pair in transition on if and only if it leaves every order ended: to active with both legs, to inactive with none, otherwise to a recovery or another closing order |
| Decisions.ReportsSendNothing | strategies/src/arbitrage/engine.rs:203-252 | market data, position reports and foreign funding rates send nothing |
| Decisions.PositionActivatesIff | strategies/src/arbitrage/perp_perp/types.rs:131-187 | a position report makes the pair active if and only if it is about one of its legs, the pair was inactive or being entered and both legs are then present |
| Decisions.PriceAfterStep | strategies/src/arbitrage/engine.rs:467-488 | a leg takes the mid, the quotes and the depths of the moment in every evaluation that looks at them, and otherwise only a mark price in place of an unknown one |
| Reports.PairShowsLastReports | strategies/src/arbitrage/perp_perp/types.rs:111-163 | in every state of every run of a fresh engine each leg shows size and entry price of the last position report and the last funding rate for its instrument, and nothing else changes them |
| Reports.RecordShowsLastFill | strategies/src/arbitrage/engine.rs:256-272 | over every run, as long as an order is on record it is there with the instrument, signed size and price it was dispatched with and the fill of the last event that named it |
| Hedging.EntryEarnsTheThreshold | strategies/src/arbitrage/perp_perp/types.rs:102-107 | a filled entry from flat earns, by the carry convention, the funding spread on the target notional less what the flooring costs, at most the funding of a lot of either leg and nothing for whole lots; it earns what the threshold asks for exactly if the spread exceeds the threshold by as much |
| Hedging.RebalanceLeavesRemainders | strategies/src/arbitrage/perp_perp/decider.rs:168-206 | a rebalance filled in its floored sizes leaves less delta than a lot of each leg is worth, none exactly if both corrections are whole lots, and the decider then rests at the same prices and spread exactly if what the flooring left is within the drift limit |
| Hedging.RebalanceChangesNothingIff | strategies/src/arbitrage/perp_perp/decider.rs:168-206 | a filled rebalance leaves the pair as it was, to be decided again, exactly if half the delta is worth less than a lot of either leg |
| Hedging.WholeLotsMeans | core/src/types.rs:276-279 | nothing is floored off two orders exactly if both sizes are multiples of the lot |
| Hedging.RebalanceForever | core/src/manager/order.rs:300-326 | such a pair: corrections of half a lot, both floored to nothing |
| Hedging.RebalanceNeutralizes | strategies/src/arbitrage/perp_perp/decider.rs:168-206 | for whole-lot corrections total delta is exactly zero at any prices |
| Hedging.EntryLeavesRemainders | strategies/src/arbitrage/perp_perp/decider.rs:118-155 | an entry from flat, filled in its floored sizes, holds the target notional on either side short of less than a lot; both legs are present exactly if the target buys a lot of each; the decider then rests exactly if moreover the spread is not below the exit level and the remainder is within the drift limit, and exits at once exactly if the spread is below that level |
| Hedging.EntryRebalancedAtOnce | core/src/manager/order.rs:300-326 | an entry that the flooring leaves two short of neutral and that is rebalanced at once |
| Hedging.EntryIsDollarNeutral | strategies/src/arbitrage/perp_perp/decider.rs:118-155 | for whole lots the entry holds plus and minus the target notional exactly, at any prices and for any target |
| Hedging.NeverExitsAtOnceIff | strategies/src/arbitrage/perp_perp/decider.rs:118-175 | no entry of a configuration, at any prices, is followed by an exit at once if and only if its exit level does not exceed its entry threshold |
| Hedging.NoChurnIffThresholdsOrdered | strategies/src/arbitrage/perp_perp/decider.rs:118-206 | at given prices every entry leaves nothing to do if and only if the target buys a lot of either leg, the exit level does not exceed the entry threshold and the flooring stays within the drift limit |
| Hedging.MissingLegRestored | strategies/src/arbitrage/perp_perp/types.rs:298-333 | re-entering a missing leg in its floored size leaves both legs present if and only if the present one is worth a lot of it; if the present leg has its own direction the pair is hedged up to less than that lot, and exactly hedged if and only if moreover the order was for whole lots |
| Hedging.WholeLotLegRestored | strategies/src/arbitrage/perp_perp/types.rs:298-333 | for whole lots, at any prices: both legs present if and only if the present leg had a price, zero delta if and only if it has its own direction (or no price) |
| Hedging.DeciderRepairsOrphan | strategies/src/arbitrage/perp_perp/decider.rs:58-117 | the orphan repair of the decider, once filled, activates the pair exactly if the present leg is worth a lot of the missing one, leaves less delta than that lot, and none exactly for whole lots |
| Hedging.RecoveryRepairsOrphan | strategies/src/arbitrage/perp_perp/types.rs:298-333 | the same for the recovery of the engine, at maker prices |
| UnwindArithmetic.UnwindClosesExactly | strategies/src/arbitrage/types.rs:294-317 | m lots in n floored and fully filled chunks: nothing left after n and something left before, every chunk floor(m/n) or ceil(m/n) lots, the smaller ones first |
| UnwindArithmetic.LotsLeftClosedForm | strategies/src/arbitrage/types.rs:294-317 | closed form of what is left after each chunk |
| UnwindArithmetic.FilledChunk | core/src/types.rs:276-279 | the real quotient of a whole-lot position, floored to the lot and filled, leaves a whole-lot position of the integer quotient fewer lots, for long and short legs |
| UnwindArithmetic.PartialUnwindNeverGrows | strategies/src/arbitrage/types.rs:477-498 | over any number of dispatches sized on up-to-date reports and filled in any part of their floored size, with no regard to any flag, a leg never changes sign and never grows |
| UnwindArithmetic.FittingUnwindNeverGrows | strategies/src/arbitrage/types.rs:477-498 | the same for arbitrary reports as long as each order fits |
| UnwindArithmetic.FullFillStaysIff | strategies/src/arbitrage/types.rs:294-306 | a dispatch sized on any report and filled in full, with no regard to any flag, leaves the position between zero and what it was if and only if its order is floored to nothing or the report has the side of the position and stays below the size at which the order exceeds it |
| UnwindArithmetic.DispatchExceedsIff | core/src/manager/order.rs:300-326 | the floored order of a dispatch exceeds the actual position if and only if the report, spread over the chunks left, reaches one lot more than the whole lots of the position |
| UnwindArithmetic.UpToDateOrderFits | strategies/src/arbitrage/types.rs:294-306 | with an up-to-date report an order always fits |
| UnwindArithmetic.LaggingReportsCloseNoLater | strategies/src/arbitrage/perp_perp/types.rs:218-242 | if reports miss any of the earlier fills and every order fills as far as the position goes, at every point no more is left than with up-to-date reports, and after n chunks it is exactly closed |
| UnwindArithmetic.StaleReportsOvershootIff | exchanges/src/mock.rs:182-318 | if no fill is reported and nothing stops the orders, n chunks close more than there is if and only if there are several chunks and at least two lots |
| UnwindArithmetic.DispatchTowardsZero | strategies/src/arbitrage/engine.rs:366-392 | every unwind order, chunk or full close, points towards zero and does not exceed the position |
| GracefulExits.GracefulExitCloses | strategies/src/arbitrage/engine.rs:156-174 | end to end: GracefulExit on an active whole-lot pair, with every order that it sends accepted and filled in full, order endings arriving in any order, is still unwinding before the fourth chunk is filled and flat, inactive and without schedule or further orders after it |
| GracefulExits.RoundAdvances | strategies/src/arbitrage/engine.rs:360-404 | when the orders sent last are filled, reported and ended, exactly the orders of the next chunk are sent, and after the last chunk the pair is closed and nothing more is sent |
| GracefulExits.DrainFires | strategies/src/arbitrage/engine.rs:256-309 | terminal events for the orders in flight, in any order, fire exactly one transition, on an emptied tracker |
| EngineLoop.ArbitrageEngine.HandleEvent | strategies/src/arbitrage/engine.rs:215-252 | state, executed action, submissions and cancel requests of every event and timer are those of the transition function |
| EngineLoop.ArbitrageEngine.HandleCommand | strategies/src/arbitrage/engine.rs:152-201 | the same for every command |
| EngineLoop.ArbitrageEngine.UpdateTracker | strategies/src/arbitrage/engine.rs:256-272 | fills are booked under the client id, or under the internal id when that is not tracked |
| EngineLoop.ArbitrageEngine.CheckTrackerTransitions | strategies/src/arbitrage/engine.rs:306-404 | new status, schedule, cleaned tracker and follow-up action |
| EngineLoop.ArbitrageEngine.EvaluateAndExecute | strategies/src/arbitrage/engine.rs:406-567 | gates, refresh and decision of one evaluation |
| EngineLoop.ArbitrageEngine.RetryRecovery | strategies/src/arbitrage/engine.rs:424-443 | poll-driven recovery |
| EngineLoop.ArbitrageEngine.RetryExit | strategies/src/arbitrage/engine.rs:444-458 | poll-driven exit |
| EngineLoop.ArbitrageEngine.GateAndDecide | strategies/src/arbitrage/engine.rs:491-566 | margin gate with emergency exit, decision, depth gate |
| PerpPair.PerpPerpPair.ApplyFunding | strategies/src/arbitrage/perp_perp/types.rs:111-129 | only the leg of the key changes; the mark price is taken only while no price is known |
| PerpPair.PerpPerpPair.ApplyPosition | strategies/src/arbitrage/perp_perp/types.rs:131-163 | only the leg of the key changes, and the status moves to Active if both legs are now present |
| PerpPair.PerpPerpPair.MaybeTransitionToActive | strategies/src/arbitrage/perp_perp/types.rs:175-187 | Active from Inactive or Entering with both legs present |
| ArbitrageTypes.FromOrderEvent | strategies/src/arbitrage/types.rs:241-250 | a tracked status is terminal exactly for terminal events |
| ArbitrageTypes.NextUnwindAction | strategies/src/arbitrage/types.rs:477-498 | a chunk is handed out and counted only while the schedule is incomplete |
| ArbitrageTypes.UnwindSchedule.constructor | strategies/src/arbitrage/types.rs:285-291 | at least one chunk |
| ArbitrageTypes.TrackedPending | strategies/src/arbitrage/types.rs:344-347 | a tracked order is in flight from then on unless it is terminal, also when it replaces one of the same id, and no other is affected |
| ArbitrageTypes.UpdatedPending | strategies/src/arbitrage/types.rs:360-373 | an update takes the named order out of flight or puts it back by its status, only if it is known, and touches no other |
| ArbitrageTypes.OrderTracker.UpdateFill | strategies/src/arbitrage/types.rs:360-373 | fill and status are overwritten if the order is known, else nothing changes |
| ArbitrageTypes.OrderTracker.HasPending | strategies/src/arbitrage/types.rs:384-386 | whether some order is not terminal |
| ArbitrageTypes.OrderTracker.AllPending | strategies/src/arbitrage/types.rs:453-458 | exactly the ids of the orders that are not terminal |
| ArbitrageTypes.OrderTracker.RemoveTerminal | strategies/src/arbitrage/types.rs:406-408 | exactly the terminal orders are dropped |
| ArbitrageTypes.OrderTracker.ForceCancel | strategies/src/arbitrage/types.rs:460-464 | only the named order becomes cancelled |
| ArbitrageTypes.RemoveTerminalKeepsPending | strategies/src/arbitrage/types.rs:406-408 | cleaning keeps exactly what is in flight |
| ArbitrageTypes.ForceCancelledNothingPending | strategies/src/arbitrage/perp_perp/execution.rs:46-66 | after cancel-replace nothing is pending |
| OrderRuns.MapsStayInverse | core/src/manager/order.rs:300-612 | in every interleaving of submits, REST results, cancels, websocket events and reconciliations the two maps are mutually inverse and no tracked order is final |
| OrderRuns.StepSound | core/src/manager/order.rs:300-612 | one message of any kind keeps that invariant |
| OrderRuns.SubmitKeepsInverse | core/src/manager/order.rs:350-383 | tracking a new order keeps the maps inverse if and only if its client id is not taken |
| OrderRuns.CancelKeepsInverse | core/src/manager/order.rs:467-488 | a cancel confirmation keeps them inverse if and only if it echoes the client id of the tracked order, or for an untracked one a client id that nothing uses |
| OrderRuns.StepAccounting | core/src/manager/order.rs:416-612 | a step broadcasts one terminal event for an order exactly when it stops tracking it, apart from late cancel confirmations, which are broadcast too, and cancel replies that are not final, whose broadcast is not terminal |
| OrderRuns.TerminalBroadcastsConserved | core/src/manager/order.rs:416-612 | over every run: terminal broadcasts of an order, plus one if it is still tracked, plus its cancel replies that are not final, equal one if it was submitted plus its late cancel confirmations |
| OrderRuns.LateCancelIsBroadcastTwice | core/src/manager/order.rs:473-482 | the failing case is real: a confirmation arriving after the fill is a second terminal broadcast |
| OrderRuns.NoResurrection | core/src/manager/order.rs:300-612 | an order that has left the active map never returns, in any run |
| OrderRuns.CompletedOrdersAreSilent | core/src/manager/order.rs:490-520 | later websocket events about it, by internal or client id, broadcast nothing and change nothing |
| OrderRuns.RestAndWsCommute | core/src/manager/order.rs:422-544 | a REST confirmation and a websocket event for the same order leave the same maps in both orders if and only if the event is final or they do not name two different exchange ids |
| OrderRuns.RejectionAndWsCommute | core/src/manager/order.rs:446-465 | a failed REST result and a websocket event leave the same maps in both orders if and only if the event is final or the order had already been reported on |
| OrderRuns.RestNeverDowngrades | core/src/manager/order.rs:422-465 | a REST result for an order the websocket already advanced changes no status, fill or presence and broadcasts nothing |
| OrderRuns.ReconcileRemovesExactly | core/src/manager/order.rs:546-612 | one pass removes an order if and only if it is missing from a fetched open list and its status query is final, announces each removal once, and leaves every other order unchanged |
| OrderFills.TrackedAsReported | core/src/manager/order.rs:350-612 | in every reachable state every tracked order carries its submitted request and strategy, the status, fill and average price of the last websocket event about it since its submission, and the first exchange id reported; without an event it has filled nothing and is pending or, once confirmed, new; a pending status in an event is turned into new by a later confirmation |
| OrderFills.WsBroadcast | core/src/manager/order.rs:490-544 | a websocket event is broadcast if and only if it is about a tracked order: once, with its own status, fill and average price, under the submitted ids and request |
| OrderFills.RestBroadcast | core/src/manager/order.rs:416-465 | a REST result is broadcast if and only if it is the first word on a tracked order: that order, now new or rejected; exactly a failed first word removes it |
| OrderFills.CancelBroadcast | core/src/manager/order.rs:467-488 | a cancel confirmation is broadcast as the exchange gave it, under the internal id |
| OrderFills.ReconcileBroadcast | core/src/manager/order.rs:585-608 | a reconciliation announces orders that it stops tracking, as the status query gave them |
| OrderManager.AdmittedIsSafe | core/src/manager/order.rs:191-326 | an admitted order has a whole-lot quantity within one lot below the request, a price within half a tick, is not worth more than the maximal notional and within the price band, meets the minimal notional if it has a price and a worth, and nothing but size and price differs from the request; rounding it again changes nothing |
| OrderManager.AdmittedIff | core/src/manager/order.rs:191-326 | an order is admitted if and only if instrument and mid are known, it is post-only only as a limit order, and its rounded size and price are within the minimal and maximal notional and the price band |
| OrderManager.RefusedBecause | core/src/manager/order.rs:300-326 | a refused order is of an unknown instrument, or too small although it has a price and a worth, or refused by the limits on its rounded size and price |
| OrderManager.RefusedByLimits | core/src/manager/order.rs:191-238 | a refusal by the limits names the first one that the order breaks |
| OrderManager.AdmittedNotionalBoundedIff | core/src/manager/order.rs:191-216 | an admitted order stays within the maximal notional in amount, not only from above, if and only if its rounded price and size together are not worth less than minus that |
| OrderManager.OrdinaryNotionalBounded | core/src/manager/order.rs:191-216 | which holds for a size and a price that are not negative |
| OrderManager.NegativeSizeAdmitted | core/src/manager/order.rs:191-326 | a market sale of minus a million units that passes a maximal notional of ten and a minimal one of five |
| OrderManager.AdmittedMeetsMinimumIff | core/src/manager/order.rs:316-324 | an admitted order meets the minimal notional if and only if neither its price nor its size rounds to zero or, without a price, its whole lots reach the minimum at the mid |
| OrderManager.MinimumIgnored | core/src/manager/order.rs:316-324 | requests without a price, and requests below one lot, get the same verdict for every minimal notional |
| OrderManager.BelowMinimumAdmitted | core/src/manager/order.rs:316-324 | a market order below the minimum and a limit order of half a lot that are admitted |
| Instruments.SizeZeroIffBelowOneLot | core/src/types.rs:276-279 | an order is sent with size zero if and only if the request is below one lot |
| CancelPath.CancelFindsOrderIff | core/src/manager/order.rs:385-392 | in every reachable state a cancel request that names an order by its client id finds it if and only if the codec leaves its internal id unchanged: never on the paper exchange, elsewhere for ids within the limit |
| CancelPath.CancelReplacedButLive | strategies/src/arbitrage/perp_perp/execution.rs:43-66 | a rebalance asks for the cancellation of such an order and marks it cancelled whether or not the request finds it |
| CancelPath.IssuedIdsAreEncoded | exchanges/src/binance/codec.rs:25-31 | in every reachable state the client ids are the encoded internal ids |
| OrderManager.OrderManagerActor.ProcessSubmitOrder | core/src/manager/order.rs:300-383 | an admitted order is tracked in both maps as pending; a refused one changes nothing and gives the reason |
| OrderManager.OrderManagerActor.HandleSubmitResult | core/src/manager/order.rs:416-465 | both outcomes, for tracked, advanced and already removed orders |
| OrderManager.OrderManagerActor.HandleCancelResult | core/src/manager/order.rs:467-488 | removal and broadcast on success, nothing on failure |
| OrderManager.OrderManagerActor.HandleWsEvent | core/src/manager/order.rs:490-544 | resolution by internal or client id, update, removal when final, broadcast |
| OrderManager.OrderManagerActor.ProcessReconcile | core/src/manager/order.rs:546-612 | the nested loops remove the gone orders and announce each once, whatever the visiting order |
| OrderManager.OrderManagerActor.CheckInstrument | core/src/manager/order.rs:555-610 | one instrument of the pass; without its open list nothing happens |
| OrderManager.OrderManagerActor.QueryMissing | core/src/manager/order.rs:565-608 | the inner loop, for one instrument |
| Instruments.RoundHalfEven | core/src/types.rs:271-274 | to the nearest integer, ties to the even one |
| Instruments.QuantityFloored | core/src/types.rs:276-279 | a whole-lot quantity not above the request and within one lot of it |
| Instruments.QuantityIsGreatest | core/src/types.rs:276-279 | the greatest such multiple |
| Instruments.PriceWithinHalfTick | core/src/types.rs:271-274 | a whole-tick price within half a tick |
| Instruments.NormalizingTwice | exchanges/src/binance/client.rs:623-632 | the rounding that the exchange client applies again changes nothing |
| Types.EventOf | core/src/types.rs:631-642 | the event of an order is terminal exactly if its status is final |
| SingleFlight.EnqueuedIsSound | core/src/manager/account.rs:264-283 | a request that waits starts a fetch unless one is marked, and keeps the protocol invariant: one fetch per marked key, waiters only for marked keys, every request queued or answered exactly once |
| SingleFlight.DeliveredIsSound | core/src/manager/account.rs:298-338 | a delivery serves the whole queue and may drop the mark, because nobody is left waiting |
| SingleFlight.ServedIsSound | core/src/manager/price.rs:253-285 | serving a queue from another source keeps the invariant while the fetch stays under way |
| SingleFlight.NothingUnderWay | core/src/manager/account.rs:261-349 | with no fetch under way nobody waits and every request has been answered as often as received |
| AccountManager.CommandsNeverLost | core/src/manager/account.rs:261-349 | the invariant of the coalescing protocol holds in every reachable state: an exchange has one fetch in flight exactly if it is marked, every exchange with queued commands is, and each received command is queued or has been answered exactly once |
| AccountManager.NobodyStranded | core/src/manager/account.rs:261-349 | with all fetches delivered every command has been answered as often as received and no queue is left |
| AccountManager.FetchServesTheQueue | core/src/manager/account.rs:298-338 | a fetch answers the whole queue in order from the new snapshot and emits one reconciliation event per queued reconcile or exactly one update; a failure answers all with its reason and emits nothing |
| AccountManager.NeverUncached | core/src/manager/account.rs:360-450 | no reachable answer is the missing-snapshot error, and a reconcile is only ever answered by a fetch |
| AccountManager.StepSound | core/src/manager/account.rs:261-349 | every message is a step of the coalescing protocol and keeps its invariant |
| AccountManager.AccountManagerActor.HandleCommand | core/src/manager/account.rs:261-296 | serve from cache, refresh in the background when stale, or queue and fetch |
| AccountManager.AccountManagerActor.HandleFetchResult | core/src/manager/account.rs:298-338 | queue drained by a loop, in order |
| AccountManager.AccountManagerActor.DispatchQueue | core/src/manager/account.rs:323-325 | every queued command answered from the cache, in order, with its events |
| AccountManager.AccountManagerActor.RejectQueue | core/src/manager/account.rs:332-335 | every queued command refused with the reason of the failure |
| AccountManager.AccountManagerActor.StartFetch | core/src/manager/account.rs:340-349 | at most one fetch per exchange |
| AccountCache.CacheIsLastFetched | core/src/manager/account.rs:298-338 | in every reachable state an exchange is cached if and only if a fetch for it has succeeded, with the snapshot of the last one that did |
| AccountCache.AnsweredAtOnceIff | core/src/manager/account.rs:261-296 | a command is answered in its own step if and only if it is no reconcile and its exchange is cached, from that snapshot however old; a fetch is started if and only if the command waits or the snapshot is stale, and none is under way |
| AccountCache.FetchAnswers | core/src/manager/account.rs:305-325 | a successful fetch answers each queued command, in order, from what it brought |
| AccountCache.RepliesAnswer | core/src/manager/account.rs:463-600 | balances are exactly those of the asked asset and partition, as often and in the order of the snapshot, empty ones only on request; collateral is the effective one of the asked partition; an error exactly for a partition that is not listed |
| Collateral.ImplementationsAgree | core/src/manager/account.rs:498-554 | the query and the snapshot method agree for every asset and partition, the result is totals plus profit minus borrowed, and there is none exactly for an unlisted partition |
| Collateral.PartitionsCountBalances | core/src/manager/types.rs:182-206 | summed over distinct partitions, a segmented account counts each balance of a listed partition exactly once; a unified one counts shared balances once per partition |
| Collateral.CollateralWithoutPartition | core/src/manager/account.rs:512-530 | seen from no partition a unified account counts all balances of the asset and a segmented one none |
| PriceManager.RequestsNeverLost | core/src/manager/price.rs:231-343 | whatever the cache drops and however websocket and REST race, an instrument with waiters has exactly one fetch in flight and each request waits or has been answered exactly once |
| PriceManager.StepRefines | core/src/manager/price.rs:231-343 | every message is a step of the same coalescing protocol, a websocket update serving the queue without ending the fetch |
| PriceManager.StepSound | core/src/manager/price.rs:231-343 | and so keeps its invariant |
| PriceManager.NobodyStranded | core/src/manager/price.rs:231-343 | no waiter remains once all fetches are delivered |
| PriceManager.FirstSourceAnswers | core/src/manager/price.rs:253-322 | a waiting request is answered by the first message of either source for its instrument, with exactly what that brought |
| PriceManager.KeepsWaiting | core/src/manager/price.rs:231-343 | until then it stays queued |
| PriceCache.CacheIsLastBook | core/src/manager/price.rs:253-322 | in every reachable state the cache holds the last book received from either source unless it has been dropped since |
| PriceCache.AnsweredAtOnceIff | core/src/manager/price.rs:231-251 | a request is answered in its own step, with that book, if and only if it is not forced and the book is there; otherwise it waits and a fetch is started if and only if none is under way |
| PriceCache.BooksArePassedOn | core/src/manager/price.rs:253-322 | every book received is passed on once |
| PriceManager.PriceManagerActor.HandleCommand | core/src/manager/price.rs:231-251 | cached answer, or queue and fetch unless one is in flight |
| PriceManager.PriceManagerActor.HandleWsUpdate | core/src/manager/price.rs:253-285 | the book is cached and its waiters served |
| PriceManager.PriceManagerActor.HandleRestResult | core/src/manager/price.rs:287-322 | the same for a fetched book; a failure is passed to the waiters |
| PriceManager.PriceManagerActor.StartRestFetch | core/src/manager/price.rs:324-343 | at most one fetch per instrument |
| PriceManager.PriceManagerActor.Serve | core/src/manager/price.rs:253-322 | every waiter once, in order |
| PositionManager.StoreIsMerge | core/src/manager/position.rs:230-339 | after any history the store is the merge of a websocket half and a REST half defined independently of each other, and holds no size zero |
| PositionManager.WsFieldsProvenance | core/src/manager/position.rs:230-339 | size, entry price and profit of a held position all come from one patch or bootstrap, and nothing since was a patch for it or a synchronization without it |
| PositionManager.RestFieldsProvenance | core/src/manager/position.rs:238-275 | leverage and liquidation price come from the last synchronization, or are defaults when a patch opened the position after it |
| PositionManager.FirstOpenIsOpen | core/src/manager/position.rs:238-275 | of several REST reports for one key a synchronization opens the position with the first that has a size |
| PositionManager.LastForIsLast | core/src/manager/position.rs:238-275 | and takes its REST fields from the last |
| PositionManager.PatchBroadcast | core/src/manager/position.rs:285-339 | after any history a patch is broadcast with its own size, entry price and profit, also when it closes the position, and with the REST fields held so far |
| PositionManager.PatchAndSyncCommute | core/src/manager/position.rs:238-339 | a non-zero patch and a synchronization commute if and only if REST reports the key and the key was held, or REST opens it too, or its REST fields are the defaults |
| PositionManager.MergedIsSyncOne | core/src/manager/position.rs:238-275 | the synchronization loop, seen from one key, is its closed form |
| PositionManager.PositionManagerActor.SyncPositions | core/src/manager/position.rs:238-275 | the loop yields the synchronized store, for repeated keys as well |
| PositionManager.PositionManagerActor.ApplyWsPatch | core/src/manager/position.rs:285-339 | the patched store and the broadcast, also for a close |
| BookRuns.BookHoldsLastLevels | exchanges/src/bybit/ws.rs:91-148 | after any history of interleaved snapshots and deltas each side holds, for every price, the quantity of the last readable level at that price since the last snapshot of its symbol; a zero delta deletes it |
| BookRuns.LastAtAppended | exchanges/src/bybit/ws.rs:126-148 | the effect of one message on the last level at a price |
| BookExtraction.ExtractedBids | exchanges/src/bybit/ws.rs:103-124 | extraction lists every stored bid once with its quantity, strictly descending, and the best bid is the greatest price of that side, or none for an empty side |
| BookExtraction.ExtractedAsks | exchanges/src/bybit/ws.rs:103-124 | the same for asks: strictly ascending, and the best ask is the least price |
| BookExtraction.MidLiesBetween | core/src/types.rs:374-400 | for a book whose bids all lie below its asks, mid lies strictly between any bid and any ask, and the spread is positive and at most their distance |
| BookExtraction.MidIsMidpoint | core/src/types.rs:374-400 | mid is the midpoint of the best prices and spread their whole distance, and there is neither when a side is empty |
| SortedKeys.Ascending | exchanges/src/bybit/ws.rs:103-115 | the iteration order of the tree map: strictly ascending and complete |
| LocalBooks.LocalBook.ApplySnapshot | exchanges/src/bybit/ws.rs:91-96 | both sides replaced |
| LocalBooks.LocalBook.ApplyDelta | exchanges/src/bybit/ws.rs:98-101 | both sides updated |
| LocalBooks.LocalBook.ApplyMessage | exchanges/src/bybit/ws.rs:249-253 | a delta updates, anything else replaces |
| LocalBooks.LocalBook.ToSnapshot | exchanges/src/bybit/ws.rs:103-124 | the extracted book, or none for an unrepresentable timestamp |
| LocalBooks.LocalBook.MergeInto | exchanges/src/bybit/ws.rs:126-134 | the loop inserts the last readable level of each price |
| LocalBooks.LocalBook.DeltaInto | exchanges/src/bybit/ws.rs:136-148 | the same, a zero quantity removing the price |
| LocalBooks.BybitDepthPolicy.HandleBookMessage | exchanges/src/bybit/ws.rs:241-260 | a message changes the book of its own symbol and no other, and emits that book; an unknown symbol changes nothing |
| LocalBooks.BybitDepthPolicy.Entry | exchanges/src/bybit/ws.rs:247-247 | an existing book is reused, a missing one starts empty, the other books stay |
| LocalBooks.BybitDepthPolicy.Apply | exchanges/src/bybit/ws.rs:249-253 | one message reaches only the book of its symbol |
| RegistryRuns.RegistryOnEveryRun | core/src/registry.rs:29-90 | after any history of inserts, batches and clears the indices agree with the primary map, which holds under each key the last instrument since the last clear, and a symbol finds the live instrument of the key last registered under it |
| RegistryRuns.InsertKeepsSymbolsExact | core/src/registry.rs:29-57 | an insertion keeps every live instrument findable by its own symbol if and only if the key is new and the symbol free, or the key is known and its symbol unchanged |
| RegistryRuns.FreeRunsStayExact | core/src/registry.rs:29-90 | after a history of such insertions only, every symbol lookup is exact |
| RegistryRuns.AfterIsOneBatch | core/src/registry.rs:59-90 | any history equals one batch of what was inserted since the last clear |
| Registry.InsertKeepsConsistent | core/src/registry.rs:29-57 | an insertion keeps the exchange and pair indices exact, without duplicates or dangling keys |
| Registry.InstrumentRegistry.Insert | core/src/registry.rs:29-57 | a known key is replaced in place, a new one enters all four maps |
| Registry.InstrumentRegistry.InsertBatch | core/src/registry.rs:59-90 | the loop over a batch equals inserting one by one |
| Registry.InstrumentRegistry.Clear | core/src/registry.rs:169-175 | all four maps are emptied |
| Registry.InstrumentRegistry.GetAll | core/src/registry.rs:137-140 | exactly the stored instruments |
| Registry.InstrumentRegistry.GetByExchange | core/src/registry.rs:124-135 | exactly the instruments of that exchange, each once |
| Registry.InstrumentRegistry.GetByPair | core/src/registry.rs:111-122 | exactly the instruments of that pair, each once |
| Registry.InstrumentRegistry.GetByExchangeSymbol | core/src/registry.rs:156-167 | a live instrument of the requested exchange and type, or none exactly if the symbol is not indexed |
| PaperRuns.LedgerMatchesFills | exchanges/src/mock.rs:182-318 | over every run each position is the signed sum of the fills returned to callers, and the only balance is the initial cash less what those fills cost, all of it free |
| PaperRuns.AlwaysSolventIff | exchanges/src/mock.rs:221-247 | over every run free cash stays non-negative if and only if no sale has a negative worth beyond the funds at that moment; purchases never overdraw |
| PaperRuns.StepSolventIff | exchanges/src/mock.rs:221-247 | the same for one step from any solvent ledger |
| PaperRuns.NeverOverdrawn | exchanges/src/mock.rs:221-247 | in particular with non-negative sizes and prices |
| PaperRuns.NegativeSaleOverdraws | exchanges/src/mock.rs:221-247 | the failing input: one market sale of minus 200000 at a bid of 1 |
| PaperRuns.SolventIffSpendingIsBounded | exchanges/src/mock.rs:182-318 | after every run free cash is non-negative if and only if the fills returned to callers have cost no more than the initial cash |
| PaperRuns.FillPaidIff | exchanges/src/mock.rs:226-251 | in every reachable ledger a filled order lowers the cash by its notional if and only if it is not of MIRAUSDT or its notional is zero |
| PaperRuns.CashIsConservedIff | core/src/types.rs:141-153 | throughout a run the cash equals the initial cash less the cost of all fills if and only if no action of the run is a marketable sale of MIRAUSDT of non-zero worth |
| PaperRuns.MiraHasNoBalance | exchanges/src/mock.rs:226-251 | in every reachable state a marketable MIRAUSDT order is refused if it buys and moves the position without any payment if it sells |
| PaperRuns.RestingOrdersNeverFill | exchanges/src/mock.rs:296-334 | an order not filled when placed stays open and untouched until cancelled or replaced under its client id; nothing ever fills it |
| PaperRuns.CancelledAsItRested | exchanges/src/mock.rs:320-334 | after any history a cancellation gives back the order as it came to rest, now canceled, or finds that none rests |
| PaperOrders.FilledOrderIsNeverReported | core/src/manager/order.rs:416-612 | on the paper exchange, over any stretch of a run of the order manager, an order that was filled when placed stays tracked as open and untouched and no terminal event is broadcast for it, whatever is confirmed, cancelled or reconciled |
| PaperOrders.AllTakenForOpen | core/src/manager/order.rs:416-612 | so over every such run every tracked order is one the order manager takes for open |
| PaperOrders.ReconcileRemovesNothing | core/src/manager/order.rs:546-612 | after any history of the paper exchange a reconciliation that is answered from its open orders removes nothing |
| PaperRuns.PositionsShowLeverage | exchanges/src/mock.rs:253-397 | the leverage of a position is the one last set for its instrument, whichever came first |
| PaperExchange.RefusalsChangeNothing | exchanges/src/mock.rs:182-334 | exactly when an order or cancellation is refused, and that a refusal leaves the whole state unchanged |
| PaperExchange.RefusedBecause | exchanges/src/mock.rs:182-247 | the reason of each refusal, with the amounts it names |
| PaperExchange.FillsAtOnceIff | exchanges/src/mock.rs:205-318 | an order that is not refused fills at once if and only if it is a market order or its limit reaches the best price of the other side: all of it, at that price, moving its position by its size; otherwise it rests |
| PaperExchange.ReduceOnlyIgnored | exchanges/src/mock.rs:182-318 | with and without the reduce-only flag an order gets the same answer and leaves the same balances, positions and open orders |
| PaperExchange.FilledOrderReducesIff | exchanges/src/mock.rs:253-318 | a filled order of positive size keeps its position between zero and what it was if and only if that is on the other side and at least as large, reduce-only or not |
| PaperExchange.ReduceOnlyOpensShort | exchanges/src/mock.rs:182-318 | a reduce-only market sale from flat opens a short position |
| PaperExchange.EntryPriceIsAverageCost | exchanges/src/mock.rs:268-290 | a growing position keeps its cost basis additive, a shrinking one its entry price |
| PaperExchange.TurnedOverEntryPrice | exchanges/src/mock.rs:268-290 | a fill that turns a position over leaves the fill price as entry price if and only if the old entry price was that price (buying) or its negative (selling) |
| PaperExchange.MockExchange.PlaceOrder | exchanges/src/mock.rs:182-318 | new ledger and answer for every order type, side, book and balance |
| PaperExchange.MockExchange.UpdatePosition | exchanges/src/mock.rs:253-291 | position created on first use and moved |

## Left out

- OrderRuns.TerminalBroadcastsConserved: the client-id codecs truncate long identifiers; that client ids stay
  unshared is assumed, not derived from them.
- GracefulExits.GracefulExitCloses: assumes that the submissions are accepted, that every order sent fills completely
  and that its fills are reported before its last order ends. A refusal stalls the unwind
  (`LifecycleLimits.RefusedChunkStalls`), partial fills leave a remainder, no larger than what there was
  (`UnwindArithmetic.PartialUnwindNeverGrows`), late reports make the chunks larger
  (`UnwindArithmetic.LaggingReportsCloseNoLater`) and a late last one leaves the pair in `Unwinding`
  (`LifecycleLimits.FlatUnwindClosesIff`).
- GracefulExits.RoundAdvances: the same assumptions, for one chunk.
- Reports.RecordShowsLastFill: for client ids that are not shared by the two orders of a dispatch nor sent again while
  the order is on record.
- Lifecycle.LifecycleHoldsOnEveryRun: says nothing about `Recovering` ever being left; with both legs flat there is
  nothing to recover and the status stays.
- UnwindArithmetic.LaggingReportsCloseNoLater: takes every order to fill as far as the position goes and no further,
  which an exchange that ignores reduce-only does not ensure (`UnwindArithmetic.StaleReportsOvershootIff`).
- UnwindArithmetic.PartialUnwindNeverGrows: for up-to-date reports; `UnwindArithmetic.FittingUnwindNeverGrows` is the
  law for all reports, with the exact condition of `UnwindArithmetic.FullFillStaysIff` on each of them.
- OrderManager.AdmittedIsSafe: bounds the notional from above only, as the code does;
  `OrderManager.AdmittedNotionalBoundedIff` is the condition for its amount.
- PaperRuns.NeverOverdrawn: for non-negative sizes and bids only; `PaperRuns.AlwaysSolventIff` is the law for all.
- PaperExchange.MockExchange.PlaceOrder: `Decimal::MAX` as the price of a priceless limit sale is infinity here.
- OrderManager.OrderManagerActor.ProcessCancelOrder: the background request to the exchange is not part of the
  model; its outcome arrives as a `CancelResult` message. Ids are taken to be ASCII, so that characters are bytes.
- EngineLoop.ArbitrageEngine.HandleEvent: outcomes of cancel requests are ignored, as in the code; order-book and
  ticker events only feed the oracle, whose answers are inputs.
- Width and overflow of `Decimal` and negative zero; division is exact.
- Wall-clock timestamps, logging, metrics, status publication and display.
- The spot-perp strategy, the poller, `PaperExecution` (it sets statuses without moving positions) and
  `chase_missing_leg`.
- Margin policy, price oracle and funding cache: their verdicts and values are inputs.
- HTTP clients, signing, WebSocket transport, JSON and rkyv encoding, ZMQ routing, Redis discovery, CLI, configuration
  and the runner: input and output without protocol state.
- Exchange mappers, currency tables, key parsing: field-by-field copies.
- Order-book feeds of the other exchanges: they replace the whole book with each message.
- Market-data and funding calls of the paper exchange: delegated to the real one.
- `Position::apply_fill` of the core types: its averaging has the defect stated for the paper ledger.
