# A verified model of the trading bot

The bot places stock orders at a broker through a risk gate, protects every
position with a resting stop it only ever tightens, halts by default when
anything disagrees, and is steered from a phone. This project models that
machinery in Dafny and proves what it keeps, for every input, every pattern of
fills and lost calls, and every order of actions.

`dafny verify dfyconfig.toml` checks everything.

## How the model is built

Code that changes things step by step is modelled twice: as methods that change
an object or run a loop, and as a function giving the same effect as a value. The
methods are proved equal to the function, and the theorems are about the function.

- **The live protocol.** `Broker.dfy` is the broker as a state machine. Its
  `script` decides, call by call, what the market does first and whether the call
  is delivered, lost before it takes effect, or lost after; a theorem that holds
  for every script holds for every pattern of faults. Replacing a dead order and
  reusing a client order id are rejected. Entries and halt-file writes leave
  marks in a `journal`. `OrderManager.dfy`, `Reconciler.dfy`, `Cycle.dfy` and
  `Orchestrator.dfy` are one scheduled cycle, `TradeService.dfy` the phone,
  `SelfHeal.dfy` the self-healer; `TradingSystem.dfy` lets them take turns in any
  order on one book and one halt file. `OrderHistory.dfy` says what the broker's
  orders can become. `StopSandwich.dfy` is the theorem about one stop,
  `BookStops.dfy` and `SystemStops.dfy` carry it through whole cycles and whole
  runs, `EarlyReturns.dfy` says when a cycle returns before saving and
  `Forgetting.dfy` what that costs. `SentOrders.dfy` and `SystemOrders.dfy` say
  which orders ever go out and for whom, `CyclePhases.dfy` what each phase gets
  done and `ShadowCycles.dfy` what a cycle that does not execute leaves alone.
  `CycleSafety.dfy`, `CycleHalts.dfy`, `FailedEntries.dfy`, `LateFills.dfy` and
  `Flattening.dfy` are about entries, halts and the kill switch,
  `Persistence.dfy` about restarts.
- **The risk gate.** `Ratchet.dfy`, `CircuitBreakers.dfy`, `RiskGate.dfy`,
  `SentimentGate.dfy` and `EntryLoop.dfy`. Money is exact (`real`); the roundings
  that matter (cents, three and four decimals) are explicit in `Rounding.dfy`.
- **Research.** `Backtester.dfy` with its laws in `NoLookAhead.dfy`,
  `BacktestLaws.dfy`, `TradeMath.dfy` and `TradeHistories.dfy`, and
  `WalkForward.dfy`. Strategies, regime routing and correlation are arbitrary
  functions of a price history.
- **Discovery.** `Gathering.dfy` turns threads and queues into interleaved steps;
  `Scoring.dfy` and `WeightAdvisor.dfy` do the blending, `ScoreLaws.dfy` says what
  a score is worth, and `Discovery.dfy` puts the pools inside the race of sources.
- **Proposals.** `Rotation.dfy`, over the generic record store.

## What the proofs found

Where the code does not keep what its own documentation or configuration says,
the model follows the code and a lemma states exactly when it does.

- Three halts return before the book is saved. A stop raised in a cycle is
  forgotten if and only if the feed then goes stale: the market is open, nothing
  raises in trailing and exits, and the entry loop is left with no candidate that
  has a fresh bar, at least one stale one, and no failure too many
  (`Forgetting.RaiseForgottenIff`); the mismatch and kill-switch returns come
  before any raise. From the record left on disk no later raise that would move
  the stop succeeds, whatever is done afterwards (`SystemStops.ForgottenForGood`).
  `Forgetting.StaleCycleForgetsItsRaise` is a cycle that does it. In every other
  case every stop of the saved book stands (`BookStops.CycleKeepsStops`).
- A stop that settling attached is forgotten if and only if the cycle's report is
  not ok, the day's loss trips the limit, or the feed goes stale
  (`Forgetting.AttachForgottenIff`). The entry still waits on disk, its protective
  client id is used up, and it can never be settled
  (`Forgetting.ForgottenAttachIsStuck`); `Forgetting.MismatchForgetsItsAttach` is a
  cycle that does it.
- The same dead id stays in the live book when a replace takes effect but its
  answer is lost (`Forgetting.LostRaiseIsStuck`).
- A halt record with an empty reason stops neither phone orders nor scheduled
  cycles (`TradingSystem.EmptyReasonGatesNothing`), and an entry does go out past
  one (`TradingSystem.EmptyReasonLetsEntryOut`). Orders and cycles are all stopped
  if and only if the file cannot be read or its record names a reason
  (`TradingSystem.HaltGatesIffReason`). Every caller that writes a halt
  today names a reason, so it takes a file edited by hand or a future caller.
- The sentiment haircut rounds to four decimals, so off that grid it can raise
  confidence. It never buys a share more, on any account and under any limits, if
  and only if the cut confidence lies less than half a grid step above the last
  grid point at or below the confidence, or just half above an even one
  (`SentimentGate.HaircutBuysNoMoreIff`). The shipped strategies round to two
  decimals, so only a configured confidence with more than four reaches it.
- A suggested discovery weight can move by more than the documented shift, for two
  reasons. The rescale after clamping keeps the promise, before rounding, if and
  only if the clamp left the combined mass where it was
  (`WeightAdvisor.ShiftKeptIff`); and what is emitted is rounded to thousandths.
  The emitted weight keeps it if and only if the rescaled clamp, in thousandths, is
  less than half a step outside the whole steps between the two bounds, or just
  half outside an even one (`WeightAdvisor.SuggestedShiftKeptIff`). With the mass
  kept the overshoot is at most 0.0005, and none when both bounds are whole
  thousandths; `WeightAdvisor.RoundingCanOverstep` is two sources at the shipped
  settings that keep the mass and still overstep.
- `fetch_concurrent` can hang if and only if there is something to fetch and either
  `max_workers` is not positive or some fetch never comes back; then it does under
  every schedule (`Gathering.HangsIff`). Such a source never gets into a gather,
  and the deadline lets the others through (`Discovery.HungSourceStaysOut`).
- A backtest order is still queued at the end if and only if its symbol never
  trades again (`BacktestLaws.DeadOrderIff`); a symbol that signals on its own last
  bar so holds a slot for the rest of the run, and another symbol that asks every
  day never gets in (`BacktestLaws.DeadOrderBlocksOthers`).
- A suggestion over 39 sources or fewer can always be approved; with 40 there is
  one, at a shift of 38/39, in which every weight rounds to zero
  (`WeightAdvisor.SuggestionIsApprovable`, `WeightAdvisor.FortySourcesCanFail`).
- The rotation guardrail counts a strategy as active once it is enabled, whatever
  its stored weight; with nobody active an enable helps if and only if that
  weight is positive (`Rotation.EnableFromNothing`).
- Entries are sized with the intent's stop but booked with the ladder's own. An
  entry keeps open risk within its cap, on every account, if and only if the ladder
  does not start further out than the stop the gate sized with
  (`EntryLoop.OpenRiskCapKeptIff`); `EntryLoop.WiderLadderExceedsCap` ends at five
  times the cap, and `EntryLoop.LoopStaysWithinLimits` bounds the excess.

## Model

| member | source | states |
|---|---|---|
| `Ratchets.UpdateNeverLoosens` | src/risk/ratchet_stop.py:80-95 | whatever the price and ATR, neither the stop nor the high-water mark moves away from profit |
| `Ratchets.LadderMono` | src/risk/ratchet_stop.py:60-78 | a better extreme never locks in less, across trigger tolerance, truncation of steps and both sides |
| `Ratchets.StopIsLadderOfExtreme` | src/risk/ratchet_stop.py:44-95 | after any price history the percent ladder's stop is one function of entry and extreme, and the extreme is the best of entry and prices |
| `Ratchets.StopIgnoresPriceOrder` | src/risk/ratchet_stop.py:44-95 | reordering the price history leaves the ladder in the same state |
| `Ratchets.LockTrailsByLessThanOneStep` | src/risk/ratchet_stop.py:60-95 | once locked, the stop trails the extreme by less than the configured give-back plus one step |
| `Ratchets.LockHoldsProfit` | src/risk/ratchet_stop.py:60-95 | before the trigger the stop is the initial one; from the trigger on at least the configured profit is locked |
| `Ratchets.StopStaysBehindExtreme` | src/risk/ratchet_stop.py:60-95 | a ladder that locks no more than its trigger never puts the stop past the best price seen, but for the tolerance: whole steps never exceed the advance |
| `Ratchets.StartsItsRiskAway` | src/risk/ratchet_stop.py:44-50 | a new ladder's stop is its initial percentage, or its initial multiple of the ATR, away from the entry |
| `Ratchets.AtrStopTrails` | src/risk/ratchet_stop.py:135-145 | after any price an ATR ladder's stop is the old one or the trail behind the new extreme, whichever is tighter, on the latest ATR or else the entry's |
| `Ratchets.AtrStopIsTrailOfExtreme` | src/risk/ratchet_stop.py:124-145 | on its entry ATR, after any prices in any order, an ATR ladder stands at its initial stop or one trail behind the best price, whichever is tighter |
| `Ratchets.PercentRatchet.Update` | src/risk/ratchet_stop.py:80-95 | the object moves exactly along the ladder's transition and returns the new stop |
| `Ratchets.AtrRatchet.Update` | src/risk/ratchet_stop.py:135-145 | the same for the ATR ladder, with the latest ATR or the one at entry |
| `Ratchets.BuildRatchet` | src/risk/ratchet_stop.py:185-213 | builds the ladder the parameters call for; an ATR ladder without an ATR is the error |
| `Ratchets.BuildMeans` | src/risk/ratchet_stop.py:185-218 | what parameters ask for: an ATR ladder needs an ATR, starts its initial multiple away and trails by its trail multiple, or the initial one where none is given; a percent ladder starts its initial percentage away |
| `Ratchets.FromValue` | src/risk/ratchet_stop.py:163-182 | a rebuilt ladder stands exactly at the saved high-water mark and stop |
| `Brokers.Broker.Perform` | tests/unit/fakes.py:61-150 | one call: the market moves, then the call is delivered or lost before or after its effect |
| `Brokers.Broker.RetryTransient` | src/common/errors.py:47-67 | up to three tries, repeated only on transient failures, each try meeting its own fate |
| `OrderManagers.OrderManager.Open` | src/execution/order_manager.py:90-135 | submits the plan's entry alone, once, leaving broker and position where `OpenPosition` says; `SentOrders.OpenSendsThePlan` says what that order is |
| `SentOrders.OpenSendsThePlan` | src/execution/order_manager.py:90-135 | whatever the call's fate, at most one order is added that is not somebody else's, a market order for the plan's symbol, side and quantity under its client id; a position that comes back has that order as its entry and says the same of itself; a quantity that is not positive sends nothing |
| `SentOrders.OpenEntrySends` | src/core/orchestrator.py:587-595 | opened, settled and booked: the one entry sent is the plan's, under a client id no earlier order had, and the position booked has its symbol, side and quantity, its fill read and any fill protected |
| `SentOrders.CycleSends` | src/core/orchestrator.py:196-377 | whatever way a cycle goes, every order it sends to open a position is an approved candidate's, on its side and for its quantity, under a client id used once; every position in the book says what its entry order says |
| `SystemOrders.RunsSendOnlyWhatWasAsked` | src/execution/order_manager.py:90-135 | the same over every order of cycles, phone actions and heals: each entry was asked for by an approved candidate or a gated phone order, and sent once |
| `OrderManagers.OrderManager.SettleFill` | src/execution/order_manager.py:137-161 | reads the fill, attaches protection if there is none, and only then marks OPEN |
| `OrderManagers.OrderManager.Attach` | src/execution/order_manager.py:185-215 | a plain stop, or an OCO whose stop leg must come back, for the filled quantity |
| `OrderManagers.OrderManager.Recheck` | src/execution/order_manager.py:163-183 | raises when the entry kept filling after protection was sized |
| `OrderManagers.OrderManager.Raise` | src/execution/order_manager.py:217-237 | feeds the ladder, replaces the resting stop only when tighter, and believes it only when confirmed |
| `OrderManagers.OrderManager.Refresh` | src/execution/order_manager.py:239-268 | re-places an ageing stop at its own level |
| `OrderManagers.OrderManager.Liquidate` | src/execution/order_manager.py:270-275 | closes at the broker and marks CLOSED only on success |
| `OrderManagers.OrderManager.LegIds` | src/execution/order_manager.py:276-284 | picks the stop and limit legs out of an OCO's legs |
| `OrderManagers.SettleProtects` | src/execution/order_manager.py:137-161 | no settle, against any script, yields an OPEN position without a stop id; one that raises leaves the status alone |
| `OrderManagers.SettleRecordsFill` | src/execution/order_manager.py:137-161 | a settle that returns has recorded the broker's own fill and status, and moved to OPEN, CLOSED or neither accordingly |
| `StopSandwich.SettleBrackets` | src/execution/order_manager.py:137-215 | a pending entry that settles with a fill has a stop at its believed level and, with a target, a limit order at the target, each working, for the whole fill, on its symbol and side |
| `OrderManagers.RecheckRaisesIff` | src/execution/order_manager.py:163-183 | a recheck that gets its answer raises if and only if the entry has filled further than the position knows |
| `OrderManagers.RefreshLeavesDays` | src/execution/order_manager.py:239-268 | a refresh that returns leaves a stop with more than the asked-for days, and replaces it if and only if it had not that many |
| `StopSandwich.RunsKeepSandwich` | src/execution/order_manager.py:217-268 | over any run of raises, shadow cycles, refreshes and rechecks under any lost calls: cents(believed stop) <= resting stop <= cents(ladder stop), at most one stop rests, for exactly the filled quantity, and none of the three levels ever loosens (mirrored for shorts) |
| `StopSandwich.RunsFeedLadder` | src/execution/order_manager.py:217-268 | over the same runs the ladder is exactly what the prices of the raises and shadow trails, in order, make of it; lost calls, refreshes and rechecks leave no trace |
| `StopSandwich.RaiseReturnsInAgreement` | src/execution/order_manager.py:217-237 | after any normal return of a raise all three levels coincide, and a moved stop is resting |
| `StopSandwich.SettleStartsSandwich` | src/execution/order_manager.py:137-215 | a settle that returns with any fill leaves the position OPEN and sandwiched, whatever was lost on the way |
| `StopSandwich.AttachStartsSandwich` | src/execution/order_manager.py:185-215 | protection that returns rests at the believed stop, including after lost and rejected retries |
| `BookStops.PhaseNeverLoosens` | src/core/orchestrator.py:443-495 | over a raise, refresh or recheck phase of the whole book, wherever it is cut short: every OPEN position is still there and sandwiched, and none of its three levels loosened, whatever was done for the others |
| `CyclePhases.RaisePhaseFeeds` | src/core/orchestrator.py:443-472 | a raising phase that reaches the end of the book has fed every open position's ladder its fresh price, executing or not |
| `CyclePhases.PhaseIsCutShortIff` | src/core/orchestrator.py:443-495 | while the data feed answers, raising or refreshing the book's stops is cut short if and only if the failures counted reach their cap |
| `CyclePhases.SettlePhaseSettles` | src/core/orchestrator.py:386-397 | a settling phase that reaches the end leaves no entry that died empty and none pending that has a fill; the rest of the book is as it was |
| `CyclePhases.QuietRecheckRaisesIff` | src/core/orchestrator.py:399-408 | with no fault, rechecking the book raises if and only if an open position's entry has kept filling |
| `CyclePhases.KeptFillingHalts` | src/core/orchestrator.py:200-204 | an executing cycle over such a book halts as an exception with no entry sent and no order touched |
| `CyclePhases.TrailedStopsHaveDays` | src/core/orchestrator.py:474-495 | once an executing cycle has trailed its stops, with no fault and no failure counted, every open position's stop has more than the asked-for days to go |
| `CyclePhases.ExitPhaseClosesExactly` | src/core/orchestrator.py:423-441 | an exit phase that reaches the end has dropped exactly the open positions whose strategy signalled, in an executing cycle with fresh data |
| `CyclePhases.QuietExitsLeaveNothing` | src/core/orchestrator.py:423-441 | and with no fault nothing is held any more of what it dropped |
| `CyclePhases.CleanPhaseBooksAll` | src/core/orchestrator.py:273-305 | an entry phase in which nothing fails books every approved candidate it did not track: its symbol, side, quantity and strategy |
| `BookStops.CycleKeepsStops` | src/core/orchestrator.py:196-377 | a whole cycle, settles, closes, flattening and entries included, leaves on disk a book all of whose stops stand, unless its feed goes stale |
| `SystemStops.RunsKeepStops` | src/execution/order_manager.py:137-275 | the same over every order of cycles, phone actions and heals |
| `Forgetting.RaiseNeedsWorkingStop` | src/execution/order_manager.py:217-237 | a raise can return only if the order the book knows was still working, and leaves that order dead |
| `Forgetting.LostRaiseIsStuck` | src/execution/order_manager.py:217-237 | a replace that took effect but whose answer was lost makes every later raise fail |
| `EarlyReturns.StaleLoopIff` | src/core/orchestrator.py:269-305 | the entry loop ends with everything it checked stale if and only if nothing it has left to look at is fresh, something is stale, and its failures stay within the allowance |
| `EarlyReturns.UnsavedReturnIff` | src/core/orchestrator.py:229-305 | the mismatch, kill-switch and stale-data halts are written exactly when the report is not ok, the loss limit trips, or the feed goes stale |
| `Forgetting.RaiseForgottenIff` | src/core/orchestrator.py:238-305 | a stop raised in a cycle is missing from the saved book if and only if the feed goes stale: market open, nothing raised in trailing and exits, and the stale-loop guard |
| `Forgetting.ForgottenRaiseIsStuck` | src/core/orchestrator.py:298-305 | the record left on disk holds a dead order id, and no raise that would move the stop succeeds from it |
| `Forgetting.StaleCycleForgetsItsRaise` | src/core/orchestrator.py:298-305 | a concrete desk and cycle in which this happens |
| `Forgetting.AttachForgottenIff` | src/core/orchestrator.py:202-305 | a stop attached by settling is missing from the saved book if and only if the report is not ok, the loss limit trips, or the feed goes stale |
| `Forgetting.ForgottenAttachIsStuck` | src/execution/order_manager.py:137-215 | such an entry can never again be settled with a fill |
| `Forgetting.MismatchForgetsItsAttach` | src/core/orchestrator.py:229-234 | a concrete desk and cycle in which this happens |
| `SystemStops.ForgottenForGood` | src/execution/order_manager.py:217-237 | after a forgotten raise no sequence of cycles, phone actions and heals makes the forgotten record raisable again |
| `Reconcilers.Reconciler.Compare` | src/execution/reconciler.py:66-128 | the comparing loops produce the report, finding by finding, in order |
| `Reconcilers.Reconciler.Judge` | src/execution/reconciler.py:79-114 | what one tracked position contributes, by status, holding, orders and size |
| `Reconcilers.Reconciler.Run` | src/execution/reconciler.py:66-76 | reads positions then open orders, with retries, and compares; a failed read gives no report |
| `Reconcilers.ReconcileOkIff` | src/execution/reconciler.py:66-128 | the report is ok if and only if the book and the broker agree: nothing untracked, everything held protected and of the right size once OPEN, no pending entry lost, nothing vanished leaving orders |
| `Reconcilers.SizeMatchesIff` | src/execution/reconciler.py:95-114 | a filled position matches a broker position if and only if they are on the same side and differ by no more than the tolerance |
| `Reconcilers.SnapshotIsBroker` | src/execution/reconciler.py:66-76 | what is compared is the broker's own truth: the positions held at the first read, exactly the orders working at the second |
| `Reconcilers.SyncedBookIsBrokerBook` | src/core/orchestrator.py:207-229 | after an ok report and the auto-close sync, tracked live symbols are exactly the broker's positions plus entries still working |
| `Orchestrators.Orchestrator.TendPosition` | src/core/orchestrator.py:386-495 | one position's turn in each phase: settle, recheck, sync, flatten, raise, refresh, exit |
| `Orchestrators.Orchestrator.EachPosition` | src/core/orchestrator.py:386-408 | a phase over the book in order; raising leaves the rest as they were |
| `Orchestrators.Orchestrator.ConsiderAll` | src/core/orchestrator.py:269-294 | every enabled symbol nobody tracks, with failures isolated until too many |
| `Orchestrators.Orchestrator.OpenOne` | src/core/orchestrator.py:587-595 | opens, settles and only then books an entry; anything raised on the way leaves the book without it |
| `Orchestrators.Orchestrator.CheckIn` | src/core/orchestrator.py:199-206 | account, settle, recheck, read, compare, in that order, or the crash that cut it short |
| `Orchestrators.Orchestrator.Flatten` | src/core/orchestrator.py:690-717 | best effort: closes what is open, then cancels what still rests |
| `Orchestrators.Orchestrator.Proceed` | src/core/orchestrator.py:236-310 | what follows an ok report, branch by branch, equals its value model; `CycleHalts.KillSwitchIff` says in dollars when it halts for the loss |
| `Orchestrators.Orchestrator.Cycle` | src/core/orchestrator.py:171-377 | a whole cycle on objects leaves broker, saved book and halt file exactly where the value model says |
| `CycleSafety.EntriesOnlyInAgreement` | src/core/orchestrator.py:199-310 | a cycle submits an entry only when it executes, was not halted, and read a broker in agreement with its book, every broker position tracked live and stopped |
| `ShadowCycles.ShadowCycleOnlyWatches` | src/core/orchestrator.py:196-345 | a cycle that does not execute changes no order and no holding, whatever it meets, a tripped loss limit and approved candidates included |
| `CycleSafety.QuietCycleEnters` | src/core/orchestrator.py:199-310 | a quiet market, an empty book and one approved candidate do get an entry submitted |
| `CycleSafety.ExposedPositionHalts` | src/core/orchestrator.py:207-234 | a cycle that reads an untracked or unstopped broker position submits nothing, persists the mismatch halt, and saves nothing |
| `CycleSafety.QuietFlattenLeavesNothing` | src/core/orchestrator.py:690-717 | with no fault in the way, the kill switch leaves nothing held of what was open or closing and no order working anywhere |
| `CycleHalts.KillSwitchIff` | src/core/orchestrator.py:236-243 | a cycle that runs writes the kill-switch halt if and only if it read a broker in agreement and the equity is at or below the last close's, itself positive, less the limit's percentage; it then sends no entry and saves nothing |
| `CycleHalts.QuietKillSwitchFlattens` | src/core/orchestrator.py:236-243 | an executing cycle whose kill switch fires, with no fault from the reconcile on, leaves no order working and nothing held of the open positions the broker had shown |
| `CycleHalts.CrashIsClassed` | src/core/orchestrator.py:361-377 | a cycle that cannot finish its fills and reads halts as a disconnect if the failure was transient and as an exception otherwise, and saves the book it had |
| `CycleHalts.FirstCallDecides` | src/common/errors.py:47-67 | a first call lost for good is an exception at once, one lost three times over a disconnect |
| `CycleHalts.CycleHaltsBind` | src/core/orchestrator.py:663-688 | whatever a cycle halts for, the record it writes names a reason, so it stops every order and cycle after it |
| `Flattening.FlattenLeavesIff` | src/core/orchestrator.py:690-717 | whatever calls are lost, the kill switch leaves a position it set out to close if and only if that close was lost before it reached the broker |
| `CycleSafety.FailedOpenIsUntracked` | src/core/orchestrator.py:288-294 | an open or settle that raises submits at most one entry and leaves the book as it was |
| `FailedEntries.FailedEntryIsSavedUntracked` | src/core/orchestrator.py:269-305 | an entry whose open or settle raised is not tracked in the book its cycle saves, crashed or completed; the stale-data return cannot happen in that cycle |
| `FailedEntries.FailedEntryHaltsNextCycle` | src/core/orchestrator.py:199-294 | the next cycle that reads a position in that symbol halts on mismatch, submits nothing and leaves the book as it was |
| `LateFills.LateFillHalts` | src/execution/reconciler.py:113-128 | over every run of cycles, phone actions, heals and resets that does not enter an untracked symbol anew, the cycle that then reads a position in it halts, with no entry and the book as it was |
| `LateFills.FailedEntryFillsLate` | src/core/orchestrator.py:288-294 | so for an entry that failed in a cycle and fills any time later |
| `LateFills.FailedPhoneOrderFillsLate` | src/core/trade_service.py:318-339 | and for a phone order answered with a broker error |
| `CycleSafety.BodyKeeps` | src/core/orchestrator.py:196-377 | over a whole cycle: one position per symbol, none OPEN without a stop id, and no entry before an ok reconcile |
| `CycleSafety.UnsavedHalts` | src/core/orchestrator.py:229-305 | the mismatch, kill-switch, stale-data and config halts leave the saved book exactly as it was |
| `TradeServices.TradeService.PlaceOrder` | src/core/trade_service.py:219-278 | a phone order, refused while halted, busy, tracked or unpriced, and otherwise gated and opened |
| `TradeServices.TradeService.GateThenOpen` | src/core/trade_service.py:280-348 | market, account, veto, then opening the gated quantity, settling and booking, equal to its value model; `SystemOrders.PhoneOrderSends` says which quantity that is |
| `SystemOrders.PhoneOrderSends` | src/core/trade_service.py:280-348 | every entry a phone order sends has its symbol and side and a positive quantity that is the requested or the approved one and more than neither, once; it books a position of just that quantity, and touches no other, if and only if it answers that it was placed |
| `SystemOrders.PhoneOrderNeedsAll` | src/core/trade_service.py:219-348 | nothing goes out unless the phone had the lock, the bot was not halted, did not track the symbol, had a price, the market was open, and both quantities were positive |
| `SystemOrders.QuietPhoneOrderOpens` | src/core/trade_service.py:309-348 | on a quiet broker such an order is sent once, for the smaller of the two quantities, and answered as placed |
| `TradeServices.TradeService.ClosePosition` | src/core/trade_service.py:180-196 | closes one live position; the book loses it only if the broker took the close |
| `TradeServices.TradeService.FlattenAllPositions` | src/core/trade_service.py:198-217 | closes every live position, keeping those that fail |
| `Flattening.QuietPhoneCloseCloses` | src/core/trade_service.py:180-196 | with no fault, closing a live position leaves nothing held in its symbol and exactly the others in the book |
| `Flattening.QuietPhoneFlattenCloses` | src/core/trade_service.py:198-217 | with no fault, flattening leaves nothing held of what was live and only closed records |
| `TradeServices.TradeService.Halt` | src/core/trade_service.py:166-171 | writes a manual halt under the lock |
| `TradeServices.TradeService.Reset` | src/core/trade_service.py:173-178 | erases whatever halt is there, under the lock |
| `SelfHealing.SelfHealer.CheckGates` | src/core/self_heal.py:107-132 | class, verifier, cooldown, daily cap and verification, in that order |
| `SelfHealing.SelfHealer.CompareAndClear` | src/core/self_heal.py:134-148 | under the lock, clears only a record equal to the one verified |
| `SelfHealing.SelfHealer.AttemptResume` | src/core/self_heal.py:107-153 | uninterrupted: it resumes exactly when every gate passed and the lock was free, and then counts once |
| `TradingSystem.RunsAreSound` | src/core/trade_service.py:222-254 | over every run of cycles, phone actions and heal steps: no entry is ever submitted while halted, the halt file is what the journal says, and no position is OPEN without a stop id |
| `TradingSystem.HardHaltOutlastsRuns` | src/core/self_heal.py:107-118 | a halt that is neither stale data nor disconnect outlasts every run without a manual reset, and nothing is submitted meanwhile |
| `TradingSystem.HardHaltStays` | src/core/state_store.py:57-83 | the same, action by action, including a damaged halt file, which still means halted |
| `TradingSystem.RunsHealOnlyVerified` | src/core/self_heal.py:107-153 | over every run, each heal in the journal erased a halt of a resumable class, and exactly the record that stood on disk at that moment |
| `TradingSystem.HealsWaitOutCooldown` | src/core/self_heal.py:107-164 | over every run a heal clears only a stale-data or disconnect halt, of a class it has a verifier for, that has stood for the whole cooldown |
| `TradingSystem.HealsPerDayCapped` | src/core/self_heal.py:54-75 | one uninterrupted healer clears at most its cap of halts in any UTC day, even across midnight |
| `TradingSystem.FailedPhoneOrderHaltsNextCycle` | src/core/trade_service.py:323-327 | a phone order answered with a broker error stops the next cycle that sees its position, before any entry |
| `TradingSystem.EmptyReasonGatesNothing` | src/core/orchestrator.py:165-178 | with an empty reason on disk a phone order and a cycle do to broker and book what they would with no record |
| `TradingSystem.EmptyReasonLetsEntryOut` | src/core/state_store.py:55-60 | an entry submitted with such a record on disk throughout |
| `TradingSystem.HaltGatesIffReason` | src/core/orchestrator.py:165-178 | every phone order, and every cycle, is stopped if and only if the halt file cannot be read or names a reason |
| `Persistence.RecordSurvives` | src/core/state_store.py:109-150 | every position, of either ladder kind and in any status, survives saving and loading |
| `Persistence.OldRecordLoads` | src/core/state_store.py:129-150 | a record from before the newer keys loads with their defaults |
| `Persistence.BookSurvives` | src/core/state_store.py:91-107 | the whole file round-trips |
| `Persistence.RestartsChangeNothing` | src/core/state_store.py:91-150 | restarts inserted anywhere among a position's operations change no later stop level, broker call or status |
| `Persistence.StateStore.SaveAll` | src/core/state_store.py:91-93 | the file holds one record per position, in order |
| `Persistence.StateStore.Rebuild` | src/risk/ratchet_stop.py:163-182 | a loaded position object and its ladder are new objects standing exactly at the saved values |
| `CircuitBreakers.Breakers.CheckRateLimits` | src/risk/circuit_breakers.py:82-90 | expires, rolls the day, then compares both counts with their caps |
| `CircuitBreakers.Breakers.RegisterOrder` | src/risk/circuit_breakers.py:92-96 | rolls the day and records the time |
| `CircuitBreakers.Breakers.Expire` | src/risk/circuit_breakers.py:119-121 | drops from the front exactly what has left the window |
| `CircuitBreakers.Breakers.RegisterError` | src/risk/circuit_breakers.py:124-130 | counts consecutive errors and trips at the cap |
| `CircuitBreakers.Breakers.ResetErrors` | src/risk/circuit_breakers.py:132-133 | a good cycle starts the error count over |
| `CircuitBreakers.ExpiredIsWindow` | src/risk/circuit_breakers.py:119-121 | on sorted times, expiry keeps exactly the in-window suffix |
| `CircuitBreakers.RunsStayWithinCaps` | src/risk/circuit_breakers.py:82-121 | with a non-decreasing clock and a passing check before each registration, no closed window holds more than its cap of orders and no trading day more than its |
| `CircuitBreakers.DequeIsTheWindow` | src/risk/circuit_breakers.py:82-121 | after every check the deque is exactly the in-window part of the full history |
| `CircuitBreakers.CheckPassesIff` | src/risk/circuit_breakers.py:82-90 | a check passes if and only if the whole history has room in the window ending now and on the trading day of now |
| `CircuitBreakers.LossInDollars` | src/risk/circuit_breakers.py:58-67 | the loss breaker trips if and only if the day started positive and equity is at or below the start less the limit's percentage |
| `CircuitBreakers.PriceInDollars` | src/risk/circuit_breakers.py:69-79 | the fat-finger breaker refuses exactly the prices outside the band around a positive last price |
| `RiskGate.RiskManager.Evaluate` | src/risk/risk_manager.py:96-243 | the gate step by step equals the closed form: the first failed check vetoes, otherwise the largest quantity fitting six caps, resized exactly when a portfolio cap bound or it is below the suggestion, named by a cap that binds |
| `RiskGate.GateOpensIff` | src/risk/risk_manager.py:96-151 | the gate goes on to sizing if and only if the day's loss in dollars is within its limit, a slot and an order are left, entry and stop are known, and the limit price is within the band |
| `RiskGate.RiskManager.Shrink` | src/risk/risk_manager.py:153-243 | sizing then three portfolio caps, each only cutting, is the minimum of six floors |
| `RiskGate.RiskManager.SizePosition` | src/risk/position_sizer.py:35-72 | the floor of the tightest of risk, position and cash, refused when the stop is the entry |
| `RiskGate.MaxSharesIsTightest` | src/risk/risk_manager.py:153-243 | n shares are within the gate's number if and only if they fit all six budgets, so one share more breaks one |
| `RiskGate.GateInDollars` | src/risk/risk_manager.py:153-225 | the same in dollars lost at the stop and dollars spent, against every configured limit and its default |
| `RiskGate.MoreRoomMoreShares` | src/risk/risk_manager.py:96-243 | through every check, the approved quantity is monotone in confidence and antitone in open risk, correlated risk and gross exposure |
| `SentimentGate.GateNeverRaisesShares` | src/strategy/sentiment_gate.py:53-74 | for confidence on the four-decimal grid and a haircut of at most one, passing the gate never raises the approved quantity |
| `SentimentGate.BetterNewsMoreShares` | src/strategy/sentiment_gate.py:53-74 | through both gates, better news for a long (worse for a short) never approves fewer shares, and an outage as many as the best news |
| `SentimentGate.GateIsSymmetric` | src/strategy/sentiment_gate.py:53-74 | under mirrored limits a short meets on bad news what a long meets on good |
| `SentimentGate.GateMeans` | src/strategy/sentiment_gate.py:46-74 | blocks a long below its minimum and a short above its maximum, lets favourable news pass, and otherwise leaves confidence within half a grid step of the haircut's share; disabled or unanswered it lets everything pass |
| `SentimentGate.HaircutNeverRaisesIff` | src/strategy/sentiment_gate.py:74-74 | a haircut leaves confidence no higher if and only if the cut lies less than half a grid step above the last grid point under it, or just half above an even one |
| `SentimentGate.HaircutBuysNoMoreIff` | src/strategy/sentiment_gate.py:74-74 | under that condition, and only then, no account and no limits approve more shares after the haircut |
| `SentimentGate.OffGridHaircutCanBuyMore` | src/strategy/sentiment_gate.py:74-74 | a concrete off-grid confidence whose haircut buys a share it did not earn |
| `EntryLoop.ComputeExposure` | src/risk/exposure.py:43-54 | one pass gives cost-basis gross, count and open risk |
| `EntryLoop.CorrelatedOpenRisk` | src/risk/correlation.py:44-85 | one pass sums the risk of correlated positions, skipping the candidate and unknowns |
| `EntryLoop.CorrelatedWithinOpenRisk` | src/risk/correlation.py:44-85 | the correlated cluster never counts for more than the whole book |
| `EntryLoop.ClusterAndRest` | src/risk/correlation.py:44-85 | the cluster and what stays apart from it, its own symbol and whatever is not known to correlate, make up the whole open risk |
| `EntryLoop.ExposureOfOne` | src/risk/exposure.py:43-54 | one holding costs its filled, else ordered, shares at entry and risks their distance to the stop |
| `EntryLoop.ExposureAddsUp` | src/risk/exposure.py:43-54 | exposure is additive over holdings |
| `EntryLoop.EnterAll` | src/core/orchestrator.py:532-572 | the entry loop over gate and breakers equals its value model, exposure growing with each real open |
| `EntryLoop.LoopStaysWithinLimits` | src/core/orchestrator.py:532-572 | across one cycle's entries: open count, gross cost and open risk stay within the larger of their start and their cap (open risk plus the stop gap times the largest entry) |
| `EntryLoop.LoopKeepsRateCaps` | src/core/orchestrator.py:532-595 | the entries of one cycle are each counted, and never take the day's count, or what the window holds, past its cap |
| `EntryLoop.LoopKeepsOpenRiskCap` | src/core/orchestrator.py:532-572 | with no ladder wider than its gate stop, open risk stays within the larger of its start and its cap over the whole loop |
| `EntryLoop.OpenRiskCapKeptIff` | src/core/orchestrator.py:532-572 | one entry keeps the cap on every account if and only if its ladder starts no further out than the stop the gate sized with |
| `EntryLoop.WiderLadderExceedsCap` | src/core/orchestrator.py:532-572 | a concrete entry that ends above both cap and start |
| `Backtesting.AllDates` | src/research/backtester.py:131-132 | the dates of all symbols, sorted, each exactly once |
| `Backtesting.Backtester.Run` | src/research/backtester.py:111-195 | the day loop over that timeline equals its value model |
| `Backtesting.Backtester.FillPending` | src/research/backtester.py:141-148 | yesterday's orders whose symbol trades become positions at the open; the rest wait |
| `Backtesting.Backtester.ManagePositions` | src/research/backtester.py:150-173 | the day's exits and the trailing of what is kept equal the value model; `TradeHistories.RunIsExplained` says what that comes to over a run |
| `Backtesting.Backtester.QueueEntries` | src/research/backtester.py:180-190 | symbols in scan order until the book is full |
| `TradeMath.ClosedGainIsPaperGainLessCosts` | src/research/backtester.py:287-315 | closing realizes the paper gain at that price less slippage out and commission both ways, to half a cent, long or short |
| `TradeMath.RoundTripLosesItsCosts` | src/research/backtester.py:246-300 | in and out at one price loses exactly two slippages and two commissions |
| `TradeMath.BetterExitEarnsNoLess` | src/research/backtester.py:287-300 | a better exit price never earns less |
| `TradeMath.OpenMeansUntouched` | src/research/backtester.py:150-173 | a position still open after a run had every bar since its entry inside its original stop and target, no exit signal, more data to come, and a stop that never fell back |
| `TradeMath.StopBeatsTarget` | src/research/backtester.py:259-285 | when a bar reaches the stop, the trade is booked there, the least any better price would have earned |
| `TradeMath.EntryIsBracketed` | src/research/backtester.py:246-257 | a filled entry, on either kind of ladder, has its stop on the losing side of its fill and its target, if any, on the winning side |
| `TradeHistories.RunIsExplained` | src/research/backtester.py:131-300 | at every day's end: each waiting order was asked for by its signal and its symbol has not traded since; each open position was filled, with slippage, at the open right after its signal, and its ladder is a new one fed, in order, every close from its entry on; each trade closed such a position at its stop, its target or the close, as the bar of its exit date calls for |
| `TradeHistories.QueuedTodayFits` | src/research/backtester.py:175-244 | in any backtest an order queued today is the most whole shares that fit every limit at the equity the curve shows for today, beside the positions now held |
| `TradeHistories.LockedOnceTriggered` | src/research/backtester.py:259-285 | once a position has seen a close at or past its ladder's trigger, its stop locks at least the configured profit |
| `TradeMath.TradeIsOnRecord` | src/research/backtester.py:287-300 | a trade records its position's symbol, side, quantity, strategy and dates, and entry and slipped exit price to half a ten-thousandth |
| `TradeMath.ValueOfOne` | src/research/backtester.py:302-315 | a position is worth its shares at the day's close and has gained what the close is beyond its entry, on a day it trades, and nothing on another |
| `TradeMath.ValuesAddUp` | src/research/backtester.py:302-315 | the book's market value and paper gain are sums over its positions |
| `TradeMath.QueuedOrderFits` | src/research/backtester.py:198-244 | a queued order is the most whole shares, at least one, that fit risk, position, cash, gross, open-risk and correlated limits at the asked entry and stop and today's exposure; one more share does not fit |
| `NoLookAhead.PastIgnoresFuture` | src/research/backtester.py:131-195 | two data sets that agree up to t, and on which symbols end by t, give equal equity points and closed trades up to t, for every prefix-only strategy |
| `NoLookAhead.ConsiderSame` | src/research/backtester.py:198-244 | the entry decision depends only on bars up to today, through sentiment, exposure, correlation and the gate |
| `NoLookAhead.EndingTodayShows` | src/research/backtester.py:159-173 | a data set that ends today treats a position the same as one that goes on if and only if another exit fires today |
| `BacktestLaws.FillsConserve` | src/research/backtester.py:141-148 | symbol by symbol, every order becomes a position or waits: none lost, none doubled |
| `BacktestLaws.ExitsConserve` | src/research/backtester.py:150-173 | symbol by symbol, every position survives or leaves exactly one trade |
| `BacktestLaws.RunKeeps` | src/research/backtester.py:134-195 | at every day's end: a symbol is held or queued at most once, held plus queued within the maximum, fills strictly after signals, same-symbol trades disjoint, realized equals the sum of profits |
| `BacktestLaws.NothingLeftOpen` | src/research/backtester.py:159-173 | no position outlives the data |
| `BacktestLaws.EquityIsAccounted` | src/research/backtester.py:175-195 | each day's equity is the initial equity plus profit closed by then plus the paper gain of what is open |
| `BacktestLaws.FinalEquityIsRealized` | src/research/backtester.py:159-195 | the last equity is the initial equity plus the profit of the trades |
| `BacktestLaws.TradesFollowSignals` | src/research/backtester.py:141-190 | every trade is entered strictly after its signal, and strictly after the previous trade of its symbol is out |
| `BacktestLaws.DeadOrderIff` | src/research/backtester.py:141-148 | an order is still queued at the end if and only if its symbol trades on no later day |
| `BacktestLaws.DeadOrderBlocksOthers` | src/research/backtester.py:180-190 | a concrete run in which such an order keeps another symbol out of the only slot |
| `WalkForward.SplitEvenly` | src/research/walkforward.py:144-156 | contiguous chunks in order, sizes differing by at most one |
| `WalkForward.Evaluate` | src/research/walkforward.py:86-118 | fewer than two folds is an error, too little history gives none, otherwise one independent run per fold |
| `WalkForward.FoldsPartition` | src/research/walkforward.py:144-156 | the folds are a non-empty, consecutive, nearly equal partition |
| `WalkForward.TradesStayInFold` | src/research/walkforward.py:104-118 | every trade of a fold is entered after its start and out by its end |
| `WalkForward.FoldsNeverOverlap` | src/research/walkforward.py:97-118 | trades of different folds never overlap in time |
| `WalkForward.FoldIgnoresLaterData` | src/research/walkforward.py:104-118 | nothing after a fold's end can change its trades |
| `Gathering.SchedulesAreSound` | src/discovery/sources/_util.py:60-98 | in every interleaving each item is in exactly one place, and no schedule outlasts a budget fixed at the start |
| `Gathering.NeverStuck` | src/discovery/sources/_util.py:60-98 | with a worker allowed and fetches that all come back, an unfinished call can always take another step |
| `Gathering.HangsIff` | src/discovery/sources/_util.py:67-90 | it can hang, and then does under every schedule, if and only if there are items and either no worker or a fetch that never comes back |
| `Gathering.FinishedCall` | src/discovery/sources/_util.py:85-98 | a finished call handled each item exactly once, raises if and only if some fetch raised, and returns the multiset of values fetched |
| `Scoring.Scorer.Score` | src/discovery/scorer.py:46-56 | best contribution per source, weighted, over active weight, whatever order the dictionary filled in |
| `ScoreLaws.OneSourceScoresItsBest` | src/discovery/scorer.py:46-56 | a single active source of positive weight scores its largest non-negative contribution, in percent, to a tenth |
| `ScoreLaws.SourceMovesScoreByItsWeight` | src/discovery/scorer.py:46-56 | before rounding, raising one source's best by d, all else alike, raises the score by 100 d times its share of the active weight |
| `ScoreLaws.AgreementIsTheScore` | src/discovery/scorer.py:46-56 | when every active source has the same best, that is the score: nothing when none speaks, 100 when all are certain |
| `ScoreLaws.ScoreIsRounded` | src/discovery/scorer.py:56-56 | the score is that number to the nearest tenth |
| `Scoring.Collect` | src/discovery/pipeline.py:186-202 | failed reports are skipped; every contribution is filed under its symbol, in order of arrival |
| `Scoring.BlendOverKeys` | src/discovery/scorer.py:50-56 | summing over the sources that spoke is summing over all active ones |
| `Scoring.ScoresIgnoreArrivalOrder` | src/discovery/pipeline.py:144-207 | two races in which the same sources beat the deadline give every symbol the same score |
| `Scoring.RacesAreFair` | src/discovery/pipeline.py:171-202 | no source is counted twice |
| `Discovery.ScoresIgnoreInterleaving` | src/discovery/pipeline.py:144-207 | pools inside the race: any two gathers in which the same sources get in give every symbol the same score, however each source's fetches interleaved |
| `Discovery.HungSourceStaysOut` | src/discovery/pipeline.py:171-193 | a source whose call cannot finish is never among those the collector took |
| `Scoring.ScoreWithin` | src/discovery/scorer.py:46-56 | with non-negative weights a score lies between 0 and 100 |
| `WeightAdvisor.SuggestWeights` | src/discovery/weight_advisor.py:76-146 | the loops over judged sources equal the value model: share, clamp, rescale, round, and the smallest worthwhile move |
| `WeightAdvisor.UnjudgedUntouched` | src/discovery/weight_advisor.py:115-132 | a suggestion changes no weight but the judged sources' |
| `WeightAdvisor.MassKept` | src/discovery/weight_advisor.py:125-132 | the judged mass is kept to within 0.0005 per source |
| `WeightAdvisor.MoveIsBounded` | src/discovery/weight_advisor.py:115-132 | before rounding each weight stays in [cur(1-s)/(1+s), cur(1+s)/(1-s)] |
| `WeightAdvisor.ShiftKeptIff` | src/discovery/weight_advisor.py:93-132 | before rounding, every judged weight stays within plus or minus s if and only if clamping left the mass unchanged |
| `WeightAdvisor.SuggestedShiftKeptIff` | src/discovery/weight_advisor.py:93-132 | the emitted weight stays within plus or minus s if and only if the rescaled clamp, in thousandths, rounds inside the bounds |
| `WeightAdvisor.EmittedNearShift` | src/discovery/weight_advisor.py:125-132 | with the mass kept, an emitted weight oversteps by at most 0.0005 |
| `WeightAdvisor.EmittedWithinGridBounds` | src/discovery/weight_advisor.py:125-132 | with the mass kept and both bounds whole thousandths, the promise is kept |
| `WeightAdvisor.RoundingCanOverstep` | src/discovery/weight_advisor.py:125-132 | two sources at the shipped settings whose clamp keeps the mass and whose emitted weight still oversteps |
| `WeightAdvisor.ShiftCanBeExceeded` | src/discovery/weight_advisor.py:93-132 | two sources for which a 30% cap lets a weight grow by more than 70% |
| `WeightAdvisor.SuggestionIsApprovable` | src/discovery/weight_advisor.py:261-274 | every emitted suggestion over at most 39 sources passes the degeneracy test, and over any number while the shift is at most 0.9 |
| `WeightAdvisor.FortySourcesCanFail` | src/discovery/weight_advisor.py:261-274 | forty sources and a shift for which an emitted suggestion fails it |
| `WeightAdvisor.LedgerSuggestionIsApprovable` | src/discovery/weight_advisor.py:97-146 | the same from the ledger itself, whatever its sources and histories |
| `WeightAdvisor.SignalNonNegative` | src/discovery/weight_advisor.py:66-73 | a judged source's signal is never negative |
| `WeightAdvisor.SignalIsMerit` | src/discovery/weight_advisor.py:66-73 | a source is judged from the minimum of votes on, and its signal is the share proposed times the average score out of 100, to half a ten-thousandth |
| `WeightAdvisor.SignalGrows` | src/discovery/weight_advisor.py:66-73 | the signal grows with the share proposed and with the average score |
| `WeightAdvisor.UnclampedFollowsSignals` | src/discovery/weight_advisor.py:115-132 | where no clamp binds, an emitted weight is the source's share of the mass in proportion to its signal, to half a thousandth |
| `WeightAdvisor.BetterSignalNeverGetsLess` | src/discovery/weight_advisor.py:115-132 | of two sources of equal weight the better signal is never emitted with the smaller weight |
| `Rotation.RecordStore.Add` | src/common/record_store.py:66-69 | stores under the record's id |
| `Rotation.RecordStore.ListPending` | src/common/record_store.py:75-77 | exactly the pending, unexpired records |
| `Rotation.RecordStore.Mark` | src/common/record_store.py:79-83 | changes one record's status, or nothing |
| `Rotation.RotationService.Submit` | src/core/rotation.py:166-175 | a recommendation is recorded only if the guardrail passes now |
| `Rotation.RotationService.Accept` | src/core/rotation.py:177-193 | approval re-checks status, expiry and guardrail before it applies, saves and marks |
| `Rotation.RotationService.Refuse` | src/core/rotation.py:195-202 | denies what is still pending |
| `Rotation.ApplyMeans` | src/core/rotation.py:56-75 | a change touches one strategy: disabling silences it, a reweight sets its weight and wakes it exactly above zero, enabling wakes it only at a positive weight |
| `Rotation.GuardKeepsActive` | src/core/rotation.py:208-229 | what the guardrail lets through leaves a strategy active |
| `Rotation.GuardPassesIff` | src/core/rotation.py:208-229 | passes a known change to a known strategy, its weight in bounds, if and only if it enables, or someone else is active, or it gives an active strategy a positive weight |
| `Rotation.EnableFromNothing` | src/core/rotation.py:223-229 | with nobody active it passes every enable, which helps if and only if the stored weight is positive |
| `Rotation.RunsKeepSomeoneActive` | src/core/rotation.py:166-229 | over every interleaving: someone stays active, weights stay in bounds, each proposal is applied at most once and exactly the applied ones are approved |
| `Rotation.SettledStaysSettled` | src/core/rotation.py:177-202 | an approved, denied or expired proposal never changes again |
| `Rotation.AppliedWeightInBounds` | src/core/rotation.py:215-222 | a reweight that is applied lies in [0, max_weight] |

## Left out

- Rotation.RunsKeepSomeoneActive: stored weights are bounded by the larger of 1 and `max_weight`, because a first enable or disable stores weight 1 whatever the maximum; proposal ids are assumed fresh, as the random suffix intends.
- StopSandwich.RunsKeepSandwich: one position's own operations, with the market between them; `BookStops` and `SystemStops` carry it through everything else.
- CycleSafety.QuietFlattenLeavesNothing: that no order is left working is stated without faults only; what is left held is stated under faults by `Flattening.FlattenLeavesIff`, as long as nobody else trades meanwhile.
- SystemStops.RunsKeepStops: up to a cycle whose feed goes stale.
- Orchestrators.Orchestrator.ConsiderAll: what feed, regime filter, strategies and gate come to for a symbol is an input; `EntryLoop` models the gate's part of that loop on its own.
- Orchestrators.Orchestrator.Proceed: the same inputs.
- LateFills.LateFillHalts: a symbol entered anew in between is tracked again, and what the old order then buys shows as a size mismatch instead.
- Orchestrators.Orchestrator.Cycle: the same inputs; construction and cycle are one step.
- TradeServices.TradeService.PlaceOrder: whether a price was found and what the gate would approve are inputs.
- EntryLoop.LoopStaysWithinLimits: covers the list of positions the loop sees; an open that raises is not in that list, and buying power is not decremented within a cycle, so no cash bound is stated.
- EntryLoop.LoopKeepsRateCaps: counts what settled; as in the code, an order sent by an open that then raised is not registered.
- TradingSystem.HealsPerDayCapped: one healer that is never cut off between clearing and counting.
- WeightAdvisor.SuggestionIsApprovable: for a smallest worthwhile move of at least 0.02, the default; "sum positive" is stated as "none negative and one positive".
- Constructing the orchestrator and running its cycle is one atomic step, and so is each phone action; the code does not serialise the constructor or the exception branch against the phone.
- The reconciler sees only top-level orders; OCO legs are taken to be listed flat, as the test double lists them.
- Client order ids are a datatype rather than formatted strings; broker order ids are positions in the broker's list.
- Money and prices are exact reals: float rounding, NaN and infinities are not modelled.
- TradeServices.TradeService.GateThenOpen: the gate's approved quantity is an input; building and validating the intent, rebuilding a proposal's ladder and resolving symbols are left out.
- Backtesting.Backtester.Run: the return percentage, the metrics, and the exception an ATR ladder raises without an ATR column; every bar carries an ATR.
- WalkForward.Evaluate: per-strategy statistics and the bootstrap; each fold keeps its trades.
- Discovery pipeline: levels, price floor and turning ranked candidates into proposals; ties in the ranking keep no fixed order.
- Discovery weight service: its propose and approve flow repeats the rotation service's.
- A record store file that cannot be parsed, and one that names a key of the wrong shape beyond reading as an error.
- The state machine object mirrors the halt flag the cycle already models.
- Clocks, locks and randomness are parameters; notifications, audit log, scoreboard, equity history and logging are not modelled.
- Broker, data, chat and language-model clients, configuration parsing, indicators, correlation and significance formulas, individual strategies.
- `scripts/reattach_missing_stops.py` clears stop ids on OPEN positions by design and steps outside the invariant.
