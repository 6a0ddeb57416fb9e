# Verification model of the trading engine and console

A Dafny model of the parts of the system that decide how orders, events and PnL
flow, with proofs about every input, every run or every reachable state:

- **Execution.** The market-making quote executor, its lists of quotes and its
  pricing helpers (`QuoteExecutor`, `QuoteBook`, `MmExecution`); the VWAP executor,
  its schedules and the venue quantity filters (`VwapExecutor`, `Slicer`,
  `VenueSizing`); streaming execution quality (`ExecutionTracker`); the submit
  throttle and the reject breaker (`SubmitGuard`).
- **Console.** The websocket event reducer (`ConsoleState`), the batch coalescer
  that must not change its meaning (`Coalescing`), parent-close buffering and
  close statistics (`ParentClose`, `ClosePnl`), the order, parent and breaker lists
  (`ConsoleLists`), and the equity-curve kernels (`Series`).
- **Concurrency.** The file-rename job queue (`JobQueue`), the lock-file kline
  merge (`KlineStore`), the drop-oldest event bus (`EventBus`), the reconnect
  resync (`BookResync`).
- **Accounting.** Attribution of netted fills (`Attribution`), the average-cost
  simulator (`Simulator`), the per-strategy PnL report (`PnlReport`), the rolling
  taker share (`TakerShare`).

`Collections`, `Arithmetic` and `Enums` hold what several of these share: finite
sums and a witness function, named products and quotients, the order side.

## How the model is built

Floating-point numbers are reals. Objects whose methods update fields are
classes; lists and dictionaries they mutate are fields of type `seq` and `map`.
Protocols are state machines whose steps run from one suspension point to the
next. A method that awaits is atomic only where nothing it awaits can suspend:
`EventBus.publish` never does, because its lock is never held across an await,
so the tracker methods that await it are atomic too.

The venue is adversarial: while an executor is suspended, any live order may
fill in part or in full or end. A cancel that returns is final, a submit that
raises leaves nothing live, client order ids are fresh, and a cancel may raise. A
venue is a value: it says, for each suspension, what happens to the orders and how
the next request ends. Contracts are about every venue, and some of their clauses
are about venues of one kind (`Holds`, `Yields`, `Obliging`), which is how a loss
or an overfill is shown to happen. Time is read in the same way: some number for each
number of suspensions so far.

Where the code does not keep what one would expect, the model says exactly when:

- The quote executor takes an entry out of its session *before* it cancels it in
  two places (the surplus loop of `_sync_single`, and `cancel_all`). If that cancel
  raises, the quote stays live outside every session. `RefreshSymbol` loses an entry
  only on a MAKE or CHASE side with a price, a size and more than one working
  entry, at most one, and does lose it at a venue that raises on those cancels;
  a `CancelSymbol` that raises orphans exactly what is still live of the session;
  `Run` adds this up over any operations, exceptions included, and `LosingRefresh`
  reaches such a refresh from an empty executor. The other way round, an entry that
  is not live was ended by the venue alone: at a venue that moves nothing by itself a
  run without exceptions keeps the sessions to exactly the live orders.
- The comment on `downsampleSeriesPreserveExtrema` says drawdown troughs survive;
  a drop inside one bucket can vanish. `DrawdownSurvivesIff` says exactly when the
  sample shows the drawdown of the series.
- `venue_cap_qty` adds 1e-15 before it floors, so it can round a quantity just
  below a step *up* to the step. A VWAP parent fills at most its quantity when no
  raised quantity can be sent, at most 1e-15 more for each of a slice's two
  roundings otherwise (`Execute`), and under all those other filters some parent is
  overfilled (`OverfillingRun`).
- Coalescing keeps the KPI board exactly when, for every field, the last payload
  that carries it agrees with the last one that survives its segment
  (`BoardAgreesIff`, `BoardAlwaysAgreesIff`).
- `_weights` is commented as giving the first slice about twice the last for six slices;
  the ratio is exp(2 - 2 / n), more than five for six (`BuildViableSchedule`).
- A lock file that its holder could not remove, or left when it crashed, or whose
  creator could not write its pid, stays for good and stops every later merge; without
  such a step it is there exactly while some process holds the lock
  (`LockFileIffHeld`, `OrphanedForGood`).
- A job that raises an exception with an empty message is recorded as done
  (`ResultTellsTheEnd`).
- The throttle admits at most capacity + 2 * rate * T calls for each concurrent
  caller, and so without bound over any number of them (`ConcurrentGrantBound`,
  `SleepersUnbounded`).
- A job's file that was found may be gone, or without its text, when it is read
  (`LoadSucceedsIff`). A running file is rewritten in place, so a worker that fails or
  crashes there leaves it unreadable, and nothing ever takes up a claimed job whose
  worker ended (`AbandonedForever`, `TornForGood`).
- A cancelled resync may take symbols with it or leave them pending with no task
  (`NothingLostIff`, `CancelLosesNothingIff`).
- The taker-share deque is the time window only if old trades leave in order
  (`DequeHoldsTheWindowIff`).
- The simulator's average-cost identities hold all through a run exactly when no
  reduce-only order meets a position on its own side, or, for the cost, only free ones
  do (`PositionIdentityIff`, `CostIdentityIff`).

## Model

| member | source | states |
|---|---|---|
| QuoteExecutor.QuoteExecutor.Run | backend/engine/execution/quote_executor.py:80-114 | Over every sequence of refreshes, cancels, prunings, setting changes, fills and other venue events from an orphan-free state, going on after whatever raised, the orphans are exactly the live orders among those lost by a raising operation: in a refresh one quote of an intent's MAKE or CHASE side, in cancel_all the quotes of one named symbol, elsewhere none; without an exception there is no orphan, and at a venue that moves nothing by itself sessions that held live orders only still do |
| QuoteExecutor.QuoteExecutor.RefreshSymbol | backend/engine/execution/quote_executor.py:170-201 | On every outcome the orphans are those there were and at most one entry of a MAKE or CHASE side that has a price, a size and more than one working entry, lost only if a cancel raised; at a venue that raises on the cancels of such a side its last entry is orphaned; other sessions and other symbols' orders are untouched; the session holds only orders live at the start or new, and unless a cancel raised none that a cancel of ours ended or that was refused, so that at a venue that moves nothing by itself every entry is live; every new post-only order is in the place zone and does not cross unless CLIMB_MULTI put it at a stale price; without an exception both sides together hold at most max(2, limit) orders, a side without price or size ends empty, on an empty side the mode's orders went out at the clamped price unless out of the zone or not sizable, and a change is reported exactly when other orders are quoted than before; from an empty session a venue that accepts every order gets one for every sendable rung of a ladder; without an exception no quote outside the keep zone is left working; a refresh with nothing to do sends nothing, and after a MAKE refresh at an accepting venue that moves nothing by itself there is nothing to do for the same intent until a quote is as old as the minimum rest time; nothing is raised unless the venue raises |
| QuoteExecutor.QuoteExecutor.SyncSession | backend/engine/execution/quote_executor.py:203-290 | One side's sync replaces only that side's list; the orphans are those there were and what the side lost; nothing is lost but one surplus entry of a MAKE or CHASE side whose cancel raised; an empty side is quoted |
| QuoteExecutor.QuoteExecutor.SyncSide | backend/engine/execution/quote_executor.py:203-290 | In each of the six modes every order still live is in the new list or was lost; only MAKE and CHASE with surplus entries lose one, when its cancel raises; nothing but the venue moves orders that are not on the list; unless a cancel raised no entry was ended by a cancel of ours or refused, and all are live at a venue that moves nothing by itself; the list fits half the order limit unless something was raised; an empty side sends the mode's orders, a side without price or size ends empty; unless something was raised every entry outside the keep zone has ended; a side with nothing to do is left untouched |
| QuoteExecutor.QuoteExecutor.SyncMode | backend/engine/execution/quote_executor.py:243-290 | The same for the choice of mode on a clamped price, TAKE, LADDER and CLIMB_MULTI, CLIMB, MAKE and CHASE in turn |
| QuoteExecutor.QuoteExecutor.SyncOne | backend/engine/execution/quote_executor.py:278-290 | The same for MAKE, CHASE and CLIMB: one quote that is to be left alone makes the whole sync a no-op |
| QuoteExecutor.QuoteExecutor.SyncSingle | backend/engine/execution/quote_executor.py:292-369 | MAKE and CHASE leave at most one entry; a single working quote is left alone, with nothing sent, exactly when there is no reason to cancel it and, in CHASE, it is close enough; otherwise it has ended and an order went out at the target unless out of the zone or not sizable; what is left is no better than the target and not too deep; what is lost is one working entry behind the first, taken off just before a cancel that raised, and a venue that raises on these cancels makes it lose the last |
| QuoteExecutor.QuoteExecutor.TrimToOne | backend/engine/execution/quote_executor.py:307-312 | Only the first entry is kept and no entry kept was cancelled; if a cancel raises, what is kept is a proper prefix and what is lost is exactly the next entry; at a venue that raises on every cancel that is the last one |
| QuoteExecutor.QuoteExecutor.KeepWorking | backend/engine/execution/quote_executor.py:307-322 | After pruning and trimming, the first working entry is left with its remaining size, or nothing if none works |
| QuoteExecutor.QuoteExecutor.SyncClimb | backend/engine/execution/quote_executor.py:371-436 | CLIMB leaves at most one entry and loses nothing even if a cancel raises; it keeps its quote only within a quarter tick of the next climb price and otherwise goes to that price or to the target; unless a cancel raised the entry was not cancelled |
| QuoteExecutor.QuoteExecutor.KeepFirst | backend/engine/execution/quote_executor.py:386-389 | All working entries but the first are cancelled and only then forgotten; if a cancel raises, the pruned list stays |
| QuoteExecutor.QuoteExecutor.SyncLadder | backend/engine/execution/quote_executor.py:438-545 | Ladders keep distinct level indices, end sorted by level, hold at most half the order limit per side, lose nothing and keep no cancelled entry unless a cancel raised; every wanted rung kept its working quote or had an order sent for it unless out of the zone or not sizable; a change is reported exactly when other orders are quoted; from an empty side a venue that accepts every order gets one for every sendable rung |
| QuoteExecutor.QuoteExecutor.SyncRungs | backend/engine/execution/quote_executor.py:480-539 | Every rung whose quote is to be left alone kept it; of every other the quote is gone and an order was sent unless out of the zone or not sizable |
| QuoteExecutor.QuoteExecutor.ClearRung | backend/engine/execution/quote_executor.py:488-520 | A rung's quote is left alone exactly when there is no reason to cancel it and it is close enough in price and size or, in CLIMB_MULTI, a quarter tick from its next price; otherwise it is cancelled |
| QuoteExecutor.QuoteExecutor.DropUnwanted | backend/engine/execution/quote_executor.py:470-478 | Exactly the entries at a target level remain, the others' orders have ended |
| QuoteExecutor.QuoteExecutor.SyncRung | backend/engine/execution/quote_executor.py:480-539 | One rung changes no entry at another level, keeps its quote or sends an order at the rung's price; a price that would cross can only be a working quote's own price or one climb step back from it |
| QuoteExecutor.QuoteExecutor.SyncTake | backend/engine/execution/quote_executor.py:547-601 | No order of the side is live before the immediate-or-cancel order goes out, which is sent if it can be sized, and tracked |
| QuoteExecutor.QuoteExecutor.PlaceLevel | backend/engine/execution/quote_executor.py:603-672 | A placed quote mirrors its order's id, price and size, and the order was not refused: at a venue that moves nothing by itself it is live; unless something is raised an order of that price and size was sent if it can be sized |
| QuoteExecutor.QuoteExecutor.CancelSide | backend/engine/execution/quote_executor.py:220-226 | The list empties only after every order in it has ended; if a cancel raises it stays as it was |
| QuoteExecutor.QuoteExecutor.CancelSymbol | backend/engine/execution/quote_executor.py:91-98 | The session is forgotten; the orphans are those there were and what is still live of it, so from an orphan-free state there is none exactly when nothing of the session is live; a cancel that returned has ended all of it; at a venue that raises on every cancel that happens exactly when nothing of it was live; other orders are moved by the venue only |
| QuoteExecutor.QuoteExecutor.CancelAll | backend/engine/execution/quote_executor.py:91-98 | Up to the first cancel that raises, the named sessions, and every session when none is named, are forgotten, the others are unchanged; without an exception no order is orphaned and no named session is left; otherwise exactly the live orders of one named session are |
| QuoteExecutor.QuoteExecutor.ClearSessions | backend/engine/execution/quote_executor.py:100-105 | Exactly the named sessions, or all without names, are forgotten; from an orphan-free state there is no orphan afterwards exactly when no order of a forgotten symbol, or none at all, is live |
| QuoteExecutor.QuoteExecutor.PruneSymbol | backend/engine/execution/quote_executor.py:107-114 | Pruning keeps exactly the live entries and makes no orphan |
| QuoteExecutor.QuoteExecutor.Refresh | backend/engine/execution/quote_executor.py:80-89 | At most the per-tick limit of symbols hold a new order afterwards, and intents are left out only when that many have reported a change; every symbol taken has a session, other sessions and other symbols' orders are untouched; nothing happens while quoting is disabled; what is lost is one quote of a MAKE or CHASE side of some intent, only if a cancel raised; unless one did, sessions that held live orders only still do at a venue that moves nothing by itself |
| QuoteExecutor.QuoteExecutor.Perform | backend/engine/execution/quote_executor.py:80-114 | One operation of a run: the orphans are those there were and what it lost |
| QuoteExecutor.WhichMode | backend/engine/execution/mm_execution.py:178-197 | A side's take flag decides first, then the mode of its intent unless that is MAKE, then the side's own setting |
| QuoteExecutor.WhichTakePrice | backend/engine/execution/quote_executor.py:243-247 | A TAKE order goes out at the price asked for on its side, or lacking one at the clamped target |
| QuoteExecutor.QuoteExecutor.WhichReduceOnly | backend/engine/execution/quote_executor.py:203-219 | Each side is sized by its own reduce-only flag |
| QuoteExecutor.RemainingShrinks | backend/engine/execution/quote_executor.py:317-320 | What is open of a quote is never negative, never grows, and with what was filled makes up the order |
| QuoteExecutor.LosingRefresh | backend/engine/execution/quote_executor.py:307-312 | From an empty executor, a ladder refresh that leaves two live bids and then one in MAKE, at a venue that raises on the cancel: the second bid stays live and in no session |
| QuoteBook.OrderManager.SubmitChild | backend/engine/orders/order_manager.py:138-246 | At most one order is added, as it was asked for; a raising submit leaves it dead, one that returns was not refused; other orders are moved by the venue only |
| QuoteBook.OrderManager.Cancel | backend/engine/orders/order_manager.py:297-303 | A cancel that returns has ended the order, one that raises leaves it to the venue, and no other order is touched |
| QuoteBook.PrunedKeeps | backend/engine/execution/quote_executor.py:129-134 | An id survives pruning if and only if its order is live, and distinct entries stay distinct |
| QuoteBook.SyncedChain | backend/engine/execution/quote_executor.py:203-290 | The mirror relation of one side composes, so any sequence of its steps keeps it |
| QuoteExecutor.MirrorStep | backend/engine/execution/quote_executor.py:188-195 | Storing a synced side leaves exactly the orphans there were and those lost, as far as still live |
| QuoteBook.WantedCount | backend/engine/execution/quote_executor.py:461-478 | Entries with distinct levels among the targets are at most as many as the targets |
| MmExecution.ClampNeverCrosses | backend/engine/execution/quote_clamp.py:6-20 | With a positive tick no clamped price crosses, prices only move away from the touch, prices that did not cross are left alone, and clamping twice is clamping once |
| MmExecution.InferTick | backend/engine/execution/mm_execution.py:200-206 | The inferred tick is positive for every touch, mid and spread |
| MmExecution.InferTickMeaning | backend/engine/strategies/market_making/core.py:497-520 | Between two prices the tick is the default one of the bid, or the spread if that is larger and the known spread explains it; without both prices the known spread or the default |
| MmExecution.TickBands | backend/engine/strategies/market_making/core.py:487-494 | Default ticks grow with the price, tenfold at 1, 50 and 50000 and nowhere else |
| MmExecution.ZonesIff | backend/engine/execution/mm_execution.py:24-90 | The place zone ends a number of basis points of its own side's touch behind it, the keep zone another and the slack; without that touch nothing may be placed and nothing is too deep |
| MmExecution.PlaceableIsKept | backend/engine/execution/mm_execution.py:48-90 | What may be placed is not too deep to be kept if the keep zone is the wider one |
| MmExecution.DeepFurtherDown | backend/engine/execution/mm_execution.py:79-90 | Every price worse than one that is too deep is too deep, and beyond some price all are |
| MmExecution.KeptIff | backend/engine/execution/mm_execution.py:67-97 | A working quote has no reason to be cancelled exactly when it is no better than its target, not too deep, and less than three rest times old or within half a basis point |
| MmExecution.ChaseKeepsIff | backend/engine/execution/mm_execution.py:100-114 | CHASE keeps its quote exactly while the price is less than the refresh threshold off and the size less than a twentieth |
| MmExecution.QuoteUnchangedIff | backend/engine/execution/quote_executor.py:710-721 | A quote is unchanged exactly while it is less than half a tick or 1e-12 off and its size less than a twentieth |
| MmExecution.ClimbApproaches | backend/engine/execution/mm_execution.py:117-138 | A climb never overshoots the target and ends strictly closer unless it is within 1e-12 already |
| MmExecution.ClimbSteps | backend/engine/execution/mm_execution.py:117-138 | Without a step the climb goes to the target at once; otherwise it stays within the slack, reaches a target within one step, and else moves exactly one step towards it |
| MmExecution.ClimbIsNoBetter | backend/engine/execution/mm_execution.py:117-138 | A quote that is not too aggressive climbs to a price no better than its target or stays |
| MmExecution.StaleClimbCrossesIff | backend/engine/execution/quote_executor.py:483-522 | An over-aggressive CLIMB_MULTI quote is re-placed across the touch exactly when one climb step back from its old price still crosses |
| MmExecution.StaleClimbCanCross | backend/engine/execution/quote_executor.py:483-522 | A concrete bid at 102 with target 99 is re-placed at 101 above an ask of 100, inside the place zone |
| MmExecution.LadderLevelTargets | backend/engine/execution/mm_execution.py:141-164 | The loop yields exactly the levels with positive price and size |
| MmExecution.LadderStepsAway | backend/engine/execution/mm_execution.py:141-164 | Ladder prices are no better than the target and step strictly away from it, level by level |
| MmExecution.LadderSizes | backend/engine/execution/mm_execution.py:151-163 | Every level has its weight's share of the target size, an equal share unless there is one weight a level |
| MmExecution.LadderWithinQty | backend/engine/execution/mm_execution.py:141-164 | With weights that are not negative the levels ask for at most the target size |
| MmExecution.LadderWithinQtyIff | backend/engine/execution/mm_execution.py:141-164 | Whatever the weights, they do exactly when the weight shares of the kept levels add up to at most one |
| MmExecution.NegativeWeightOvershoots | backend/engine/execution/mm_execution.py:151-163 | Weights 2 and -1 make the ladder ask for twice the target |
| MmExecution.TruncationFits | backend/engine/execution/quote_executor.py:461-463 | Truncated targets of two sides fit the per-symbol limit and stay a ladder |
| VwapExecutor.Execute | backend/engine/execution/vwap_executor.py:148-158 | For every schedule search and every venue, everything a parent ever fills is at most its quantity plus 1e-15 for each of two roundings per slice, and at most its quantity unless a raised quantity can be sent; a venue that fills every order at once fills exactly the capped slices |
| VwapExecutor.VwapExecutor.RunParent | backend/engine/execution/vwap_executor.py:242-312 | On every outcome the committed quantity stays within the schedule; a run that exhausts it has sent every slice not vetoed, waited in total until the last slice and left no passive order resting |
| VwapExecutor.VwapExecutor.SubmitSlice | backend/engine/execution/vwap_executor.py:423-523 | A slice sends nothing, one order of its capped size, or a limit order that has ended and a market order for exactly what it left; it raises the venue-bounds error exactly when the size is out of bounds |
| VwapExecutor.VwapExecutor.AwaitFillOrMarket | backend/engine/execution/vwap_executor.py:540-585 | A market order follows only once the limit order has ended, for its capped residual; with the fallback on, no limit order rests when it returns normally |
| VwapExecutor.VwapExecutor.SendMarket | backend/engine/execution/vwap_executor.py:567-585 | A market order of the given size is sent and awaited, or something was raised |
| VwapExecutor.VwapExecutor.AwaitTerminal | backend/engine/execution/vwap_executor.py:525-538 | Waiting changes nothing but what the venue does |
| VwapExecutor.PricesAndNumbers | backend/engine/execution/vwap_executor.py:455-505 | A passive slice is judged at its own price, a market one at the last price; the order standing in for a rejected passive one has number n + 50, at most 99 |
| VwapExecutor.SliceCommitment | backend/engine/execution/vwap_executor.py:455-585 | All orders of a slice together commit at most its size and two roundings, and at most its size unless a raised quantity can be sent |
| VwapExecutor.VenueStaysWithinCommitment | backend/engine/execution/vwap_executor.py:540-585 | Whatever the venue does later, fills only grow, stay within the commitment, and the commitment never grows |
| VwapExecutor.OverfillingRun | backend/engine/execution/vwap_executor.py:455-479 | Under all filters that let a raised quantity be sent, some parent is filled beyond its quantity in a run of Execute |
| VwapExecutor.OrderManager.SubmitChild | backend/engine/orders/order_manager.py:138-246 | At most one order is added; a raising submit leaves it dead |
| VwapExecutor.OrderManager.Cancel | backend/engine/orders/order_manager.py:297-303 | A cancel that returns has ended the order |
| VenueSizing.CapAlmostNeverRaises | backend/engine/risk/venue_sizing.py:44-68 | Capping raises a quantity by at most 1e-15, and never unless there is a cap and a step that fits under it |
| VenueSizing.CapRaisesIff | backend/engine/risk/venue_sizing.py:44-68 | Some quantity is raised by the cap if and only if there is a cap and a positive step at most 1e-15 above it |
| VenueSizing.RaisedIsSentIff | backend/engine/risk/venue_sizing.py:44-68 | Some positive quantity is raised by the cap and still in bounds if and only if the cap can raise and the largest lot under the cap and the maximum is a step or more and not below the minimum |
| VenueSizing.SentLotFits | backend/engine/risk/venue_sizing.py:44-68 | Any positive capped quantity in bounds shows that the filters are such |
| VenueSizing.CapKeepsWholeSteps | backend/engine/risk/venue_sizing.py:44-68 | Whole multiples of the step within the cap are unchanged |
| VenueSizing.CapCanRaise | backend/engine/risk/venue_sizing.py:44-68 | A quantity half of 1e-15 below the step passes the bounds and is capped up to the step |
| VenueSizing.BoundsIff | backend/engine/risk/venue_sizing.py:95-128 | What may be sent is at least a step, a minimum and a minimal notional and at most a maximum, as far as the venue has them |
| Slicer.BuildViableSchedule | backend/engine/execution/vwap_executor.py:180-240 | The schedule is exact and timed within the duration; no larger requested slice count is viable; for an increasing exponential the sizes strictly fall in FRONTLOAD, strictly rise in BACKLOAD and are equal in NORMAL, and for one that turns sums into products neighbours of n slices differ by the factor exp(-2/n); a lone slice that was not asked for goes out at the mode's single-shot time; a value error exactly for a quantity or duration that is not positive |
| Slicer.ScheduleIsExact | backend/engine/execution/slicer.py:31-57 | Every schedule is indexed in order, has positive sizes summing exactly to the parent, and strictly increasing delays inside the duration |
| Slicer.WeightsSumToOne | backend/engine/execution/slicer.py:60-77 | In every mode the weights are positive and sum to one |
| Slicer.QuantitiesSumExactly | backend/engine/execution/slicer.py:47-51 | The drift patch makes the sum exact whatever the weights are |
| Slicer.BackLoadMirrorsFrontLoad | backend/engine/execution/slicer.py:69-72 | Back-loaded raw weights are the front-loaded ones in reverse |
| Slicer.SingleShotTimes | backend/engine/execution/vwap_executor.py:665-678 | A lone slice goes out at once in FRONTLOAD, half way in NORMAL, at nine tenths in BACKLOAD |
| ExecutionTracker.VwapIsMoneyOverQuantity | backend/engine/execution/execution_metrics.py:115-135 | Over any fills that keep the filled quantity positive, vwap times filled is the money traded and impact times filled the weighted impact |
| ExecutionTracker.SlippageIsWeightedMean | backend/engine/execution/execution_metrics.py:136-136 | Reported slippage is the quantity-weighted mean of the single fills' slippages on the latest side |
| ExecutionTracker.SlippageIsShortfall | backend/engine/execution/execution_metrics.py:105-151 | Reported slippage times quantity is the money a buying parent paid above the arrival price, or a selling one got below it |
| ExecutionTracker.SlippageIsCost | backend/engine/execution/execution_metrics.py:269-275 | The slippage of a price is positive exactly by how much it is worse than arrival; zero without prices |
| ExecutionTracker.FullIff | backend/engine/execution/execution_metrics.py:124-147 | A fill completes its parent exactly when all but one part in 1e9 of a positive request is filled |
| ExecutionTracker.FeeMeaning | backend/engine/execution/execution_metrics.py:137-145 | A fill's fee counts in basis points of all money traded so far, weighted by its quantity; without a fee the figure stays |
| ExecutionTracker.Tracker.OnFill | backend/engine/execution/execution_metrics.py:105-151 | The report absorbs the fill; it completes exactly when the fill ratio reaches 1 - 1e-9; unknown parents change nothing; no parent completes twice |
| ExecutionTracker.Tracker.OnParentSubmit | backend/engine/execution/execution_metrics.py:83-103 | Open and completed ids stay disjoint exactly when the new id has not completed before |
| ExecutionTracker.Tracker.CloseParent | backend/engine/execution/execution_metrics.py:153-177 | An open report completes as it stands, others are ignored |
| ExecutionTracker.Tracker.MarkComplete | backend/engine/execution/execution_metrics.py:232-238 | The report leaves the open set and joins the completions; the history stays the last history_size of them in order, all of them for size zero |
| ExecutionTracker.Tracker.ReportForParent | backend/engine/execution/execution_metrics.py:184-191 | A report is found exactly for open or kept parents, and it is the completed one exactly when none is open |
| ExecutionTracker.Tracker.ClearHistory | backend/engine/execution/execution_metrics.py:197-204 | The kept completions are dropped, open reports and the record of what completed stay |
| SubmitGuard.TokenBucket.AcquireEnter | backend/engine/execution/submit_guard.py:53-64 | The section before the sleep refills by the elapsed time up to the capacity, admits at once exactly when a whole token is there, and otherwise waits for the missing part |
| SubmitGuard.TokenBucket.AcquireWake | backend/engine/execution/submit_guard.py:66-68 | The section after the sleep takes a token without refilling |
| SubmitGuard.TokensStayInRange | backend/engine/execution/submit_guard.py:53-68 | Under every interleaving tokens stay between zero and the capacity |
| SubmitGuard.DirectGrantBound | backend/engine/execution/submit_guard.py:53-68 | Callers admitted without sleeping in a window of length T number at most capacity + rate * T, however callers interleave |
| SubmitGuard.SequentialGrantBound | backend/engine/execution/submit_guard.py:53-68 | Calls made one at a time inside such a window number at most capacity + 2 * rate * T |
| SubmitGuard.GrantWindowBound | backend/engine/execution/submit_guard.py:53-68 | Counting grant times instead, when the window opens during a sleep, costs one more |
| SubmitGuard.ThrottleRunsAtTwiceTheRate | backend/engine/execution/submit_guard.py:64-68 | The factor two is reached: 2n sequential calls return within n / rate |
| SubmitGuard.TwoGrantsInOneInstant | backend/engine/execution/submit_guard.py:64-68 | The extra one is reached too, at every rate and capacity |
| SubmitGuard.SleepersUnbounded | backend/engine/execution/submit_guard.py:64-68 | With an empty bucket any number n of concurrent callers enter, sleep side by side and are all granted within 1 / rate |
| SubmitGuard.CallerBound | backend/engine/execution/submit_guard.py:53-68 | Whatever other callers do, one caller gets at most capacity + 2 * rate * T grants in a window that starts with nobody asleep |
| SubmitGuard.ConcurrentGrantBound | backend/engine/execution/submit_guard.py:53-68 | So m callers together get at most m times that |
| SubmitGuard.WakesWhenRefilled | backend/engine/execution/submit_guard.py:61-68 | A sleeper wakes no earlier than the missing part of its token has flowed in |
| SubmitGuard.RejectMonitor.RecordStatus | backend/engine/execution/submit_guard.py:205-237 | The breaker trips on exactly every max_rejects-th rejection in a row of a symbol and strategy |
| SubmitGuard.RejectMonitor.ClearRejectStreak | backend/engine/execution/submit_guard.py:201-203 | Clearing counts as a successful round trip |
| Coalescing.CoalescingKeepsMeaning | src/lib/algoStreamState.ts:657-676 | For every state with mark-derived positions and every batch, reducing the coalesced batch and reducing the batch agree on trades, realized trades, session and rolling statistics, orders, parents, history, breakers, buffered closes, hub and each symbol's positions; on the status view when health and latency events carry nothing else; and on the KPI board up to the two override maps |
| Coalescing.BoardAgreesIff | src/lib/algoStreamState.ts:642-645 | From a given board both batches leave the same board if and only if, for every field some payload carries, the last payload carrying it agrees with the last one that survives its segment or, if none survives, with the board; in particular when the last one itself survives |
| Coalescing.BoardAlwaysAgreesIff | src/lib/algoStreamState.ts:642-645 | From every board they do if and only if, for every such field, a payload carrying it survives and the last of these agrees with the last one of the batch |
| Coalescing.CoalescedShowsSurvivors | src/lib/algoStreamState.ts:586-655 | The coalesced batch overrides each field by the last payload carrying it that no later payload follows within its segment |
| Coalescing.BoardAgreesWhenCovered | src/lib/algoStreamState.ts:642-645 | The override maps agree when no replaced payload has a field its replacement lacks |
| Coalescing.FullPayloadsCover | src/lib/algoStreamState.ts:285-301 | Which holds when every equity payload carries all five fields |
| Coalescing.PartialPayloadIsLost | src/lib/algoStreamState.ts:642-645 | A realized PnL carried by a replaced payload only is lost |
| Coalescing.CoalescingIsIdempotent | src/lib/algoStreamState.ts:586-655 | Coalescing a coalesced batch changes nothing |
| Coalescing.CoalescingNeverGrows | src/lib/algoStreamState.ts:586-655 | The result is never longer than the batch |
| Coalescing.CoalesceWsEventBatch | src/lib/algoStreamState.ts:586-655 | The loop over deferred slots computes the coalesced batch the theorems are about |
| Coalescing.ApplyWsEvents | src/lib/algoStreamState.ts:657-676 | The batch is coalesced, reduced without its log lines, and the log lines go in front |
| Coalescing.RunDigest | src/lib/algoStreamState.ts:586-655 | At every point output plus flushed slots have the digest of the events read so far |
| Coalescing.ReducerFollowsDigest | src/lib/algoStreamState.ts:691-991 | Reducing any batch is applying its digest to the ledger, hub, KPI board, and mark-derived positions stay so |
| Coalescing.PositionsFollow | src/lib/algoStreamState.ts:806-844 | A symbol shows the row of its last position event, or what it showed before |
| Coalescing.RowsStayLawful | src/lib/algoStreamState.ts:806-844 | After any batch, coalesced or not, every position row shows what it has to: a long one what it is worth above its cost, a short one what it brought above the cost of covering, zero without price or size |
| ConsoleState.MarkDerivedIff | src/lib/api.ts:588-599 | Rows are mark-derived exactly when each shows that |
| ConsoleState.RowMeaning | src/lib/algoStreamState.ts:806-844 | A position is shown exactly when its size, or without one its absolute quantity, is 1e-12 or more, and with that size |
| ConsoleState.FingerprintMeaning | src/lib/algoStreamState.ts:316-323 | Position lists with the same fingerprint agree but for less than a hundredth of a cent of PnL, and equal ones have it |
| ConsoleState.BoardMeaning | src/lib/algoStreamState.ts:285-301 | Each payload field sets its own KPI and no other; open PnL shows the unrealized one |
| ConsoleState.StatusMeaning | src/lib/algoStreamState.ts:696-755 | Start-up progress is shown only while starting, resync progress only after and until cleared, a replay summary stays |
| ConsoleState.WhatRealizes | src/lib/algoStreamState.ts:846-911 | A fill realizes PnL exactly if it carries any and closes, by its action or lacking one by having an exit price |
| ConsoleLists.OrdersShown | src/lib/algoStreamState.ts:913-920 | After any events an order is listed exactly while its last report does not end it, with that report |
| ConsoleLists.ParentsShown | src/lib/algoStreamState.ts:922-955 | A parent is listed as working exactly while its last event is not its completion |
| ConsoleLists.HistoryShown | src/lib/algoStreamState.ts:928-955 | The history shows the last hundred completions, the latest first |
| ConsoleLists.BreakersShown | src/lib/algoStreamState.ts:961-990 | Exactly those breakers are active that were raised and since then neither re-armed for their target nor replaced under their code |
| ConsoleState.ApplyWsEvent | src/lib/algoStreamState.ts:691-991 | The reducer with its in-place buffer computes the reduction the theorems are about |
| ConsoleState.ApplyFill | src/lib/algoStreamState.ts:846-911 | A fill is ignored, buffered under its parent, or realized at once |
| ConsoleState.ApplyExecution | src/lib/algoStreamState.ts:928-955 | A completion moves the parent to the history and realizes its buffered close |
| ClosePnl.NothingLostOnPositiveFills | src/lib/algoStreamState.ts:846-955 | Since a hydrate, over any events with positive fill quantities, session gross win minus gross loss moved by exactly the PnL realized in finalized and standalone closes plus all buffered totals |
| ClosePnl.ClosePnlConserved | src/lib/algoStreamState.ts:846-955 | Over any events at all the same holds with what completions dropped |
| ClosePnl.StepKeepsIff | src/lib/parentCloseKpi.ts:51-60 | An event breaks the equality exactly when it completes a parent with closed quantity not positive and PnL not zero |
| ClosePnl.RealizedListFollows | src/lib/algoStreamState.ts:894-954 | The realized list gains exactly the realized trade, and whenever the rolling statistics are written they recount it |
| ClosePnl.RollingStaysRecount | src/lib/algoStreamState.ts:894-954 | Once a recount, the rolling statistics stay one over any events |
| ClosePnl.RedeliveryIsIgnored | src/lib/algoStreamState.ts:863-866 | Delivering a fill with an id twice is delivering it once |
| ParentClose.RollingKpiFromRealized | src/lib/parentCloseKpi.ts:86-114 | One pass counts the wins, losses and break-evens of the list and sums their sizes |
| ParentClose.RecountNetIsPnlSum | src/lib/parentCloseKpi.ts:86-114 | Gross win minus gross loss of a recount is the plain sum of the list's PnL, both not negative |
| ParentClose.StatsMeaning | src/lib/parentCloseKpi.ts:86-114 | The win rate is the share of trades that won, the profit factor gross win over gross loss, absent without a loss |
| ParentClose.BumpIsRecount | src/lib/parentCloseKpi.ts:116-134 | Bumping the session statistics trade by trade is recounting the list |
| ParentClose.AccumulateAddsPnl | src/lib/parentCloseKpi.ts:19-49 | Buffering a close adds exactly its PnL to the buffered total |
| ParentClose.FinalizeMovesTotal | src/lib/parentCloseKpi.ts:51-76 | Finalizing moves a parent's total into the trade it leaves or drops it |
| ParentClose.ParentCloses.AccumulateParentClose | src/lib/parentCloseKpi.ts:19-49 | The in-place update writes one parent's record and no other |
| ParentClose.ParentCloses.FinalizeParentCloseTrade | src/lib/parentCloseKpi.ts:51-76 | The record is removed in every case, with a trade only for a positive quantity |
| Series.ComputeMaxDrawdown | src/lib/series.ts:8-18 | The result is the largest drop from a value to a later one, attained, with the maximum as peak; the percentage is that drop over a positive peak, so it never overstates the drop's relative size |
| Series.DownsampleSeries | src/lib/series.ts:21-32 | Exactly maxPoints values at strictly increasing indices from the first to the last, each index the nearest to an even share of the way |
| Series.DownsampleSeriesPreserveExtrema | src/lib/series.ts:35-61 | An in-order sample of at most maxPoints values with both ends; for maxPoints at least 4 the ends and the first smallest and first largest value of every bucket, and nothing else |
| Series.BoundariesTile | src/lib/series.ts:42-45 | The computed bucket bounds cut the interior into consecutive runs without gap or overlap |
| Series.BucketOf | src/lib/series.ts:42-45 | Every interior index lies in exactly one bucket |
| Series.SampleNeverDeepensDrawdown | src/lib/series.ts:35-61 | The sample's maximum drawdown never exceeds the series' |
| Series.SeparatedDropSurvives | src/lib/series.ts:35-61 | Every drop whose ends lie in different buckets survives in the sample at full depth |
| Series.DrawdownSurvivesIff | src/lib/series.ts:34-61 | The drawdown of the sample is that of the series if and only if some deepest pair is one point, is not in one bucket, or is the first maximum and then the first minimum of a bucket |
| Series.GlobalExtremaSurvive | src/lib/series.ts:35-61 | The global minimum and maximum are in the sample |
| Series.DropInsideBucketCanVanish | src/lib/series.ts:34-61 | A concrete series whose deepest drop lies in one bucket loses part of it |
| JobQueue.EachJobClaimedOnce | backend/analytics/jobs.py:116-137 | On every run with any number of workers, crashes and disk errors, no job is claimed twice and no two workers hold one |
| JobQueue.StepKeepsInv | backend/analytics/jobs.py:65-156 | Every file operation of every producer and worker keeps the queue invariant |
| JobQueue.ResultTellsTheEnd | backend/analytics/jobs.py:140-156 | On every run a job is in failed only if it, or writing its result, raised something with a message; when its worker is done with the result file the record is complete in failed if so, and otherwise in done and not in failed |
| JobQueue.ClaimedCanFinish | backend/analytics/jobs.py:133-156 | A worker that claimed a job can finish it, with its record complete in done, nothing left in running, and itself free again |
| JobQueue.WorkerNeverStuck | backend/analytics/worker_main.py:33-53 | A worker can always take a step, whatever the others do |
| JobQueue.ReaderNeverMisses | backend/analytics/jobs.py:57-62 | Probing the four directories one at a time never misses a job enqueued before the first probe and never invents one |
| JobQueue.StatusNeverGoesBack | backend/analytics/jobs.py:57-62 | Successive probes of an enqueued job see a status that never decreases |
| JobQueue.LoadSucceedsIff | backend/analytics/jobs.py:57-90 | The read of the file that was found succeeds if and only if no step renamed it (pending) or unlinked it (running) since it was found, and every step that opened it for writing was followed by one that wrote its text |
| JobQueue.RunningIsTornIff | backend/analytics/jobs.py:133-136 | While a worker is at a claimed job its running file is there, and lacks its text exactly while that worker rewrites it |
| JobQueue.AbandonedForever | backend/analytics/jobs.py:116-156 | The files of a claimed job whose worker ended never change again: it is never finished, and whether it can be read stays as it is |
| JobQueue.TornForGood | backend/analytics/jobs.py:133-136 | A concrete run in which a job found in running is read while its record is rewritten; the write fails, and on every continuation the file stays there and unreadable |
| JobQueue.LoadCanMissAnEnqueuedJob | backend/analytics/jobs.py:80-90 | A concrete run in which the file found in pending is claimed before it is read |
| KlineStore.NormalizeMeaning | backend/analytics/kline_store.py:88-119 | Normalising sorts strictly by open time and keeps exactly the last row of each |
| KlineStore.SortedIsCanonical | backend/analytics/kline_store.py:88-119 | A strictly sorted frame is determined by its rows |
| KlineStore.MergeOverrides | backend/analytics/kline_store.py:265-292 | A merge is the map override of the library by the new bars |
| KlineStore.MergeIdempotent | backend/analytics/kline_store.py:265-292 | Merging the same bars again leaves the file as it is |
| KlineStore.DisjointMergesCommute | backend/analytics/kline_store.py:265-292 | Merges without a common open time commute |
| KlineStore.MutualExclusion | backend/analytics/kline_store.py:230-262 | On every run at most one process is between creating and removing the lock file |
| KlineStore.LockFileIffHeld | backend/analytics/kline_store.py:230-262 | As long as no step orphaned it, the lock file is there exactly while some process holds the lock |
| KlineStore.LockIsGivenBack | backend/analytics/kline_store.py:244-262 | A lock file that nobody holds was orphaned: its holder crashed or could not remove it, or its creator could not write its pid |
| KlineStore.WaiterGetsFreeLock | backend/analytics/kline_store.py:242-250 | A waiting process gets the lock exactly when no process holds it |
| KlineStore.HolderFinishes | backend/analytics/kline_store.py:251-292 | A process that got the lock can complete its merge and leave the lock free |
| KlineStore.OrphanedForGood | backend/analytics/kline_store.py:242-262 | An orphaned lock file stays, and no merge ever completes again |
| KlineStore.MergesAreSerializable | backend/analytics/kline_store.py:229-292 | Every interleaving leaves what the completed merges leave one after another in lock order |
| KlineStore.LibraryAfterAnyInterleaving | backend/analytics/kline_store.py:229-292 | After any interleaving the library is strictly sorted and is the override by all completed merges |
| KlineStore.NoBarLost | backend/analytics/kline_store.py:265-292 | Each open time of a completed merge is there, with the row of the last merge that had it |
| EventBus.EveryInterleaving | backend/common/events.py:163-183 | Over every interleaving of offers and gets the queue is within maxsize and the most recent suffix of the offers; every other offer was taken or dropped once, in order, and dropped only after maxsize newer ones |
| EventBus.TakeGetsOldest | backend/common/events.py:163-183 | A consumer that asks while something is queued gets the oldest |
| EventBus.Bus.Publish | backend/common/events.py:155-183 | Every subscriber is offered the numbered event exactly when it matches, and stays in step with the published history |
| EventBus.Bus.Subscribe | backend/common/events.py:203-235 | A new queue starts empty and is owed exactly the matching events from now on |
| EventBus.Bus.Unsubscribe | backend/common/events.py:230-235 | Only the leaving queue is removed |
| EventBus.Bus.EnqueueJournal | backend/common/events.py:137-153 | The journal queue drops its oldest entry rather than block |
| EventBus.Bus.AttachJournal | backend/common/events.py:70-72 | From now on every published event is offered to the journal |
| EventBus.Bus.StartJournalWriter | backend/common/events.py:74-85 | An empty journal queue takes what is published from now on, if a journal is attached and no writer runs |
| EventBus.Bus.WriteJournal | backend/common/events.py:107-113 | The writer appends the oldest queued event |
| EventBus.JournalAccountsForAll | backend/common/events.py:104-153 | Every event published since the journal was attached is written, waits for the writer, or was dropped from the full queue, once and in order, and dropped only after 20000 newer ones |
| EventBus.Subscriber.Take | backend/common/events.py:203-228 | A consumer gets the oldest queued event |
| EventBus.NumbersIncrease | backend/common/events.py:161-163 | When the bus assigns every number, each consumer sees strictly increasing ones |
| BookResync.NoRequestLost | backend/engine/core/book_resync_runtime.py:60-83 | Barring cancellation, whenever no debounce task runs nothing is pending and every reported symbol had an attempt started after its report |
| BookResync.PoolHandsOutBatch | backend/engine/core/book_resync_runtime.py:118-152 | However the workers interleave, each symbol of the batch goes to exactly one of them |
| BookResync.AttemptsInFlight | backend/engine/core/book_resync_runtime.py:118-152 | From the start of a pool to its end, attempts in flight are for different symbols and at most max(1, concurrency) |
| BookResync.StepUsesWork | backend/engine/core/book_resync_runtime.py:72-83 | Every step without a new report uses up work, so the flush loop ends |
| BookResync.FlushNeverStuck | backend/engine/core/book_resync_runtime.py:72-83 | While a debounce task exists it can take a step |
| BookResync.WhereReportsGo | backend/engine/core/book_resync_runtime.py:60-83 | On every run with any cancellations each reported symbol has had an attempt that started after the report, is pending, is in the task's batch, or was taken by a cancellation after the report; without a task nothing is pending but what a cancellation left, and only until the next report |
| BookResync.NothingLostIff | backend/engine/core/book_resync_runtime.py:60-83 | Whatever was cancelled before, whenever no debounce task runs nothing is pending and every report had its attempt if and only if the last step did not leave symbols pending and every symbol a cancellation took had attempts after all its reports |
| BookResync.CancelLosesNothingIff | backend/engine/core/book_resync_runtime.py:155-166 | Right after a cancellation that holds if and only if nothing was pending, every symbol the task had still to attempt had an attempt after its last report, and so had what earlier cancellations took |
| BookResync.CancellationLosesABatch | backend/engine/core/book_resync_runtime.py:155-166 | A concrete run in which a cancelled task takes its batch with it |
| BookResync.CancellationLeavesPending | backend/engine/core/book_resync_runtime.py:155-166 | A concrete run in which a task cancelled while it sleeps leaves a symbol pending, and only a new report can take it up |
| Attribution.AttributionTelescopes | backend/engine/core/engine.py:2260-2285 | Over any fills the deltas of a strategy sum to its intent times min(1, filled / parent quantity) |
| Attribution.NeverBeyondIntent | backend/engine/core/engine.py:2260-2285 | A strategy never gets more than it intended, nor the opposite sign, even on overfill |
| Attribution.NearlyAllWhenDropped | backend/engine/core/engine.py:2287-2302 | When the bookkeeping is dropped it has its intent to within one part in 1e9 |
| Attribution.LedgerMoves | backend/engine/core/engine.py:2260-2285 | The ledger total moves by the intents that are not dust times the fraction |
| Attribution.LedgerFollowsVenue | backend/engine/core/engine.py:2199-2285 | If intents sum to the signed parent quantity, the ledger total moves by the signed venue fill capped at the parent, exactly when the dust intents sum to zero or nothing was filled |
| Attribution.Engine.OnFills | backend/engine/core/engine.py:2106-2111 | Over any fills of several parents interleaved, each recorded and its parent finalized when complete: every ledger position has moved by the intents of each netted parent times the fraction it advanced by its own fills up to completion, and by the fills outside netting; a parent is in the books exactly until it is complete |
| Attribution.FollowIsOwnRun | backend/engine/core/engine.py:2260-2302 | Interleaving with other parents' fills makes no difference to a parent's progress |
| Attribution.ContributionIsDeltas | backend/engine/core/engine.py:2260-2285 | What a fresh parent contributes to a position in such a run is the sum of the deltas of its counted fills |
| Attribution.Engine.RecordFill | backend/engine/core/engine.py:2199-2236 | A fill of a known netted parent advances that parent's progress and credits every intent by it; other fills go to one strategy |
| Attribution.Engine.ApplyAttributedDelta | backend/engine/core/engine.py:2260-2285 | Only the fill's parent and symbol move |
| Attribution.Engine.FinalizeIfComplete | backend/engine/core/engine.py:2287-2302 | The bookkeeping of a parent is dropped exactly when it is complete |
| Simulator.AverageCostIdentity | backend/analytics/backtest/simulator.py:61-130 | Over any orders whose reduce-only ones oppose the position, fill PnL equals entry times position minus money paid, and position equals the signed fills, both up to what the dust cut removed; an entry is recorded exactly for open symbols |
| Simulator.PositionIdentityIff | backend/analytics/backtest/simulator.py:61-130 | From no position, the position identity holds after every order of a run if and only if every reduce-only order opposes the position it meets |
| Simulator.CostIdentityIff | backend/analytics/backtest/simulator.py:61-130 | The cost identity does if and only if every reduce-only order on its position's own side is free |
| Simulator.StepKeepsPositionIff | backend/analytics/backtest/simulator.py:72-88 | A fill keeps the position identity exactly when it is not a reduce-only order on the position's own side |
| Simulator.StepKeepsCostIff | backend/analytics/backtest/simulator.py:72-88 | It keeps the cost identity exactly when it is not such an order or its price is zero |
| Simulator.ReduceOnlyBuyOnLong | backend/analytics/backtest/simulator.py:72-80 | Buying reduce-only on a long books a buy while the position shrinks |
| Simulator.CloseNeverFlips | backend/analytics/backtest/simulator.py:72-88 | A close moves the position towards zero and never across |
| Simulator.RoundTripLoses | backend/analytics/backtest/simulator.py:49-88 | Opening and closing any position at one mark loses the slippage on it twice and nothing else |
| Simulator.SlippageIsAgainst | backend/analytics/backtest/simulator.py:61-64 | A buy pays the slippage above the mark, a sell gets it below |
| Simulator.DustIsSmall | backend/analytics/backtest/simulator.py:86-88 | The dust cut removes at most 1e-12 of quantity per order |
| Simulator.FillSimulator.FillOne | backend/analytics/backtest/simulator.py:61-130 | One fill moves its symbol's leg and cash by the modelled execution, records it, and leaves all other symbols alone |
| Simulator.FillSimulator.ApplySignals | backend/analytics/backtest/simulator.py:49-59 | Each symbol's leg and the totals of its new fills are those of its own signals in order, those without a positive mark skipped; the cash moves by the new fills; from no positions the new fills satisfy the average-cost identities whenever every reduce-only order opposed its position |
| PnlReport.RunConserves | backend/analytics/strategy_pnl_report.py:136-185 | For any fills and metadata, PnL attributed over all strategies equals the close PnL sum and the sum of all PnL present, and realized equals attributed per row |
| PnlReport.MergingConserves | backend/analytics/strategy_pnl_report.py:188-220 | Merging any runs keeps those equalities |
| PnlReport.SharesSumToPnl | backend/analytics/strategy_pnl_report.py:172-183 | However a fill is split, its shares sum to its PnL |
| PnlReport.SharesFollowIntents | backend/analytics/strategy_pnl_report.py:119-123 | A strategy's share of a netted fill is proportional to the size of its intent |
| PnlReport.StrategyGetsItsShares | backend/analytics/strategy_pnl_report.py:126-183 | Each strategy ends with exactly the sum of its shares |
| PnlReport.WhoGetsAFill | backend/analytics/strategy_pnl_report.py:93-116 | The id prefix decides first, then the fill's own tag, then its parent's, then notes of a risk exit; the rest is netted or unknown |
| PnlReport.WhoseContributions | backend/analytics/strategy_pnl_report.py:144-183 | A fill's own contributions count before those of its parent |
| PnlReport.WeightsSumToOne | backend/analytics/strategy_pnl_report.py:119-123 | Contribution weights sum to one whenever there are any |
| PnlReport.AnalyzeRun | backend/analytics/strategy_pnl_report.py:136-185 | The loop over a run's fills books exactly the modelled figures; no report without a fills file |
| PnlReport.RunReport.AddFill | backend/analytics/strategy_pnl_report.py:144-183 | One fill updates counts, sums, the unattributed total and the rows of its strategies |
| PnlReport.AnalyzeAll | backend/analytics/strategy_pnl_report.py:200-220 | The aggregate is the merge of the scanned runs, with the counts of folders and of folders with fills |
| PnlReport.AggregateReport.MergeRows | backend/analytics/strategy_pnl_report.py:188-197 | Rows are added strategy by strategy |
| TakerShare.SharesAreNaive | backend/analytics/orderbook_analyzer.py:65-87 | For trades of positive size whose old ones leave in order there is one share per trade, each the buy volume over the total volume of exactly the trades so far no older than the window, between 0 and 1 |
| TakerShare.DequeHoldsTheWindowIff | backend/analytics/orderbook_analyzer.py:80-84 | After every trade the deque is exactly that window if and only if, for every window, the trades too old for it are the first ones and stay too old later, as on time-sorted trades |
| TakerShare.UnsortedTradesDiffer | backend/analytics/orderbook_analyzer.py:80-84 | A concrete trade out of order keeps an older one in the deque |
| TakerShare.RollingTakerBuyShare | backend/analytics/orderbook_analyzer.py:65-87 | The running sums are the volumes of the deque at every emission, and trades are evicted in order, each at most once |

## Left out

- REST and websocket gateways, routes, React components, process supervision, logging and command-line entry points: input, output and wiring.
- Rounding of floating-point arithmetic: quantities and prices are reals throughout.
- `QuoteExecutor.seed_sessions_from_oms`: adopts orders at startup with level index 0 for all, so distinct levels would not hold; runs start from empty sessions.
- Concurrent calls into one quote executor: refreshes and cancels are taken one after the other, with venue events in between.
- Sizing of quotes (`_size_quote_qty`): an arbitrary function of symbol, size, price and the reduce-only flag, so floors that raise a ladder level's size are not bounded.
- The aggregate levels pushed to the own-quote book after a refresh, and the reject callback.
- Upper-casing of symbols: symbols are taken as already normalised.
- Reduce-only VWAP parents and the clawback order after a -2022 reject: that order is sized from the venue position, not the parent.
- Choosing the passive price of a slice (book, collar, percent band): the executor takes it, and the collar's verdict, as inputs per slice.
- VwapExecutor.RunParent: the number of polls before a timeout is arbitrary, because clock values are not modelled.
- Timestamps and durations of execution reports.
- Order-dependent and cosmetic console state under coalescing: log order, equity-curve points, hub log lines and system health are an arbitrary part of the state that coalescing may change.
- The derived execution aggregate, REST hydrate and its change detection.
- Coalescing.CoalescingKeepsMeaning: compares positions symbol by symbol, because the order of the position rows may change.
- Column filling and type conversion in `_normalize_df`, the merge lock's clock (a waiting process may give up at any time), and the manifest, which is written outside the lock.
- Stopping the journal writer, whose last events may be published while it flushes and then stay in a dropped queue; attaching a second journal; failing appends.
- The gap-resync path, which has no re-check loop, and per-symbol snapshot timeouts.
- Attribution.LedgerFollowsVenue: sums the deltas the engine sends; the position ledger's own 1e-12 cut and the recalculation of fill VWAP are not modelled.
- Cash and equity conservation in the simulator: opens debit the notional and closes credit only PnL, so it does not hold.
- Simulator.FillSimulator.ApplySignals: takes the signals in the order in which they are processed; sorting by group and symbol is not modelled.
- Reading run archives and rendering the report: fills and metadata come as records.
- Paging of trades in the order-book analyser, statistics, and JSON formats.
- Order and position reconcilers, circuit breaker internals, strategies, signal netting and depth sequencing.
