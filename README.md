# Paradex BTC round-trip scalper: a Dafny model of its trading core

`scalper.py` runs a market-order round-trip strategy on the BTC perpetual.
A cycle opens a position with one market order and closes it at once with a
second order on the other side. The core that decides whether and how to
trade is modelled here and proved against its specifications:

- **`RateLimiter`** (module `RateLimiting`, `rate_limiter.dfy`). It holds
  three sliding windows (minute, hour, day) of order timestamps. Before every
  check it prunes each window from the front. It then tests the windows
  tightest first and reports the window that blocks and the wait until that
  window's oldest order leaves it.
- **`LatencyTracker`** (`latency.dfy`). It holds a bounded history of cycle
  latencies (capacity 5, oldest dropped first) and the latest feed age. It
  reports min, average and max, or zeros when the history is empty.
- **`BalancePnLTracker`** (`pnl.dfy`). It accepts only strictly positive
  balance samples. Realised PnL is the current balance minus the initial one.
  The cost rate is `|pnl| / volume`, scaled per ten thousand, hundred thousand
  and million of notional, and is zero before anything has traded.
- **`WebSocketScalper`** (`market.dfy`, `orchestration.dfy`, `scalper.dfy`):
  - the BBO snapshot built by the feed callback;
  - the direction rule (a tie goes LONG);
  - the two-leg cycle (LONG buys then sells, SHORT sells then buys);
  - one pass of the main loop: the stop checks, the balance floor, the entry
    gate over rate limit, freshness, spread and depth, and the cycle
    counters;
  - the loop itself, start-up and shutdown.

Everything the code gets from the outside world is an input:
- the clock;
- the balance query, where a sample of zero or less means the query failed;
- each order leg, which either returns or raises;
- the session-token refresh, which may raise;
- the emergency-stop file;
- the operator's stop key;
- the feed messages.

One pass of the main loop receives all of these in an `Orchestration.Tick`
record, so each pass is a deterministic state change of the
`WebSocketScalper` object and its three tracker objects.

The mutable objects are classes whose methods say exactly what they change.
Their specifications are pure functions:
- `RateLimiting.Pruned` and `RateLimiting.Check` for the limiter;
- `Latency.LastN`, `Latency.Min`, `Latency.Max` and `Latency.Mean` for the
  latency history;
- `PnL.CostRate` for the cost metric;
- `Market.Snapshot` and `Market.DecideDirection` for the feed snapshot and
  the direction;
- for the orchestrator, the functions of module `Orchestration` over
  `Orchestration.View`, the orchestrator's observable state (its counters,
  running flag, last direction, snapshot and cycle-time history, and what
  the three trackers hold). `WebSocketScalper.State()` reads that state off
  the objects:
  - `StopCheck`, `EntryGate` and `LegStamps` are the loop's decisions;
  - `Delivered` is the feed callback;
  - `Pass` is one pass of the main loop, built from `Proceeded` (balance
    sample and floor), `Attempt` (gate) and `CycleResult` (the cycle and its
    bookkeeping);
  - `Loop` is the main loop over a finite sequence of ticks.

Each method of `WebSocketScalper` ensures that its result and its new
`State()` are what the corresponding function gives for the old `State()`
(`Iterate` is `Pass`, `MainLoop` is `Loop`, and so on). The properties of the
loop are proved as lemmas about `Pass` and `Loop`.

`WebSocketScalper.Valid()` is the invariant every operation preserves. It
says:
- the three trackers are consistent, and the latency history has capacity 5;
- every counted cycle was a successful one, booked once as LONG or SHORT
  (`Orchestration.Consistent`);
- neither the cycle budget nor the failure ceiling is overrun;
- every limiter window holds at most one order above its ceiling, and its
  timestamps are in clock order;
- one cycle latency has been recorded per successful cycle.

The clock is taken never to run backwards: within a tick the pass starts,
then the first leg returns, then the second (`Orchestration.Chronological`),
and each tick starts no earlier than the previous one's last leg
(`Orchestration.ClockOrdered`). Under that assumption the limiter's queues
stay in clock order, so after every check each window holds only timestamps
inside that window.

Three points where the code does something other than what its headline
behaviour suggests; the model follows the code:

- **Window capacity.** The module docstring lists the rate limits as 30
  orders a minute, 300 an hour and 1000 a day (scalper.py:8). The code checks
  for one free slot and then records two orders (scalper.py:111-123,
  571-581). A window with one free slot therefore ends one above its ceiling,
  for example 31 orders in the minute window against a ceiling of 30. The
  model proves the bound the code does keep, limit + 1, and that limit + 1 is
  actually reached (`RateLimiting.CycleAfterAllowedOvershootsByAtMostOne`).
- **Order of the stop checks.** The loop tests the running flag and the cycle
  budget first (the loop guard), then the emergency file, then the failure
  ceiling, and the balance floor only later in the pass (scalper.py:484-502).
  `Orchestration.StopCheck` uses that order.
- **Errors in a pass.** An exception caught by the loop increments only
  `consecutive_failures`, not `failed_cycles` (scalper.py:562-564), so it
  is not a failed cycle. An order leg that raises is caught inside
  `execute_cycle` and does count as a failed cycle (scalper.py:585-587,
  558-560).

## Model

| member | source | states |
|---|---|---|
| Market.DecideDirection | scalper.py:427-428 | LONG exactly when the bid size is at least the ask size, SHORT exactly when it is smaller, so a tie goes LONG |
| Market.DirectionMirrorsBook | scalper.py:427-428 | on a book that is not tied, swapping the two sizes swaps the direction |
| Market.Legs | scalper.py:570-581 | the two legs of a cycle are on opposite sides, and the first leg is BUY exactly for LONG |
| Market.Snapshot | scalper.py:315-324 | the snapshot copies the prices and sizes and stamps the arrival time; its mid is positive and is the average of bid and ask; spread × mid = (ask − bid) × 100; the spread is non-negative exactly when bid ≤ ask and zero exactly when bid = ask; a non-crossed book has its mid between bid and ask |
| Market.Usable | scalper.py:315 | a quote may replace the snapshot exactly when it is a parsed quote with both prices strictly positive |
| RateLimiting.Pruned | scalper.py:104-109 | pruning removes only a prefix, every removed entry is strictly older than the window, and the first kept entry is at most the window's width old (the boundary case stays) |
| RateLimiting.PrunedStopsAtFirstFresh | scalper.py:104-109 | pruning keeps exactly the suffix from the first entry inside the window, whatever comes after it |
| RateLimiting.PrunedIdempotent | scalper.py:104-109 | pruning a pruned queue again at the same time changes nothing |
| RateLimiting.PrunedWithinSpan | scalper.py:104-109 | on a queue in clock order, every kept timestamp is at most the window's width older than now |
| RateLimiting.PrunedSorted | scalper.py:104-109 | pruning keeps clock order |
| RateLimiting.PruneAll | scalper.py:104-109 | the three queues pruned at `now`, each against its own window; its properties are stated by the lemmas below |
| RateLimiting.PruneAllPrunesEachWindow | scalper.py:104-109 | each of the three queues is pruned against its own window: 60, 3600 and 86400 seconds |
| RateLimiting.PruneAllSorted | scalper.py:104-109 | pruning the three queues keeps each of them in clock order |
| RateLimiting.PruneAllWithinSpans | scalper.py:104-109 | on queues in clock order, after pruning at `now` every timestamp left in a window is at most 60, 3600 or 86400 s older than `now`, that window's width |
| RateLimiting.PrunedAtMost | scalper.py:104-109 | pruning adds no timestamp later than those already held |
| RateLimiting.PruningKeepsNoneAfter | scalper.py:104-109 | if no queue holds a timestamp later than a clock reading, none does after pruning |
| RateLimiting.AppendKeepsNoneAfter | scalper.py:119-123 | recording timestamps no later than a clock reading keeps every entry no later than it |
| RateLimiting.PruningKeepsWithinOne | scalper.py:104-109 | pruning only removes entries, so a window at most one above its ceiling stays so |
| RateLimiting.Check | scalper.py:111-117 | allowed exactly when every window is below its ceiling; a blocking window is at its ceiling, every tighter window is below its own, and the wait is the window width minus the age of that window's oldest entry |
| RateLimiting.PrunedHeadWait | scalper.py:104-116 | the oldest entry left after pruning leaves its window after a non-negative wait, at most the window's width when that entry is not in the future |
| RateLimiting.WaitWithinWindow | scalper.py:104-116 | checked right after pruning, the wait is never negative, and it is at most the window's width when the oldest kept entry is not in the future |
| RateLimiting.CycleAfterAllowedOvershootsByAtMostOne | scalper.py:111-123 | after an allowed check and up to two recorded legs, every window holds at most its ceiling + 1, and exactly ceiling + 1 when both legs go into a window that had one free slot |
| RateLimiting.AppendKeepsSorted | scalper.py:119-123 | recording at a time no earlier than the newest entry keeps a queue in clock order |
| RateLimiting.PruneFront | scalper.py:104-109 | the dequeue loop over one queue: it drops entries from the front while they are older than the window, and ends with exactly `Pruned` of the queue |
| RateLimiting.RateLimiter.constructor | scalper.py:94-100 | stores the three ceilings and starts with three empty queues |
| RateLimiting.RateLimiter.CanPlaceOrder | scalper.py:102-117 | the queues become their pruned versions at `now`, still in clock order; every timestamp left in a window is within that window's width of `now`; the verdict is `Check` over the pruned queues |
| RateLimiting.RateLimiter.RecordOrder | scalper.py:119-123 | the same timestamp is appended to all three queues, the ceilings are not consulted, and a timestamp no earlier than any held keeps every queue in clock order |
| Latency.Min | scalper.py:148 | the minimum is one of the held values and bounds all of them from below |
| Latency.Max | scalper.py:149 | the maximum is one of the held values and bounds all of them from above |
| Latency.Mean | scalper.py:147 | the sum of a non-empty history divided by its length; `AverageBetween` bounds it |
| Latency.Sum | scalper.py:147 | the sum of the held values, left to right, which `Mean` divides by the count |
| Latency.AverageBetween | scalper.py:147-149 | the average of a non-empty history lies between its minimum and its maximum |
| Latency.LastN | scalper.py:132 | a bounded history holds exactly min(capacity, entries appended) values, all of them when there are no more than the capacity, and they are the newest part of what was appended, in order |
| Latency.LastNOfAppend | scalper.py:132-136 | appending to the bounded history and then dropping the oldest is the same as keeping the newest entries of the full record |
| Latency.LatencyTracker.constructor | scalper.py:131-133 | an empty history of the given capacity and a feed age of zero |
| Latency.LatencyTracker.RecordCycleLatency | scalper.py:135-136 | appends to the bounded history, dropping the oldest at capacity, and keeps the history equal to the newest entries of everything recorded; the feed age is untouched |
| Latency.LatencyTracker.UpdateWsLatency | scalper.py:138-139 | overwrites the feed age and leaves the history alone |
| Latency.LatencyTracker.GetStats | scalper.py:141-151 | zeros (with the feed age) for an empty history; otherwise min and max are held values that bound every entry, avg is their mean, and min ≤ avg ≤ max |
| Latency.HistoryIsNewest | scalper.py:132-136 | the history never holds more than its capacity, and after at least that many records it holds exactly the newest ones |
| PnL.CostRate | scalper.py:196-203 | zero when nothing has traded; otherwise rate × volume = abs(pnl), and the rate is non-negative for positive volume |
| PnL.CostRateScalesWithPnl | scalper.py:203 | for a fixed volume the cost rate is proportional to the magnitude of the PnL |
| PnL.BalancePnLTracker.constructor | scalper.py:161-167 | all balances, the volume and both direction counts start at zero |
| PnL.BalancePnLTracker.SetInitialBalance | scalper.py:169-175 | succeeds exactly for a positive sample, which then becomes the initial, current and last valid balance; a rejected sample changes nothing |
| PnL.BalancePnLTracker.UpdateBalance | scalper.py:177-182 | succeeds exactly for a positive sample, which then becomes the current and last valid balance; a rejected sample changes nothing |
| PnL.BalancePnLTracker.RecordCycleVolume | scalper.py:184-189 | adds price × size × 2 to the volume and counts the cycle as LONG or SHORT, so long + short grows by exactly one |
| PnL.RoundTripNotional | scalper.py:185 | the notional of one cycle: both legs of the given size at the given price, price × size × 2 |
| PnL.BalancePnLTracker.GetRealPnl | scalper.py:191-192 | initial balance + pnl = current balance |
| PnL.BalancePnLTracker.GetStats | scalper.py:194-211 | reports the PnL, balances and counts; zero per-10k, per-100k and per-million figures before anything has traded; otherwise per10k × volume = abs(pnl) × 10000, per-100k = 10 × per-10k and per-million = 100 × per-10k |
| Orchestration.StopCheck | scalper.py:484-488 | no stop exactly when the loop is running, under its cycle budget, without the emergency file and under the failure ceiling; each reason is reported exactly under its condition, in the loop's order |
| Orchestration.EntryGate | scalper.py:521-536 | trades exactly when the limiter allows, the snapshot is at most 1 s old, the spread is within the limit and both sizes reach the minimum depth, in the direction the direction rule picks; a block reports the limiter's window and wait |
| Orchestration.LegStamps | scalper.py:568-581 | one limiter timestamp per leg that returned; the second leg is only tried after the first returned |
| Orchestration.Delivered | scalper.py:306-324 | the feed callback over the whole state: a usable quote becomes the snapshot (properties in `DeliveryOnlyMovesSnapshot`) |
| Orchestration.Started | scalper.py:445-455 | start-up with an accepted initial balance: it is the starting and the current balance, and the loop runs |
| Orchestration.Booked | scalper.py:552-555 | a balance answer becomes the current balance only when positive |
| Orchestration.BalanceTooLow | scalper.py:493-499 | the floor condition: a sample is due (more than 10 s since the last accepted one), positive, and below 10 |
| Orchestration.SampleDue | scalper.py:494 | the periodic sample is due when strictly more than 10 s have passed since the last accepted one |
| Orchestration.SampleTaken | scalper.py:494-496 | a due sample is accepted, and so booked, exactly when it is positive |
| Orchestration.Sampled | scalper.py:493-498 | the periodic sample: due and positive, it becomes the current balance |
| Orchestration.SampledAt | scalper.py:493-498 | the loop's record of the last accepted sample moves to `now` exactly when the sample was taken |
| Orchestration.GateDecision | scalper.py:504-536 | the entry gate over the limiter's verdict after pruning at `now` and the age of the snapshot at `now` |
| Orchestration.Gated | scalper.py:504-510 | the limiter is pruned at `now` and the feed age is noted in milliseconds |
| Orchestration.Traded | scalper.py:583 | both legs' notional added to the volume and one cycle counted under its direction |
| Orchestration.Succeeded | scalper.py:543-549 | the counters of a success, both bounded histories and the last direction |
| Orchestration.CycleResult | scalper.py:536-560 | a cycle: the leg stamps go to the limiter, then the success bookkeeping with the post-cycle sample or the failure counters (properties in `CycleBookkeeping`) |
| Orchestration.Attempt | scalper.py:504-560 | the gate, and the cycle when it opens; otherwise the pass is skipped with the gate's reason |
| Orchestration.Proceeded | scalper.py:493-560 | the balance sample and floor, then `Attempt` |
| Orchestration.Pass | scalper.py:484-566 | one pass: the stop key, the stop checks, a raising refresh, then `Proceeded` (properties in the `Pass…` lemmas) |
| Orchestration.PassStop | scalper.py:484-488 | the stop checks of a pass with the stop key folded into the running flag |
| Orchestration.Consistent | scalper.py:484-560 | the counter invariant: cycles counted only on success, within the budget, the failure streak within its ceiling, long + short = successes, at most 5 recent cycle times |
| Orchestration.Counters.AfterSuccess | scalper.py:544-546 | a success adds one to the cycle count and to the success count, zeroes the failure streak, and leaves the failed count |
| Orchestration.Counters.AfterFailure | scalper.py:559-560 | a failed cycle adds one to the failed count and to the failure streak, and leaves the cycle and success counts |
| Orchestration.Counters.AfterFault | scalper.py:562-564 | an exception in a pass adds one to the failure streak only |
| Orchestration.Loop | scalper.py:481-566 | the loop over a finite sequence of ticks: deliver the tick's quote, run a pass, and end at the first pass that stops (properties in `LoopProgress` and `LoopStopsAtCeilings`) |
| Orchestration.DeliveryOnlyMovesSnapshot | scalper.py:306-324 | the feed callback changes nothing but the snapshot; a usable quote becomes the snapshot, prices, sizes and arrival time included, and anything else is dropped |
| Orchestration.PassStopChecks | scalper.py:484-488 | a stop reason (the stop key included) ends the pass with nothing changed but the running flag; any stop other than the balance floor comes from these checks; the stop key, the emergency file, an exhausted budget and a full failure streak each stop the pass |
| Orchestration.PassFaults | scalper.py:490-564 | a pass faults exactly when the checks pass and the token refresh raises, and a fault only grows the failure streak |
| Orchestration.PassBalanceFloor | scalper.py:493-502 | a pass stops on the floor exactly when the checks pass, the refresh does not raise and a due, positive sample is below 10; that sample is booked, the check time moves to now and the loop is marked stopped, and nothing else changes |
| Orchestration.PassFollowsGate | scalper.py:504-536 | a pass reaches the gate exactly when nothing before stopped or faulted it; it then does what `EntryGate` decides over the freshly pruned limiter and notes the feed age in milliseconds; a skipped pass changes only the sample, the pruned limiter and the feed age |
| Orchestration.PassCycle | scalper.py:536-587 | a cycle adds one limiter timestamp per returned leg to the pruned queues, succeeds exactly when both legs return, and moves the counters for a success or a failure |
| Orchestration.CycleBookkeeping | scalper.py:539-587 | a cycle keeps the snapshot, the feed age, the running flag and the starting balance; a success moves the counters, both histories, the last direction, the volume (both legs at the mid price), the direction counts and, for a positive sample, the balance and its check time; a failure moves only the failure counters and the limiter |
| Orchestration.PassSuccessHistories | scalper.py:543-549 | a successful cycle pushes its duration onto the cycle-time history and its latency in milliseconds onto the latency history, both bounded at 5, and remembers its direction |
| Orchestration.PassSuccessBooks | scalper.py:552-583 | a successful cycle books price × size × 2 at the snapshot's mid price, counts one more LONG or SHORT, and a positive post-cycle sample becomes the balance with its timestamp as the check time |
| Orchestration.PassOtherwiseUnchanged | scalper.py:484-566 | every pass without a successful cycle leaves the histories, the last direction, the volume and the direction counts as they were |
| Orchestration.PassKeepsSnapshot | scalper.py:484-566 | no pass changes the starting balance or the snapshot |
| Orchestration.PassCountsAtMostOne | scalper.py:543-546 | a pass counts at most one cycle, and exactly one when its cycle succeeded |
| Orchestration.PassKeepsConsistent | scalper.py:484-560 | every pass keeps each counted cycle a successful one booked once as LONG or SHORT, keeps the cycle budget and the failure ceiling from being overrun, and keeps the cycle-time history within 5 |
| Orchestration.CycleKeepsInvariant | scalper.py:504-560 | a cycle after an allowed check under both ceilings keeps the counters consistent and every limiter window within one of its ceiling |
| Orchestration.PassKeepsWithinOne | scalper.py:504-539 | every pass keeps each limiter window at most one order above its ceiling |
| Orchestration.PassStampsNoLater | scalper.py:504-583 | with the clock running forward, a pass leaves no limiter timestamp later than its last leg, so the next pass finds the queues in clock order |
| Orchestration.LoopFrom | scalper.py:484-566 | the loop from a tick on is the pass on that tick and, unless it stopped, the loop from the next |
| Orchestration.LoopProgress | scalper.py:481-566 | the loop uses at most all ticks, all of them when it does not stop, and at least one when it does; it counts at most one cycle per used tick, keeps the counters consistent, and never runs past a tick with the stop key or the emergency file |
| Orchestration.LoopStopsAtCeilings | scalper.py:484-502 | a budget stop leaves the cycle count exactly at the budget, a failure stop leaves the streak exactly at the ceiling, and a floor stop leaves the loop stopped with the balance below 10 |
| Scalper.WebSocketScalper.constructor | scalper.py:249-272 | ceilings 30/300/1000, fresh trackers, zero counters, not running, the initial snapshot, empty histories and zero balances |
| Scalper.WebSocketScalper.Start | scalper.py:445-456 | the loop starts exactly when the initial balance is positive; that balance becomes the initial and current balance; a failed start changes nothing |
| Scalper.WebSocketScalper.OnBboUpdate | scalper.py:306-326 | the new state is `Delivered` of the old one: a quote with both prices positive replaces the snapshot with `Snapshot` of it, anything else leaves it unchanged |
| Scalper.WebSocketScalper.ExecuteCycle | scalper.py:568-587 | success exactly when both legs return; the legs go out in `Legs` order and the second only after the first returned; one limiter record per returned leg; the volume and direction count are booked only on success |
| Scalper.WebSocketScalper.SampleBalance | scalper.py:493-502 | the new state is `Sampled` of the old: a sample is taken when more than 10 s passed since the last accepted one and accepted when positive, which moves the check time; low exactly when an accepted sample is below 10 |
| Scalper.WebSocketScalper.Gate | scalper.py:504-536 | the new state is `Gated` of the old (limiter pruned, feed age noted in milliseconds); every timestamp left in a window is inside it; the decision is `EntryGate` over the limiter's verdict and the snapshot |
| Scalper.WebSocketScalper.RecordSuccess | scalper.py:543-555 | the new state is `Succeeded` of the old with a positive post-cycle sample `Booked`: counters, both bounded histories, the last direction, the balance and the check time; the cycle's latency in milliseconds is added to the record of all cycle latencies |
| Scalper.WebSocketScalper.RecordFailure | scalper.py:558-560 | a failed cycle moves only the failed-cycle count and the failure streak, each by one |
| Scalper.WebSocketScalper.RunCycle | scalper.py:536-560 | outcome and new state are `CycleResult` of the old state, the invariant is kept, and a successful cycle adds its latency to the latency record |
| Scalper.WebSocketScalper.TryCycle | scalper.py:504-560 | outcome and new state are `Attempt` of the old state, the invariant is kept, and a successful cycle adds its latency to the latency record |
| Scalper.WebSocketScalper.Proceed | scalper.py:493-560 | outcome and new state are `Proceeded` of the old state, the invariant is kept, and a successful cycle adds its latency to the latency record |
| Scalper.WebSocketScalper.Iterate | scalper.py:484-566 | outcome and new state are `Pass` of the old state, the invariant is kept, and a successful cycle adds its latency to the latency record |
| Scalper.WebSocketScalper.Step | scalper.py:484-566 | outcome and new state are `Pass` after `Delivered`, the invariant is kept, and a successful cycle adds its latency to the latency record |
| Scalper.WebSocketScalper.MainLoop | scalper.py:481-566 | stop reason, new state and the number of ticks used are `Loop` of the old state, and the invariant is kept |
| Scalper.WebSocketScalper.Shutdown | scalper.py:589-598 | the loop is marked stopped, a positive final sample is booked, and the two reports are exactly the trackers' final statistics (`BalancePnLTracker.GetStats` and `LatencyTracker.GetStats` of the new state); besides, long + short is the number of successful cycles, and the latency report holds the newest of the cycle latencies recorded, one per successful cycle, min(5, successful cycles) of them |
| Scalper.WebSocketScalper.Run | scalper.py:445-478 | a failed start changes nothing and reports nothing; a successful one runs `Loop` from the started state, then shuts down, and its report is exactly the PnL and latency trackers' final statistics |

## Left out

- Terminal rendering (`FixedPanel`, `update_display`, `format_recent`) and the limiter's `get_counts`, which only feeds the display: these produce no state the core reads.
- Connecting, authentication and the token refresh run over the exchange client, which is not part of this model. A refresh is modelled only as "it raised or it did not".
- `get_account_balance` and `place_market_order` are calls to the exchange client. They appear as inputs: a balance sample, where zero or less means failure, and a leg outcome.
- The keyboard-listener thread, every `asyncio.sleep`, and the feed callback running concurrently with the loop are left out. Each tick delivers at most one feed message before its pass, and the stop key is a flag of the tick.
- The fill-history reconciliation and the printing in `shutdown` are I/O and reporting only.
- Logging and console output in the core (the parse-error log at scalper.py:326, the cycle and error logs at 557, 563 and 586, and the start-up banner at 430-453) produce no state the core reads. A `KeyboardInterrupt` raised inside `main_loop` (scalper.py:476-477) can end a pass part-way before `shutdown`; the model stops only between passes, through the stop key, the running flag and the other stop checks.
- Python floats and `time.time()` are modelled as exact reals: IEEE rounding is not modelled.
- The configuration file values (`MAX_CYCLES`, `MAX_SPREAD_PERCENT`, `MAX_CONSECUTIVE_FAILURES`, `ORDER_SIZE_BTC`) are parameters in `Orchestration.Config`. The fixed constants (30/300/1000 orders, 0.006 BTC depth, 1 s feed age, 10 s balance interval, balance floor 10) are written out.
- The window names the limiter reports ("分钟", "小时", "24h") are modelled as the `Window` enumeration.
- RateLimiting.RateLimiter.constructor: requires positive ceilings. With a ceiling of zero or less the code would read the oldest entry of an empty queue and raise.
- RateLimiting.RateLimiter.CanPlaceOrder: `now` is the pass's clock reading. The code reads the clock again inside `can_place_order`, and also inside `record_order`, whose timestamps are the tick's leg times.
- The outside world is a finite sequence of ticks, so the model follows the loop up to the end of that sequence, not forever.
- RateLimiting.RateLimiter.RecordOrder: requires the timestamp to be no earlier than every one already held. The code reads `time.time()`, which is taken as never stepping backwards; a wall-clock step backwards is not modelled.
- Scalper.WebSocketScalper.MainLoop: requires the ticks' clock readings in order (`Orchestration.ClockOrdered`), for the same reason; `Iterate`, `Step`, `Proceed`, `TryCycle`, `RunCycle`, `ExecuteCycle` and `Run` carry the same requirement for their tick.
- Orchestration.ClockOrdered: orders each pass's start and its two leg times, but leaves a quote's arrival time (`last_update`, scalper.py:323) and the post-cycle balance-check time (`last_balance_check`, scalper.py:555) unconstrained, so the model admits a quote stamped after the pass that reads it and a check time later than the next pass; no proved property depends on these two readings being in order.
- Scalper.WebSocketScalper.Iterate: reaching the stop key and stopping on it are modelled as one pass. The code notices the flag at the next loop test; the resulting state is the same.
- Scalper.WebSocketScalper.RecordSuccess: `last_direction` is modelled as the direction; the code stores the display label for it.
- Scalper.WebSocketScalper.OnBboUpdate: an exception raised while parsing is the message kind `Unparsable`. A missing field reads as zero, as in the code.
