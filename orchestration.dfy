/** The decision logic of one pass of the scalper's main loop, and of the
    loop over a sequence of passes, as pure functions over the orchestrator's
    observable state (scalper.py, `WebSocketScalper.main_loop`,
    `execute_cycle`, `on_bbo_update`). The clock, the balance query, the order
    legs, the token refresh, the emergency-stop file and the operator's stop
    key are inputs, bundled per pass in a `Tick`. */
module Orchestration {
  import opened Market
  import opened RateLimiting
  import opened Latency
  import opened PnL

  const MAX_ORDERS_PER_MINUTE: int := 30
  const MAX_ORDERS_PER_HOUR: int := 300
  const MAX_ORDERS_PER_DAY: int := 1000
  /** Minimum resting size, in BTC, on both sides of the book. */
  const MIN_DEPTH_BTC: real := 0.006
  /** Oldest snapshot, in seconds, the loop will trade on. */
  const MAX_FEED_AGE: real := 1.0
  /** Seconds between periodic balance samples. */
  const BALANCE_CHECK_INTERVAL: real := 10.0
  /** Balance below which the loop stops. */
  const BALANCE_FLOOR: real := 10.0
  /** Capacity of the recent cycle-time history. */
  const RECENT_CYCLES: nat := 5

  /** The settings the loop reads from the configuration file. */
  datatype Config = Config(
    maxCycles: nat,
    maxSpreadPercent: real,
    maxConsecutiveFailures: nat,
    orderSizeBtc: real)

  datatype Option<T> = None | Some(value: T)

  datatype StopReason =
    | OperatorStop
    | CycleBudgetReached
    | EmergencyStop
    | TooManyFailures
    | LowBalance

  /** The checks at the top of an iteration, in the order the loop makes them:
      the running flag and the cycle budget (the loop guard), then the
      emergency-stop file, then the consecutive-failure ceiling. */
  function StopCheck(running: bool, cycleCount: nat, emergencyStop: bool,
                     consecutiveFailures: nat, cfg: Config): (r: Option<StopReason>)
    ensures r.None? <==>
      running && cycleCount < cfg.maxCycles && !emergencyStop
      && consecutiveFailures < cfg.maxConsecutiveFailures
    ensures r == Some(OperatorStop) <==> !running
    ensures r == Some(CycleBudgetReached) <==> running && cycleCount >= cfg.maxCycles
    ensures r == Some(EmergencyStop) <==> running && cycleCount < cfg.maxCycles && emergencyStop
    ensures r == Some(TooManyFailures) ==> consecutiveFailures >= cfg.maxConsecutiveFailures
    ensures r != Some(LowBalance)
  {
    if !running then Some(OperatorStop)
    else if cycleCount >= cfg.maxCycles then Some(CycleBudgetReached)
    else if emergencyStop then Some(EmergencyStop)
    else if consecutiveFailures >= cfg.maxConsecutiveFailures then Some(TooManyFailures)
    else None
  }

  /** Whether an iteration trades, and if not, why not. */
  datatype Decision =
    | RateLimited(wait: real, window: Window)
    | StaleFeed
    | SpreadTooWide
    | TooThin
    | Trade(direction: Direction)

  /** The entry gate over the limiter's verdict and the snapshot, tested in
      the loop's order: rate limit, freshness, spread, depth. */
  function EntryGate(v: Verdict, age: real, bbo: Bbo, cfg: Config): (d: Decision)
    ensures d.Trade? <==>
      v.Allowed? && age <= MAX_FEED_AGE && bbo.spread <= cfg.maxSpreadPercent
      && bbo.bidSize >= MIN_DEPTH_BTC && bbo.askSize >= MIN_DEPTH_BTC
    ensures d.Trade? ==> d.direction == DecideDirection(bbo.bidSize, bbo.askSize)
    ensures d.RateLimited? <==> v.Blocked?
    ensures d.RateLimited? ==> d.wait == v.wait && d.window == v.window
    ensures d == StaleFeed <==> v.Allowed? && age > MAX_FEED_AGE
    ensures d == SpreadTooWide <==> v.Allowed? && age <= MAX_FEED_AGE && bbo.spread > cfg.maxSpreadPercent
  {
    if v.Blocked? then RateLimited(v.wait, v.window)
    else if age > MAX_FEED_AGE then StaleFeed
    else if bbo.spread > cfg.maxSpreadPercent then SpreadTooWide
    else if bbo.bidSize < MIN_DEPTH_BTC || bbo.askSize < MIN_DEPTH_BTC then TooThin
    else Trade(DecideDirection(bbo.bidSize, bbo.askSize))
  }

  /** What the exchange does with one market order: it returns, or it raises. */
  datatype LegOutcome = Returned | Raised

  /** The timestamps a cycle records with the limiter: one per leg that
      returned, the second leg only tried after the first returned. */
  function LegStamps(first: LegOutcome, firstAt: real, second: LegOutcome, secondAt: real): (ts: seq<real>)
    ensures |ts| <= 2
    ensures ts == [] <==> first.Raised?
    ensures |ts| == 2 <==> first.Returned? && second.Returned?
    ensures ts != [] ==> ts[0] == firstAt
    ensures |ts| == 2 ==> ts[1] == secondAt
  {
    if first.Raised? then [] else if second.Raised? then [firstAt] else [firstAt, secondAt]
  }

  /** Everything the world contributes to one pass of the loop. */
  datatype Tick = Tick(
    quote: BboMessage,          // the feed message delivered before the pass, if any
    quoteAt: real,              // clock reading of its arrival
    stopRequested: bool,        // the operator pressed the stop key
    emergencyStopFile: bool,    // the emergency-stop file exists
    refreshRaises: bool,        // the session-token refresh raised
    now: real,                  // clock reading at the start of the pass
    balance: real,              // periodic balance sample; <= 0 means the query failed
    firstLeg: LegOutcome, firstLegAt: real,
    secondLeg: LegOutcome, secondLegAt: real,
    cycleSeconds: real,         // measured duration of the cycle
    balanceAfterCycle: real,    // balance sample after a successful cycle
    balanceAfterCycleAt: real)

  /** The clock readings of one tick in the order the pass takes them: the
      pass starts, then the first leg returns, then the second. */
  predicate Chronological(t: Tick)
  {
    t.now <= t.firstLegAt <= t.secondLegAt
  }

  /** A clock that never runs backwards, across a whole sequence of ticks. */
  predicate ClockOrdered(ticks: seq<Tick>)
  {
    && (forall i :: 0 <= i < |ticks| ==> Chronological(ticks[i]))
    && (forall i :: 0 <= i < |ticks| - 1 ==> ticks[i].secondLegAt <= ticks[i + 1].now)
  }

  /** How one pass ended. */
  datatype Outcome =
    | Stopped(reason: StopReason)
    | Faulted
    | Skipped(decision: Decision)
    | Cycled(direction: Direction, success: bool)

  /** The four cycle counters of the orchestrator. */
  datatype Counters = Counters(cycles: nat, successful: nat, failed: nat, consecutive: nat) {
    function AfterSuccess(): Counters
    {
      Counters(cycles + 1, successful + 1, failed, 0)
    }
    function AfterFailure(): Counters
    {
      Counters(cycles, successful, failed + 1, consecutive + 1)
    }
    function AfterFault(): Counters
    {
      Counters(cycles, successful, failed, consecutive + 1)
    }
  }

  /** What the PnL tracker holds (its last valid balance is always the
      current one). */
  datatype Books = Books(initial: real, current: real, volume: real, long: nat, short: nat)

  /** The orchestrator's observable state, its three trackers included. */
  datatype View = View(
    counts: Counters,
    running: bool,
    lastDirection: Option<Direction>,
    bbo: Bbo,
    cycleTimes: seq<real>,
    orders: Queues,
    latencies: seq<real>,
    wsLatency: real,
    books: Books)

  /** How a pass ended, the state it left and the loop's new record of the
      last accepted balance sample. */
  datatype PassResult = PassResult(out: Outcome, view: View, lastCheck: real)

  /** The feed callback: a usable quote replaces the snapshot. */
  function Delivered(v: View, m: BboMessage, at: real): View
  {
    v.(bbo := if Usable(m) then Snapshot(m.bid, m.ask, m.bidSize, m.askSize, at) else v.bbo)
  }

  /** The feed callback moves nothing but the snapshot; a usable quote
      becomes the snapshot with its arrival time, anything else is dropped. */
  lemma DeliveryOnlyMovesSnapshot(v: View, m: BboMessage, at: real)
    ensures Delivered(v, m, at).(bbo := v.bbo) == v
    ensures Usable(m) ==>
      var b := Delivered(v, m, at).bbo;
      && b.bid == m.bid && b.ask == m.ask && b.bidSize == m.bidSize && b.askSize == m.askSize
      && b.lastUpdate == at && b.midPrice + b.midPrice == m.bid + m.ask
    ensures !Usable(m) ==> Delivered(v, m, at) == v
  {
  }

  /** Start-up with an accepted initial balance: it is both the starting and
      the current balance, and the loop is marked running. */
  function Started(v: View, balance: real): View
  {
    v.(running := true, books := v.books.(initial := balance, current := balance))
  }

  /** A balance query answer booked as the current balance, if positive. */
  function Booked(v: View, balance: real): View
  {
    v.(books := v.books.(current := if balance > 0.0 then balance else v.books.current))
  }

  /** The periodic sample is due: more than the interval since the last
      accepted one. */
  predicate SampleDue(now: real, lastCheck: real)
  {
    now - lastCheck > BALANCE_CHECK_INTERVAL
  }

  /** A due sample was accepted (it was positive). */
  predicate SampleTaken(now: real, balance: real, lastCheck: real)
  {
    SampleDue(now, lastCheck) && balance > 0.0
  }

  /** An accepted sample below the floor. */
  predicate BalanceTooLow(now: real, balance: real, lastCheck: real)
  {
    SampleTaken(now, balance, lastCheck) && balance < BALANCE_FLOOR
  }

  /** The state after the periodic balance sample. */
  function Sampled(v: View, now: real, balance: real, lastCheck: real): View
  {
    v.(books := v.books.(current := if SampleTaken(now, balance, lastCheck) then balance else v.books.current))
  }

  /** The record of the last accepted sample after the periodic one. */
  function SampledAt(now: real, balance: real, lastCheck: real): real
  {
    if SampleTaken(now, balance, lastCheck) then now else lastCheck
  }

  /** The decision of the entry gate over the limiter pruned at `now`. */
  function GateDecision(orders: Queues, bbo: Bbo, now: real, cfg: Config, limits: Limits): Decision
    requires limits.Valid()
  {
    EntryGate(Check(PruneAll(orders, now), limits, now), now - bbo.lastUpdate, bbo, cfg)
  }

  /** The limiter is pruned and the feed age noted, in milliseconds. */
  function Gated(v: View, now: real): View
  {
    v.(orders := PruneAll(v.orders, now), wsLatency := (now - v.bbo.lastUpdate) * 1000.0)
  }

  /** The volume of both legs and the direction count booked. */
  function Traded(v: View, price: real, size: real, direction: Direction): View
  {
    v.(books := v.books.(
      volume := v.books.volume + RoundTripNotional(price, size),
      long := v.books.long + (if direction == Long then 1 else 0),
      short := v.books.short + (if direction == Long then 0 else 1)))
  }

  /** The orchestrator's bookkeeping of a successful cycle. */
  function Succeeded(v: View, direction: Direction, cycleSeconds: real): View
  {
    v.(counts := v.counts.AfterSuccess(),
       cycleTimes := LastN(v.cycleTimes + [cycleSeconds], RECENT_CYCLES),
       latencies := LastN(v.latencies + [cycleSeconds * 1000.0], 5),
       lastDirection := Some(direction))
  }

  /** A cycle at the snapshot's mid price: the leg stamps go to the limiter,
      and either the volume, the success bookkeeping and the post-cycle
      balance sample follow, or the failure counters move. */
  function CycleResult(v: View, t: Tick, direction: Direction, lastCheck: real, cfg: Config): PassResult
  {
    var v1 := v.(orders := v.orders.AppendAll(LegStamps(t.firstLeg, t.firstLegAt, t.secondLeg, t.secondLegAt)));
    if t.firstLeg.Returned? && t.secondLeg.Returned? then
      var v2 := Succeeded(Traded(v1, v.bbo.midPrice, cfg.orderSizeBtc, direction), direction, t.cycleSeconds);
      PassResult(Cycled(direction, true), Booked(v2, t.balanceAfterCycle),
                 if t.balanceAfterCycle > 0.0 then t.balanceAfterCycleAt else lastCheck)
    else
      PassResult(Cycled(direction, false), v1.(counts := v1.counts.AfterFailure()), lastCheck)
  }

  /** The gate, and the cycle when it opens. */
  function Attempt(v: View, t: Tick, lastCheck: real, cfg: Config, limits: Limits): PassResult
    requires limits.Valid()
  {
    var d := GateDecision(v.orders, v.bbo, t.now, cfg, limits);
    if d.Trade? then CycleResult(Gated(v, t.now), t, d.direction, lastCheck, cfg)
    else PassResult(Skipped(d), Gated(v, t.now), lastCheck)
  }

  /** A pass past the stop checks and the token refresh: the balance sample
      and floor, then the gate and the cycle. */
  function Proceeded(v: View, t: Tick, lastCheck: real, cfg: Config, limits: Limits): PassResult
    requires limits.Valid()
  {
    var v1 := Sampled(v, t.now, t.balance, lastCheck);
    var lc1 := SampledAt(t.now, t.balance, lastCheck);
    if BalanceTooLow(t.now, t.balance, lastCheck) then PassResult(Stopped(LowBalance), v1.(running := false), lc1)
    else Attempt(v1, t, lc1, cfg, limits)
  }

  /** One pass of the main loop. */
  function Pass(v: View, t: Tick, lastCheck: real, cfg: Config, limits: Limits): PassResult
    requires limits.Valid()
  {
    if t.stopRequested then PassResult(Stopped(OperatorStop), v.(running := false), lastCheck)
    else
      var stop := StopCheck(v.running, v.counts.cycles, t.emergencyStopFile, v.counts.consecutive, cfg);
      if stop.Some? then PassResult(Stopped(stop.value), v, lastCheck)
      else if t.refreshRaises then PassResult(Faulted, v.(counts := v.counts.AfterFault()), lastCheck)
      else Proceeded(v, t, lastCheck, cfg, limits)
  }

  /** The stop reason of the pass's checks, the operator's stop key
      included. */
  function PassStop(v: View, t: Tick, cfg: Config): Option<StopReason>
  {
    StopCheck(v.running && !t.stopRequested, v.counts.cycles, t.emergencyStopFile, v.counts.consecutive, cfg)
  }

  /** The checks at the top of a pass decide it alone: a stop reason ends the
      pass with nothing changed except the running flag, and the only other
      stop is the balance floor. */
  lemma PassStopChecks(v: View, t: Tick, lastCheck: real, cfg: Config, limits: Limits)
    requires limits.Valid()
    ensures var r := Pass(v, t, lastCheck, cfg, limits); var stop := PassStop(v, t, cfg);
      stop.Some? ==> r == PassResult(Stopped(stop.value), v.(running := v.running && !t.stopRequested), lastCheck)
    ensures var r := Pass(v, t, lastCheck, cfg, limits);
      r.out.Stopped? && r.out.reason != LowBalance ==> PassStop(v, t, cfg).Some?
    ensures t.stopRequested || t.emergencyStopFile ==> Pass(v, t, lastCheck, cfg, limits).out.Stopped?
    ensures v.counts.consecutive >= cfg.maxConsecutiveFailures ==> Pass(v, t, lastCheck, cfg, limits).out.Stopped?
    ensures v.counts.cycles >= cfg.maxCycles ==> Pass(v, t, lastCheck, cfg, limits).out.Stopped?
  {
  }

  /** A raising token refresh counts against the failure ceiling and changes
      nothing else. */
  lemma PassFaults(v: View, t: Tick, lastCheck: real, cfg: Config, limits: Limits)
    requires limits.Valid()
    ensures var r := Pass(v, t, lastCheck, cfg, limits);
      r.out == Faulted <==> PassStop(v, t, cfg).None? && t.refreshRaises
    ensures var r := Pass(v, t, lastCheck, cfg, limits);
      r.out == Faulted ==> r.view == v.(counts := v.counts.AfterFault()) && r.lastCheck == lastCheck
  {
  }

  /** The balance floor: the pass stops exactly when a due, positive sample
      is below 10; that sample is booked and the loop marked stopped, and the
      limiter and the histories are untouched. */
  lemma PassBalanceFloor(v: View, t: Tick, lastCheck: real, cfg: Config, limits: Limits)
    requires limits.Valid()
    ensures var r := Pass(v, t, lastCheck, cfg, limits);
      r.out == Stopped(LowBalance) <==>
        PassStop(v, t, cfg).None? && !t.refreshRaises && BalanceTooLow(t.now, t.balance, lastCheck)
    ensures var r := Pass(v, t, lastCheck, cfg, limits);
      r.out == Stopped(LowBalance) ==>
        r.view == v.(running := false, books := v.books.(current := t.balance)) && r.lastCheck == t.now
  {
  }

  /** Past the checks and the floor, the pass does what the entry gate over
      the freshly pruned limiter says, and notes the feed age. */
  lemma PassFollowsGate(v: View, t: Tick, lastCheck: real, cfg: Config, limits: Limits)
    requires limits.Valid()
    ensures var r := Pass(v, t, lastCheck, cfg, limits);
      r.out.Skipped? || r.out.Cycled? <==>
        PassStop(v, t, cfg).None? && !t.refreshRaises && !BalanceTooLow(t.now, t.balance, lastCheck)
    ensures var r := Pass(v, t, lastCheck, cfg, limits); var d := GateDecision(v.orders, v.bbo, t.now, cfg, limits);
      && (r.out.Skipped? ==> r.out.decision == d && !d.Trade?)
      && (r.out.Cycled? ==> d == Trade(r.out.direction))
    ensures var r := Pass(v, t, lastCheck, cfg, limits);
      r.out.Skipped? || r.out.Cycled? ==>
        r.view.wsLatency == (t.now - v.bbo.lastUpdate) * 1000.0 && r.view.bbo == v.bbo
    ensures var r := Pass(v, t, lastCheck, cfg, limits);
      r.out.Skipped? ==>
        r.view == Sampled(v, t.now, t.balance, lastCheck).(orders := PruneAll(v.orders, t.now),
                                                          wsLatency := (t.now - v.bbo.lastUpdate) * 1000.0)
  {
    var v1 := Sampled(v, t.now, t.balance, lastCheck);
    assert v1.orders == v.orders && v1.bbo == v.bbo;
    var r := Pass(v, t, lastCheck, cfg, limits);
    if r.out.Cycled? {
      ReachCycle(v, t, lastCheck, cfg, limits);
      var d := GateDecision(v.orders, v.bbo, t.now, cfg, limits);
      CycleBookkeeping(Gated(Sampled(v, t.now, t.balance, lastCheck), t.now), t, d.direction,
                       SampledAt(t.now, t.balance, lastCheck), cfg);
    }
  }

  /** A cycle records one limiter timestamp per returned leg on top of the
      pruned queues, succeeds exactly when both legs return, and moves the
      counters accordingly. */
  lemma PassCycle(v: View, t: Tick, lastCheck: real, cfg: Config, limits: Limits)
    requires limits.Valid()
    ensures var r := Pass(v, t, lastCheck, cfg, limits);
      r.out.Cycled? ==>
        && r.view.orders == PruneAll(v.orders, t.now).AppendAll(LegStamps(t.firstLeg, t.firstLegAt, t.secondLeg, t.secondLegAt))
        && (r.out.success <==> t.firstLeg.Returned? && t.secondLeg.Returned?)
        && r.view.counts == if r.out.success then v.counts.AfterSuccess() else v.counts.AfterFailure()
  {
    var r := Pass(v, t, lastCheck, cfg, limits);
    if r.out.Cycled? {
      ReachCycle(v, t, lastCheck, cfg, limits);
      var d := GateDecision(v.orders, v.bbo, t.now, cfg, limits);
      CycleBookkeeping(Gated(Sampled(v, t.now, t.balance, lastCheck), t.now), t, d.direction,
                       SampledAt(t.now, t.balance, lastCheck), cfg);
    }
  }

  /** A cycle books what it did: the limiter gets one stamp per returned
      leg, and only when both legs returned do the counters, the histories,
      the last direction, the volume (both legs at the snapshot's mid price)
      and the direction counts move, with a positive post-cycle sample
      becoming the balance; a failure moves only the failure counters. */
  lemma CycleBookkeeping(v: View, t: Tick, direction: Direction, lastCheck: real, cfg: Config)
    ensures var r := CycleResult(v, t, direction, lastCheck, cfg);
      && r.out == Cycled(direction, t.firstLeg.Returned? && t.secondLeg.Returned?)
      && r.view.orders == v.orders.AppendAll(LegStamps(t.firstLeg, t.firstLegAt, t.secondLeg, t.secondLegAt))
      && r.view.bbo == v.bbo && r.view.wsLatency == v.wsLatency && r.view.running == v.running
      && r.view.books.initial == v.books.initial
    ensures var r := CycleResult(v, t, direction, lastCheck, cfg);
      r.out.success ==>
        && r.view.counts == v.counts.AfterSuccess()
        && r.view.latencies == LastN(v.latencies + [t.cycleSeconds * 1000.0], 5)
        && r.view.cycleTimes == LastN(v.cycleTimes + [t.cycleSeconds], RECENT_CYCLES)
        && r.view.lastDirection == Some(direction)
        && r.view.books.volume == v.books.volume + RoundTripNotional(v.bbo.midPrice, cfg.orderSizeBtc)
        && r.view.books.long + r.view.books.short == v.books.long + v.books.short + 1
        && (r.view.books.long == v.books.long + 1 <==> direction == Long)
        && (t.balanceAfterCycle > 0.0 ==> r.view.books.current == t.balanceAfterCycle && r.lastCheck == t.balanceAfterCycleAt)
        && (t.balanceAfterCycle <= 0.0 ==> r.view.books.current == v.books.current && r.lastCheck == lastCheck)
    ensures var r := CycleResult(v, t, direction, lastCheck, cfg);
      !r.out.success ==>
        r.view == v.(orders := r.view.orders, counts := v.counts.AfterFailure()) && r.lastCheck == lastCheck
  {
  }

  /** A successful cycle pushes its duration onto both bounded histories
      and remembers its direction. */
  lemma PassSuccessHistories(v: View, t: Tick, lastCheck: real, cfg: Config, limits: Limits)
    requires limits.Valid()
    ensures var r := Pass(v, t, lastCheck, cfg, limits);
      r.out.Cycled? && r.out.success ==>
        && r.view.latencies == LastN(v.latencies + [t.cycleSeconds * 1000.0], 5)
        && r.view.cycleTimes == LastN(v.cycleTimes + [t.cycleSeconds], RECENT_CYCLES)
        && r.view.lastDirection == Some(r.out.direction)
  {
    var r := Pass(v, t, lastCheck, cfg, limits);
    if r.out.Cycled? {
      ReachCycle(v, t, lastCheck, cfg, limits);
      var d := GateDecision(v.orders, v.bbo, t.now, cfg, limits);
      CycleBookkeeping(Gated(Sampled(v, t.now, t.balance, lastCheck), t.now), t, d.direction,
                       SampledAt(t.now, t.balance, lastCheck), cfg);
    }
  }

  /** A successful cycle books both legs' notional at the snapshot's mid
      price under its direction, and a positive post-cycle sample becomes the
      balance. */
  lemma PassSuccessBooks(v: View, t: Tick, lastCheck: real, cfg: Config, limits: Limits)
    requires limits.Valid()
    ensures var r := Pass(v, t, lastCheck, cfg, limits);
      r.out.Cycled? && r.out.success ==>
        && r.view.books.volume == v.books.volume + RoundTripNotional(v.bbo.midPrice, cfg.orderSizeBtc)
        && r.view.books.long + r.view.books.short == v.books.long + v.books.short + 1
        && (r.view.books.long == v.books.long + 1 <==> r.out.direction == Long)
        && (t.balanceAfterCycle > 0.0 ==> r.view.books.current == t.balanceAfterCycle && r.lastCheck == t.balanceAfterCycleAt)
  {
    var r := Pass(v, t, lastCheck, cfg, limits);
    if r.out.Cycled? {
      ReachCycle(v, t, lastCheck, cfg, limits);
      var d := GateDecision(v.orders, v.bbo, t.now, cfg, limits);
      CycleBookkeeping(Gated(Sampled(v, t.now, t.balance, lastCheck), t.now), t, d.direction,
                       SampledAt(t.now, t.balance, lastCheck), cfg);
    }
  }

  /** Every other pass leaves the histories, the last direction, the volume
      and the direction counts as they were. */
  lemma PassOtherwiseUnchanged(v: View, t: Tick, lastCheck: real, cfg: Config, limits: Limits)
    requires limits.Valid()
    ensures var r := Pass(v, t, lastCheck, cfg, limits);
      !(r.out.Cycled? && r.out.success) ==>
        && r.view.latencies == v.latencies && r.view.cycleTimes == v.cycleTimes
        && r.view.lastDirection == v.lastDirection
        && r.view.books.volume == v.books.volume
        && r.view.books.long == v.books.long && r.view.books.short == v.books.short
  {
    var r := Pass(v, t, lastCheck, cfg, limits);
    if r.out.Cycled? {
      ReachCycle(v, t, lastCheck, cfg, limits);
      var d := GateDecision(v.orders, v.bbo, t.now, cfg, limits);
      CycleBookkeeping(Gated(Sampled(v, t.now, t.balance, lastCheck), t.now), t, d.direction,
                       SampledAt(t.now, t.balance, lastCheck), cfg);
    }
  }

  /** No pass moves the starting balance or the snapshot (only the feed
      callback does). */
  lemma PassKeepsSnapshot(v: View, t: Tick, lastCheck: real, cfg: Config, limits: Limits)
    requires limits.Valid()
    ensures Pass(v, t, lastCheck, cfg, limits).view.books.initial == v.books.initial
    ensures Pass(v, t, lastCheck, cfg, limits).view.bbo == v.bbo
  {
  }

  /** Past the checks, the floor and an open gate, a pass is the cycle over
      the sampled and gated state; this unfolds the pass for the lemmas
      above. */
  lemma ReachCycle(v: View, t: Tick, lastCheck: real, cfg: Config, limits: Limits)
    requires limits.Valid()
    ensures var r := Pass(v, t, lastCheck, cfg, limits); var d := GateDecision(v.orders, v.bbo, t.now, cfg, limits);
      var v1 := Gated(Sampled(v, t.now, t.balance, lastCheck), t.now);
      r.out.Cycled? ==>
        && d.Trade?
        && r == CycleResult(v1, t, d.direction, SampledAt(t.now, t.balance, lastCheck), cfg)
        && v1.bbo == v.bbo && v1.counts == v.counts && v1.books.initial == v.books.initial
        && v1.books.volume == v.books.volume && v1.books.long == v.books.long && v1.books.short == v.books.short
        && v1.latencies == v.latencies && v1.cycleTimes == v.cycleTimes && v1.orders == PruneAll(v.orders, t.now)
  {
    var v1 := Sampled(v, t.now, t.balance, lastCheck);
    assert v1.orders == v.orders && v1.bbo == v.bbo;
    var d := GateDecision(v.orders, v.bbo, t.now, cfg, limits);
    if d.Trade? {
      CycleBookkeeping(Gated(v1, t.now), t, d.direction, SampledAt(t.now, t.balance, lastCheck), cfg);
    }
  }

  /** A pass counts at most one cycle, and exactly one when its cycle
      succeeded. */
  lemma PassCountsAtMostOne(v: View, t: Tick, lastCheck: real, cfg: Config, limits: Limits)
    requires limits.Valid()
    ensures var r := Pass(v, t, lastCheck, cfg, limits);
      && v.counts.cycles <= r.view.counts.cycles <= v.counts.cycles + 1
      && (r.view.counts.cycles == v.counts.cycles + 1 <==> r.out.Cycled? && r.out.success)
  {
    var r := Pass(v, t, lastCheck, cfg, limits);
    if r.out.Cycled? {
      ReachCycle(v, t, lastCheck, cfg, limits);
      var d := GateDecision(v.orders, v.bbo, t.now, cfg, limits);
      CycleBookkeeping(Gated(Sampled(v, t.now, t.balance, lastCheck), t.now), t, d.direction,
                       SampledAt(t.now, t.balance, lastCheck), cfg);
    }
  }

  /** The counters the loop keeps in step: every counted cycle was a
      successful one, booked once as LONG or SHORT, and neither ceiling is
      overrun. */
  predicate Consistent(v: View, cfg: Config)
  {
    && v.counts.cycles == v.counts.successful
    && v.counts.cycles <= cfg.maxCycles
    && v.counts.consecutive <= cfg.maxConsecutiveFailures
    && v.books.long + v.books.short == v.counts.successful
    && |v.cycleTimes| <= RECENT_CYCLES
  }

  /** Every pass keeps the counters consistent: the checks at its top stop
      it before a ceiling could be overrun. */
  lemma PassKeepsConsistent(v: View, t: Tick, lastCheck: real, cfg: Config, limits: Limits)
    requires limits.Valid()
    requires Consistent(v, cfg)
    ensures Consistent(Pass(v, t, lastCheck, cfg, limits).view, cfg)
  {
    var r := Pass(v, t, lastCheck, cfg, limits);
    if r.out.Cycled? {
      ReachCycle(v, t, lastCheck, cfg, limits);
      var d := GateDecision(v.orders, v.bbo, t.now, cfg, limits);
      CycleBookkeeping(Gated(Sampled(v, t.now, t.balance, lastCheck), t.now), t, d.direction,
                       SampledAt(t.now, t.balance, lastCheck), cfg);
    }
  }

  /** A cycle let through by the checks and the gate keeps the counters
      consistent and every window within one order of its ceiling. */
  lemma CycleKeepsInvariant(v: View, t: Tick, direction: Direction, lastCheck: real, cfg: Config, limits: Limits)
    requires limits.Valid()
    requires Consistent(v, cfg) && WithinOneOfCeilings(v.orders, limits)
    requires v.counts.cycles < cfg.maxCycles && v.counts.consecutive < cfg.maxConsecutiveFailures
    requires Check(v.orders, limits, t.now) == Allowed
    ensures var r := CycleResult(v, t, direction, lastCheck, cfg);
      Consistent(r.view, cfg) && WithinOneOfCeilings(r.view.orders, limits)
  {
    CycleBookkeeping(v, t, direction, lastCheck, cfg);
    CycleAfterAllowedOvershootsByAtMostOne(v.orders, limits, t.now,
                                           LegStamps(t.firstLeg, t.firstLegAt, t.secondLeg, t.secondLegAt));
  }

  /** Every pass keeps each window within one order of its ceiling: pruning
      only removes entries, and a cycle's two stamps follow a check that
      found a free slot. */
  lemma PassKeepsWithinOne(v: View, t: Tick, lastCheck: real, cfg: Config, limits: Limits)
    requires limits.Valid()
    requires WithinOneOfCeilings(v.orders, limits)
    ensures WithinOneOfCeilings(Pass(v, t, lastCheck, cfg, limits).view.orders, limits)
  {
    PruningKeepsWithinOne(v.orders, limits, t.now);
    var r := Pass(v, t, lastCheck, cfg, limits);
    if r.out.Cycled? {
      ReachCycle(v, t, lastCheck, cfg, limits);
      CycleAfterAllowedOvershootsByAtMostOne(PruneAll(v.orders, t.now), limits, t.now,
                                             LegStamps(t.firstLeg, t.firstLegAt, t.secondLeg, t.secondLegAt));
      var d := GateDecision(v.orders, v.bbo, t.now, cfg, limits);
      CycleBookkeeping(Gated(Sampled(v, t.now, t.balance, lastCheck), t.now), t, d.direction,
                       SampledAt(t.now, t.balance, lastCheck), cfg);
    }
  }

  /** With the clock running forward, a pass records no limiter stamp
      later than its last leg, so the limiter's queues stay in clock order
      from one pass to the next. */
  lemma PassStampsNoLater(v: View, t: Tick, lastCheck: real, cfg: Config, limits: Limits)
    requires limits.Valid()
    requires NoneAfter(v.orders, t.now) && Chronological(t)
    ensures NoneAfter(Pass(v, t, lastCheck, cfg, limits).view.orders, t.secondLegAt)
  {
    NoneAfterLater(v.orders, t.now, t.secondLegAt);
    PruningKeepsNoneAfter(v.orders, t.now, t.secondLegAt);
    var v1 := Sampled(v, t.now, t.balance, lastCheck);
    assert v1.orders == v.orders;
    var r := Pass(v, t, lastCheck, cfg, limits);
    if r.out.Cycled? {
      ReachCycle(v, t, lastCheck, cfg, limits);
      var d := GateDecision(v.orders, v.bbo, t.now, cfg, limits);
      CycleBookkeeping(Gated(v1, t.now), t, d.direction, SampledAt(t.now, t.balance, lastCheck), cfg);
      AppendKeepsNoneAfter(PruneAll(v.orders, t.now),
                           LegStamps(t.firstLeg, t.firstLegAt, t.secondLeg, t.secondLegAt), t.secondLegAt);
    }
  }

  /** How the loop ended: the stop reason (none when the ticks ran out), the
      state it left, and how many ticks it consumed. */
  datatype LoopResult = LoopResult(stopped: Option<StopReason>, view: View, used: nat)

  /** The main loop over a finite sequence of ticks: each tick delivers its
      quote, then a pass runs; the loop ends at the first pass that stops. */
  function Loop(v: View, ticks: seq<Tick>, lastCheck: real, cfg: Config, limits: Limits): LoopResult
    requires limits.Valid()
    decreases |ticks|
  {
    if ticks == [] then LoopResult(None, v, 0)
    else
      var r := Pass(Delivered(v, ticks[0].quote, ticks[0].quoteAt), ticks[0], lastCheck, cfg, limits);
      if r.out.Stopped? then LoopResult(Some(r.out.reason), r.view, 1)
      else
        var rest := Loop(r.view, ticks[1..], r.lastCheck, cfg, limits);
        LoopResult(rest.stopped, rest.view, rest.used + 1)
  }

  /** A loop result with `k` more ticks counted as used. */
  function Shifted(r: LoopResult, k: nat): LoopResult
  {
    r.(used := r.used + k)
  }

  /** The loop over the ticks from `i` on, one step: the pass on tick `i`,
      then, unless it stopped, the loop from `i + 1`. */
  lemma LoopFrom(v: View, ticks: seq<Tick>, i: nat, lastCheck: real, cfg: Config, limits: Limits)
    requires limits.Valid()
    requires i < |ticks|
    ensures var r := Pass(Delivered(v, ticks[i].quote, ticks[i].quoteAt), ticks[i], lastCheck, cfg, limits);
      Loop(v, ticks[i..], lastCheck, cfg, limits) ==
        if r.out.Stopped? then LoopResult(Some(r.out.reason), r.view, 1)
        else Shifted(Loop(r.view, ticks[i + 1..], r.lastCheck, cfg, limits), 1)
  {
    assert ticks[i..][0] == ticks[i] && ticks[i..][1..] == ticks[i + 1..];
  }

  /** The loop consumes ticks up to and including the first that stops it,
      all of them when none does, counts at most one cycle per tick, keeps the
      counters consistent, and never runs past a stop key or an emergency
      file. */
  lemma {:induction false} LoopProgress(v: View, ticks: seq<Tick>, lastCheck: real, cfg: Config, limits: Limits)
    requires limits.Valid()
    requires Consistent(v, cfg)
    ensures var r := Loop(v, ticks, lastCheck, cfg, limits);
      && r.used <= |ticks|
      && (r.stopped.None? ==> r.used == |ticks|)
    ensures var r := Loop(v, ticks, lastCheck, cfg, limits);
      r.stopped.Some? ==> r.used >= 1
    ensures var r := Loop(v, ticks, lastCheck, cfg, limits);
      v.counts.cycles <= r.view.counts.cycles <= v.counts.cycles + r.used
    ensures Consistent(Loop(v, ticks, lastCheck, cfg, limits).view, cfg)
    ensures var r := Loop(v, ticks, lastCheck, cfg, limits);
      forall k :: 0 <= k < r.used && (ticks[k].stopRequested || ticks[k].emergencyStopFile) ==>
        r.stopped.Some? && k == r.used - 1
    decreases |ticks|
  {
    if ticks != [] {
      var t := ticks[0];
      var v0 := Delivered(v, t.quote, t.quoteAt);
      var r := Pass(v0, t, lastCheck, cfg, limits);
      PassKeepsConsistent(v0, t, lastCheck, cfg, limits);
      PassCountsAtMostOne(v0, t, lastCheck, cfg, limits);
      PassStopChecks(v0, t, lastCheck, cfg, limits);
      if !r.out.Stopped? {
        LoopProgress(r.view, ticks[1..], r.lastCheck, cfg, limits);
      }
    }
  }

  /** The loop stops on its cycle budget only with the budget exactly used
      up, and on the failure ceiling only with the streak exactly at it. */
  lemma {:induction false} LoopStopsAtCeilings(v: View, ticks: seq<Tick>, lastCheck: real, cfg: Config, limits: Limits)
    requires limits.Valid()
    requires Consistent(v, cfg)
    ensures var r := Loop(v, ticks, lastCheck, cfg, limits);
      r.stopped == Some(CycleBudgetReached) ==> r.view.counts.cycles == cfg.maxCycles
    ensures var r := Loop(v, ticks, lastCheck, cfg, limits);
      r.stopped == Some(TooManyFailures) ==> r.view.counts.consecutive == cfg.maxConsecutiveFailures
    ensures var r := Loop(v, ticks, lastCheck, cfg, limits);
      r.stopped == Some(LowBalance) ==> !r.view.running && r.view.books.current < BALANCE_FLOOR
    decreases |ticks|
  {
    if ticks != [] {
      var t := ticks[0];
      var v0 := Delivered(v, t.quote, t.quoteAt);
      var r := Pass(v0, t, lastCheck, cfg, limits);
      PassKeepsConsistent(v0, t, lastCheck, cfg, limits);
      PassStopChecks(v0, t, lastCheck, cfg, limits);
      PassBalanceFloor(v0, t, lastCheck, cfg, limits);
      if !r.out.Stopped? {
        LoopStopsAtCeilings(r.view, ticks[1..], r.lastCheck, cfg, limits);
      }
    }
  }
}
