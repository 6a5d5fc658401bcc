/** The decision-and-orchestration loop of the round-trip scalper
    (scalper.py, class `WebSocketScalper`): the BBO callback, the entry gate,
    the two-leg cycle and one iteration of the main loop, with the clock, the
    balance query, the order legs, the token refresh, the emergency-stop file
    and the operator's stop key passed in as a `Tick`. */
module Scalper {
  import opened Market
  import opened RateLimiting
  import opened Latency
  import opened PnL
  import opened Orchestration

  class WebSocketScalper {
    const cfg: Config
    const rateLimiter: RateLimiter
    const pnlTracker: BalancePnLTracker
    const latencyTracker: LatencyTracker
    var cycleCount: nat
    var successfulCycles: nat
    var failedCycles: nat
    var consecutiveFailures: nat
    var running: bool
    /** None until the first successful cycle. */
    var lastDirection: Option<Direction>
    var currentBbo: Bbo
    var recentCycleTimes: seq<real>

    function Counts(): Counters
      reads this
    {
      Counters(cycleCount, successfulCycles, failedCycles, consecutiveFailures)
    }

    /** The orchestrator's observable state, its trackers included. */
    function State(): View
      reads this, rateLimiter, pnlTracker, latencyTracker
    {
      View(Counts(), running, lastDirection, currentBbo, recentCycleTimes, rateLimiter.Orders(),
           latencyTracker.recentLatencies, latencyTracker.currentWsLatency,
           Books(pnlTracker.initialBalance, pnlTracker.currentBalance, pnlTracker.totalVolumeUsd,
                 pnlTracker.longCount, pnlTracker.shortCount))
    }

    /** Each tracker is consistent on its own, and the latency history has
        the capacity the orchestrator gives it. */
    ghost predicate TrackersValid()
      reads rateLimiter, pnlTracker, latencyTracker
    {
      rateLimiter.Valid() && pnlTracker.Valid() && latencyTracker.Valid()
      && latencyTracker.maxRecords == 5
    }

    ghost predicate Valid()
      reads this, rateLimiter, pnlTracker, latencyTracker
    {
      && TrackersValid()
      && Consistent(State(), cfg)
      // the check asks for one free slot and the cycle after it takes two
      && WithinOneOfCeilings(rateLimiter.Orders(), rateLimiter.Ceilings())
      // one cycle latency is recorded per successful cycle
      && |latencyTracker.recorded| == successfulCycles
    }

    constructor (cfg: Config)
      ensures Valid()
      ensures this.cfg == cfg
      ensures fresh(rateLimiter) && fresh(pnlTracker) && fresh(latencyTracker)
      ensures rateLimiter.Ceilings() == Limits(MAX_ORDERS_PER_MINUTE, MAX_ORDERS_PER_HOUR, MAX_ORDERS_PER_DAY)
      ensures State() == View(Counters(0, 0, 0, 0), false, None, INITIAL_BBO, [], Queues([], [], []),
                              [], 0.0, Books(0.0, 0.0, 0.0, 0, 0))
    {
      this.cfg := cfg;
      rateLimiter := new RateLimiter(MAX_ORDERS_PER_MINUTE, MAX_ORDERS_PER_HOUR, MAX_ORDERS_PER_DAY);
      pnlTracker := new BalancePnLTracker();
      latencyTracker := new LatencyTracker();
      cycleCount := 0;
      successfulCycles := 0;
      failedCycles := 0;
      consecutiveFailures := 0;
      running := false;
      lastDirection := None;
      currentBbo := INITIAL_BBO;
      recentCycleTimes := [];
    }

    /** Start-up after connecting: the loop runs only once a strictly
        positive initial balance has been recorded. */
    method Start(initialBalance: real) returns (started: bool)
      requires Valid()
      modifies this, pnlTracker
      ensures Valid()
      ensures started <==> initialBalance > 0.0
      ensures State() == if started then Started(old(State()), initialBalance) else old(State())
    {
      if initialBalance <= 0.0 {
        return false;
      }
      started := pnlTracker.SetInitialBalance(initialBalance);
      if !started {
        return;
      }
      running := true;
    }

    /** The feed callback: a quote with both prices positive replaces the
        snapshot wholesale; anything else leaves it as it was. */
    method OnBboUpdate(m: BboMessage, at: real)
      requires Valid()
      modifies this`currentBbo
      ensures Valid()
      ensures State() == Delivered(old(State()), m, at)
    {
      if m.Quote? {
        if m.bid > 0.0 && m.ask > 0.0 {
          var mid := (m.bid + m.ask) / 2.0;
          var spreadPct := (m.ask - m.bid) / mid * 100.0;
          currentBbo := Bbo(m.bid, m.ask, m.bidSize, m.askSize, spreadPct, mid, at);
        }
      }
    }

    /** The two legs of a round trip: LONG buys then sells, SHORT sells then
        buys; each leg that returns is recorded with the limiter, a leg that
        raises ends the cycle as a failure, and only a cycle whose two legs
        both returned books its volume. */
    method ExecuteCycle(price: real, direction: Direction,
                        first: LegOutcome, firstAt: real, second: LegOutcome, secondAt: real)
      returns (success: bool, submitted: seq<Side>)
      requires rateLimiter.Valid() && pnlTracker.Valid()
      requires NoneAfter(rateLimiter.Orders(), firstAt) && firstAt <= secondAt
      modifies rateLimiter, pnlTracker
      ensures rateLimiter.Valid() && pnlTracker.Valid()
      ensures success <==> first.Returned? && second.Returned?
      ensures submitted == if first.Returned? then [Legs(direction).0, Legs(direction).1]
                           else [Legs(direction).0]
      ensures var v := old(State()).(orders := old(rateLimiter.Orders()).AppendAll(LegStamps(first, firstAt, second, secondAt)));
        State() == if success then Traded(v, price, cfg.orderSizeBtc, direction) else v
    {
      var legs := Legs(direction);
      submitted := [legs.0];
      if first.Raised? {
        return false, submitted;
      }
      rateLimiter.RecordOrder(firstAt);
      NoneAfterLater(old(rateLimiter.Orders()), firstAt, secondAt);
      AppendKeepsNoneAfter(old(rateLimiter.Orders()), [firstAt], secondAt);
      submitted := submitted + [legs.1];
      if second.Raised? {
        return false, submitted;
      }
      rateLimiter.RecordOrder(secondAt);
      assert old(rateLimiter.Orders()).AppendAll([firstAt]).AppendAll([secondAt])
          == old(rateLimiter.Orders()).AppendAll([firstAt, secondAt]);
      pnlTracker.RecordCycleVolume(price, cfg.orderSizeBtc, direction);
      return true, submitted;
    }

    /** The periodic balance sample: taken when more than the check interval
        has passed since the last accepted one, accepted only when positive. */
    method SampleBalance(now: real, balance: real, lastBalanceCheck: real) returns (low: bool, lastCheck: real)
      requires Valid()
      modifies pnlTracker
      ensures Valid()
      ensures low == BalanceTooLow(now, balance, lastBalanceCheck)
      ensures lastCheck == SampledAt(now, balance, lastBalanceCheck)
      ensures State() == Sampled(old(State()), now, balance, lastBalanceCheck)
    {
      low, lastCheck := false, lastBalanceCheck;
      if now - lastBalanceCheck > BALANCE_CHECK_INTERVAL {
        if balance > 0.0 {
          var _ := pnlTracker.UpdateBalance(balance);
          lastCheck := now;
          low := balance < BALANCE_FLOOR;
        }
      }
    }

    /** Bookkeeping after a cycle whose two legs both returned (its volume is
        already booked): counters, cycle-time and latency histories, the last
        direction, and a fresh balance sample. */
    method RecordSuccess(direction: Direction, cycleSeconds: real,
                         balanceAfterCycle: real, balanceAfterCycleAt: real, lastBalanceCheck: real)
      returns (lastCheck: real)
      requires TrackersValid()
      modifies this, pnlTracker, latencyTracker
      ensures TrackersValid()
      ensures latencyTracker.recorded == old(latencyTracker.recorded) + [cycleSeconds * 1000.0]
      ensures State() == Booked(Succeeded(old(State()), direction, cycleSeconds), balanceAfterCycle)
      ensures lastCheck == if balanceAfterCycle > 0.0 then balanceAfterCycleAt else lastBalanceCheck
    {
      successfulCycles := successfulCycles + 1;
      consecutiveFailures := 0;
      cycleCount := cycleCount + 1;
      var times := recentCycleTimes + [cycleSeconds];
      if |times| > RECENT_CYCLES {
        times := times[|times| - RECENT_CYCLES..];
      }
      recentCycleTimes := times;
      assert recentCycleTimes == LastN(old(recentCycleTimes) + [cycleSeconds], RECENT_CYCLES);
      latencyTracker.RecordCycleLatency(cycleSeconds * 1000.0);
      lastDirection := Some(direction);
      assert Counts() == old(Counts()).AfterSuccess();
      assert State() == Succeeded(old(State()), direction, cycleSeconds);
      lastCheck := lastBalanceCheck;
      if balanceAfterCycle > 0.0 {
        var _ := pnlTracker.UpdateBalance(balanceAfterCycle);
        lastCheck := balanceAfterCycleAt;
      }
    }

    /** The limiter and feed half of a pass: prune and check the limiter at
        the pass's clock reading, note the feed age, and apply the entry gate. */
    method Gate(now: real) returns (d: Decision)
      requires Valid()
      modifies rateLimiter, latencyTracker
      ensures Valid()
      ensures d == GateDecision(old(rateLimiter.Orders()), currentBbo, now, cfg, rateLimiter.Ceilings())
      ensures State() == Gated(old(State()), now)
      ensures forall w: Window, t :: t in rateLimiter.Orders().Of(w) ==> now - t <= w.Span()
      ensures latencyTracker.recorded == old(latencyTracker.recorded)
    {
      PruningKeepsWithinOne(rateLimiter.Orders(), rateLimiter.Ceilings(), now);
      var verdict := rateLimiter.CanPlaceOrder(now);
      var bbo := currentBbo;
      var age := now - bbo.lastUpdate;
      latencyTracker.UpdateWsLatency(age * 1000.0);
      d := EntryGate(verdict, age, bbo, cfg);
    }

    /** A cycle the gate let through: the two legs at the snapshot's mid
        price, then the bookkeeping of a success or a failure. */
    method RunCycle(t: Tick, direction: Direction, lastBalanceCheck: real) returns (success: bool, lastCheck: real)
      requires Valid()
      requires Check(rateLimiter.Orders(), rateLimiter.Ceilings(), t.now) == Allowed
      requires cycleCount < cfg.maxCycles && consecutiveFailures < cfg.maxConsecutiveFailures
      requires NoneAfter(rateLimiter.Orders(), t.firstLegAt) && t.firstLegAt <= t.secondLegAt
      modifies this, rateLimiter, pnlTracker, latencyTracker
      ensures Valid()
      ensures PassResult(Cycled(direction, success), State(), lastCheck)
           == CycleResult(old(State()), t, direction, lastBalanceCheck, cfg)
      ensures success ==> latencyTracker.recorded == old(latencyTracker.recorded) + [t.cycleSeconds * 1000.0]
      ensures !success ==> latencyTracker.recorded == old(latencyTracker.recorded)
    {
      CycleKeepsInvariant(State(), t, direction, lastBalanceCheck, cfg, rateLimiter.Ceilings());
      lastCheck := lastBalanceCheck;
      var submitted;
      success, submitted := ExecuteCycle(currentBbo.midPrice, direction, t.firstLeg, t.firstLegAt, t.secondLeg, t.secondLegAt);
      if success {
        lastCheck := RecordSuccess(direction, t.cycleSeconds, t.balanceAfterCycle, t.balanceAfterCycleAt, lastCheck);
      } else {
        RecordFailure();
      }
    }

    /** Bookkeeping after a cycle with a leg that raised. */
    method RecordFailure()
      modifies this`failedCycles, this`consecutiveFailures
      ensures State() == old(State()).(counts := old(Counts()).AfterFailure())
    {
      failedCycles := failedCycles + 1;
      consecutiveFailures := consecutiveFailures + 1;
    }

    /** The rest of a pass once the stop checks and the balance floor let it
        through: the gate, and the cycle when it opens. */
    method TryCycle(t: Tick, lastBalanceCheck: real) returns (out: Outcome, lastCheck: real)
      requires Valid()
      requires cycleCount < cfg.maxCycles && consecutiveFailures < cfg.maxConsecutiveFailures
      requires NoneAfter(rateLimiter.Orders(), t.now) && Chronological(t)
      modifies this, rateLimiter, pnlTracker, latencyTracker
      ensures Valid()
      ensures PassResult(out, State(), lastCheck) == Attempt(old(State()), t, lastBalanceCheck, cfg, rateLimiter.Ceilings())
      ensures out.Cycled? && out.success ==>
        latencyTracker.recorded == old(latencyTracker.recorded) + [t.cycleSeconds * 1000.0]
      ensures !(out.Cycled? && out.success) ==> latencyTracker.recorded == old(latencyTracker.recorded)
    {
      lastCheck := lastBalanceCheck;
      NoneAfterLater(rateLimiter.Orders(), t.now, t.firstLegAt);
      PruningKeepsNoneAfter(rateLimiter.Orders(), t.now, t.firstLegAt);
      var decision := Gate(t.now);
      if !decision.Trade? {
        return Skipped(decision), lastCheck;
      }
      var success;
      success, lastCheck := RunCycle(t, decision.direction, lastCheck);
      return Cycled(decision.direction, success), lastCheck;
    }

    /** A pass that got past the stop checks and the token refresh: the
        periodic balance sample and the balance floor, then the gate and the
        cycle. */
    method Proceed(t: Tick, lastBalanceCheck: real) returns (out: Outcome, lastCheck: real)
      requires Valid()
      requires cycleCount < cfg.maxCycles && consecutiveFailures < cfg.maxConsecutiveFailures
      requires NoneAfter(rateLimiter.Orders(), t.now) && Chronological(t)
      modifies this, rateLimiter, pnlTracker, latencyTracker
      ensures Valid()
      ensures PassResult(out, State(), lastCheck) == Proceeded(old(State()), t, lastBalanceCheck, cfg, rateLimiter.Ceilings())
      ensures out.Cycled? && out.success ==>
        latencyTracker.recorded == old(latencyTracker.recorded) + [t.cycleSeconds * 1000.0]
      ensures !(out.Cycled? && out.success) ==> latencyTracker.recorded == old(latencyTracker.recorded)
    {
      var low;
      low, lastCheck := SampleBalance(t.now, t.balance, lastBalanceCheck);
      if low {
        running := false;
        return Stopped(LowBalance), lastCheck;
      }
      out, lastCheck := TryCycle(t, lastCheck);
    }

    /** One pass of the main loop. `lastBalanceCheck` is the loop's clock
        reading of the last accepted balance sample; the pass returns its new
        value. */
    method Iterate(t: Tick, lastBalanceCheck: real) returns (out: Outcome, lastCheck: real)
      requires Valid()
      requires NoneAfter(rateLimiter.Orders(), t.now) && Chronological(t)
      modifies this, rateLimiter, pnlTracker, latencyTracker
      ensures Valid()
      ensures PassResult(out, State(), lastCheck) == Pass(old(State()), t, lastBalanceCheck, cfg, rateLimiter.Ceilings())
      ensures out.Cycled? && out.success ==>
        latencyTracker.recorded == old(latencyTracker.recorded) + [t.cycleSeconds * 1000.0]
      ensures !(out.Cycled? && out.success) ==> latencyTracker.recorded == old(latencyTracker.recorded)
    {
      lastCheck := lastBalanceCheck;
      if t.stopRequested {
        running := false;
        return Stopped(OperatorStop), lastCheck;
      }
      var stop := StopCheck(running, cycleCount, t.emergencyStopFile, consecutiveFailures, cfg);
      if stop.Some? {
        return Stopped(stop.value), lastCheck;
      }
      if t.refreshRaises {
        consecutiveFailures := consecutiveFailures + 1;
        return Faulted, lastCheck;
      }
      out, lastCheck := Proceed(t, lastCheck);
    }

    /** One tick of the main loop: the feed callback delivers the tick's
        quote, then the pass runs. */
    method Step(t: Tick, lastBalanceCheck: real) returns (out: Outcome, lastCheck: real)
      requires Valid()
      requires NoneAfter(rateLimiter.Orders(), t.now) && Chronological(t)
      modifies this, rateLimiter, pnlTracker, latencyTracker
      ensures Valid()
      ensures PassResult(out, State(), lastCheck)
           == Pass(Delivered(old(State()), t.quote, t.quoteAt), t, lastBalanceCheck, cfg, rateLimiter.Ceilings())
      ensures out.Cycled? && out.success ==>
        latencyTracker.recorded == old(latencyTracker.recorded) + [t.cycleSeconds * 1000.0]
      ensures !(out.Cycled? && out.success) ==> latencyTracker.recorded == old(latencyTracker.recorded)
    {
      OnBboUpdate(t.quote, t.quoteAt);
      out, lastCheck := Iterate(t, lastBalanceCheck);
    }

    /** The main loop over the passes the world supplies, one tick each. It
        ends at the first pass that stops, or when the ticks run out. */
    method MainLoop(ticks: seq<Tick>) returns (stopped: Option<StopReason>, used: nat)
      requires Valid()
      requires ClockOrdered(ticks) && (ticks != [] ==> NoneAfter(rateLimiter.Orders(), ticks[0].now))
      modifies this, rateLimiter, pnlTracker, latencyTracker
      ensures Valid()
      ensures LoopResult(stopped, State(), used) == Loop(old(State()), ticks, 0.0, cfg, rateLimiter.Ceilings())
    {
      var lastBalanceCheck := 0.0;
      used := 0;
      while used < |ticks|
        invariant Valid()
        invariant used <= |ticks|
        invariant used < |ticks| ==> NoneAfter(rateLimiter.Orders(), ticks[used].now)
        invariant Loop(old(State()), ticks, 0.0, cfg, rateLimiter.Ceilings())
               == Shifted(Loop(State(), ticks[used..], lastBalanceCheck, cfg, rateLimiter.Ceilings()), used)
      {
        var t := ticks[used];
        LoopFrom(State(), ticks, used, lastBalanceCheck, cfg, rateLimiter.Ceilings());
        PassStampsNoLater(Delivered(State(), t.quote, t.quoteAt), t, lastBalanceCheck, cfg, rateLimiter.Ceilings());
        var out;
        out, lastBalanceCheck := Step(t, lastBalanceCheck);
        used := used + 1;
        if used < |ticks| {
          NoneAfterLater(rateLimiter.Orders(), t.secondLegAt, ticks[used].now);
        }
        if out.Stopped? {
          return Some(out.reason), used;
        }
      }
      return None, used;
    }

    /** Shutdown: the loop is marked stopped, a positive final balance
        sample is booked, and both trackers report. */
    method Shutdown(finalBalance: real) returns (pnl: PnLStats, latency: LatencyStats)
      requires Valid()
      modifies this`running, pnlTracker
      ensures Valid()
      ensures State() == Booked(old(State()), finalBalance).(running := false)
      ensures pnl.initial + pnl.pnl == pnl.current && pnl.current == pnlTracker.currentBalance
      ensures pnl.long + pnl.short == successfulCycles
      ensures pnl.volume == pnlTracker.totalVolumeUsd
      ensures latency.recent == LastN(latencyTracker.recorded, 5)
      ensures |latencyTracker.recorded| == successfulCycles
      ensures |latency.recent| == if successfulCycles <= 5 then successfulCycles else 5
      ensures latency == latencyTracker.GetStats()
      ensures pnl == pnlTracker.GetStats()
    {
      running := false;
      var _ := pnlTracker.UpdateBalance(finalBalance);
      pnl := pnlTracker.GetStats();
      latency := latencyTracker.GetStats();
    }

    /** The whole run: start-up, and when it succeeds, the main loop over the
        ticks and then the shutdown. A failed start-up returns before any
        order is placed and without a shutdown report. */
    method Run(initialBalance: real, ticks: seq<Tick>, finalBalance: real)
      returns (started: bool, stopped: Option<StopReason>, report: Option<(PnLStats, LatencyStats)>)
      requires Valid()
      requires ClockOrdered(ticks) && (ticks != [] ==> NoneAfter(rateLimiter.Orders(), ticks[0].now))
      modifies this, rateLimiter, pnlTracker, latencyTracker
      ensures Valid()
      ensures started <==> initialBalance > 0.0
      ensures !started ==> State() == old(State()) && stopped.None? && report.None?
      ensures started ==>
        var r := Loop(Started(old(State()), initialBalance), ticks, 0.0, cfg, rateLimiter.Ceilings());
        && stopped == r.stopped
        && State() == Booked(r.view, finalBalance).(running := false)
        && report.Some? && report.value.0.long + report.value.0.short == successfulCycles
      ensures started ==> report == Some((pnlTracker.GetStats(), latencyTracker.GetStats()))
    {
      stopped, report := None, None;
      started := Start(initialBalance);
      if !started {
        return;
      }
      var used;
      stopped, used := MainLoop(ticks);
      var pnl, latency := Shutdown(finalBalance);
      report := Some((pnl, latency));
    }
  }
}
