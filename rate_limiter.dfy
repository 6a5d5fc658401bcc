/** Three nested sliding-window order ceilings, one per minute, hour and day
    (scalper.py, class `RateLimiter`). Each window is a queue of order
    timestamps in seconds; the clock reading `now` is a parameter. */
module RateLimiting {

  /** The three windows, tightest first. */
  datatype Window = Minute | Hour | Day {

    /** Width of the window in seconds. */
    function Span(): (s: real)
      ensures s > 0.0
    {
      match this
      case Minute => 60.0
      case Hour => 3600.0
      case Day => 86400.0
    }

    /** Position in the order the windows are tested. */
    function Rank(): (k: nat)
      ensures k < 3
    {
      match this
      case Minute => 0
      case Hour => 1
      case Day => 2
    }
  }

  /** What a capacity check reports: go ahead, or the window that is full and
      the seconds until its oldest order leaves it. */
  datatype Verdict = Allowed | Blocked(wait: real, window: Window)

  /** The timestamp queues of the three windows. */
  datatype Queues = Queues(minute: seq<real>, hour: seq<real>, day: seq<real>) {

    function Of(w: Window): seq<real>
    {
      match w
      case Minute => minute
      case Hour => hour
      case Day => day
    }

    /** Every queue with the same timestamps appended. */
    function AppendAll(ts: seq<real>): Queues
    {
      Queues(minute + ts, hour + ts, day + ts)
    }
  }

  /** The configured ceilings of the three windows. */
  datatype Limits = Limits(perMinute: int, perHour: int, perDay: int) {

    predicate Valid()
    {
      perMinute > 0 && perHour > 0 && perDay > 0
    }

    function Of(w: Window): int
    {
      match w
      case Minute => perMinute
      case Hour => perHour
      case Day => perDay
    }
  }

  /** Timestamps in the order the clock produced them. */
  ghost predicate Sorted(q: seq<real>)
  {
    forall i, j :: 0 <= i <= j < |q| ==> q[i] <= q[j]
  }

  /** The queue after dropping, from the front, every entry older than `span`
      seconds at time `now`; an entry exactly `span` old stays. */
  function Pruned(q: seq<real>, now: real, span: real): (r: seq<real>)
    ensures |r| <= |q| && r == q[|q| - |r|..]
    ensures forall i :: 0 <= i < |q| - |r| ==> now - q[i] > span
    ensures r == [] || now - r[0] <= span
    decreases |q|
  {
    if q != [] && now - q[0] > span then Pruned(q[1..], now, span) else q
  }

  /** Pruning stops at the first entry that is still inside the window: the
      kept part is the suffix that starts there, whatever follows it. */
  lemma {:induction false} PrunedStopsAtFirstFresh(q: seq<real>, now: real, span: real, k: nat)
    requires k <= |q|
    requires forall i :: 0 <= i < k ==> now - q[i] > span
    requires k == |q| || now - q[k] <= span
    ensures Pruned(q, now, span) == q[k..]
  {
    if k > 0 {
      PrunedStopsAtFirstFresh(q[1..], now, span, k - 1);
    }
  }

  /** Pruning twice in succession is pruning once. */
  lemma PrunedIdempotent(q: seq<real>, now: real, span: real)
    ensures Pruned(Pruned(q, now, span), now, span) == Pruned(q, now, span)
  {
  }

  /** On a queue in clock order, every entry left after pruning is at most
      `span` seconds older than `now`. */
  lemma {:induction false} PrunedWithinSpan(q: seq<real>, now: real, span: real)
    requires Sorted(q)
    ensures forall t :: t in Pruned(q, now, span) ==> now - t <= span
  {
    var r := Pruned(q, now, span);
    forall t | t in r
      ensures now - t <= span
    {
      var j :| 0 <= j < |r| && r[j] == t;
      var k := |q| - |r|;
      assert r[0] == q[k] && r[j] == q[k + j];
      assert q[k] <= q[k + j];
    }
  }

  /** Pruning keeps clock order. */
  lemma PrunedSorted(q: seq<real>, now: real, span: real)
    requires Sorted(q)
    ensures Sorted(Pruned(q, now, span))
  {
    var r := Pruned(q, now, span);
    assert forall i :: 0 <= i < |r| ==> r[i] == q[|q| - |r| + i];
  }

  /** All three queues pruned at time `now`, each against its own window. */
  function PruneAll(q: Queues, now: real): Queues
  {
    Queues(Pruned(q.minute, now, 60.0), Pruned(q.hour, now, 3600.0), Pruned(q.day, now, 86400.0))
  }

  /** Each window's queue is pruned against that window's own width. */
  lemma PruneAllPrunesEachWindow(q: Queues, now: real, w: Window)
    ensures PruneAll(q, now).Of(w) == Pruned(q.Of(w), now, w.Span())
  {
  }

  /** Appending to all queues appends to each window's queue. */
  lemma AppendAllOf(q: Queues, ts: seq<real>, w: Window)
    ensures q.AppendAll(ts).Of(w) == q.Of(w) + ts
  {
  }

  /** Every queue in clock order. */
  ghost predicate QueuesSorted(q: Queues)
  {
    Sorted(q.minute) && Sorted(q.hour) && Sorted(q.day)
  }

  /** No timestamp of `s` is later than the clock reading `c`. */
  predicate AtMost(s: seq<real>, c: real)
  {
    forall i :: 0 <= i < |s| ==> s[i] <= c
  }

  /** No queue holds a timestamp later than the clock reading `c`. */
  predicate NoneAfter(q: Queues, c: real)
  {
    AtMost(q.minute, c) && AtMost(q.hour, c) && AtMost(q.day, c)
  }

  /** Pruning keeps clock order in every queue. */
  lemma PruneAllSorted(q: Queues, now: real)
    requires QueuesSorted(q)
    ensures QueuesSorted(PruneAll(q, now))
  {
    PrunedSorted(q.minute, now, 60.0);
    PrunedSorted(q.hour, now, 3600.0);
    PrunedSorted(q.day, now, 86400.0);
  }

  /** On queues in clock order, pruning at `now` leaves in every window only
      timestamps at most that window's width older than `now`. */
  lemma PruneAllWithinSpans(q: Queues, now: real)
    requires QueuesSorted(q)
    ensures forall w: Window, t :: t in PruneAll(q, now).Of(w) ==> now - t <= w.Span()
  {
    forall w: Window, t | t in PruneAll(q, now).Of(w)
      ensures now - t <= w.Span()
    {
      PruneAllPrunesEachWindow(q, now, w);
      assert Sorted(q.Of(w)) by {
        match w
        case Minute =>
        case Hour =>
        case Day =>
      }
      PrunedWithinSpan(q.Of(w), now, w.Span());
    }
  }

  /** What pruning keeps is a suffix, so it adds no later timestamp. */
  lemma {:induction false} PrunedAtMost(s: seq<real>, now: real, span: real, c: real)
    requires AtMost(s, c)
    ensures AtMost(Pruned(s, now, span), c)
    decreases |s|
  {
    if s != [] && now - s[0] > span {
      assert AtMost(s[1..], c) by {
        forall i | 0 <= i < |s| - 1
          ensures s[1..][i] <= c
        {
          assert s[1..][i] == s[i + 1];
        }
      }
      PrunedAtMost(s[1..], now, span, c);
    }
  }

  /** Pruning only drops entries, so no queue gains a timestamp later than `c`. */
  lemma PruningKeepsNoneAfter(q: Queues, now: real, c: real)
    requires NoneAfter(q, c)
    ensures NoneAfter(PruneAll(q, now), c)
  {
    PrunedAtMost(q.minute, now, 60.0, c);
    PrunedAtMost(q.hour, now, 3600.0, c);
    PrunedAtMost(q.day, now, 86400.0, c);
  }

  /** A bound by an earlier clock reading is a bound by a later one. */
  lemma NoneAfterLater(q: Queues, c: real, d: real)
    requires NoneAfter(q, c) && c <= d
    ensures NoneAfter(q, d)
  {
  }

  /** Appending timestamps no later than `c` keeps every entry no later
      than `c`. */
  lemma AppendKeepsNoneAfter(q: Queues, ts: seq<real>, c: real)
    requires NoneAfter(q, c) && AtMost(ts, c)
    ensures NoneAfter(q.AppendAll(ts), c)
  {
  }

  /** Every window holds at most one order above its ceiling. */
  predicate WithinOneOfCeilings(q: Queues, limits: Limits)
  {
    && |q.minute| <= limits.perMinute + 1
    && |q.hour| <= limits.perHour + 1
    && |q.day| <= limits.perDay + 1
  }

  /** Pruning only removes entries, so it keeps every window within one of
      its ceiling. */
  lemma PruningKeepsWithinOne(q: Queues, limits: Limits, now: real)
    requires WithinOneOfCeilings(q, limits)
    ensures WithinOneOfCeilings(PruneAll(q, now), limits)
  {
  }

  /** The capacity check over already pruned queues: the windows are tested
      minute, hour, day, and the first one holding at least its ceiling
      blocks, with the time until its oldest entry leaves it. */
  function Check(q: Queues, limits: Limits, now: real): (v: Verdict)
    requires limits.Valid()
    ensures v.Allowed? <==> forall w :: |q.Of(w)| < limits.Of(w)
    ensures v.Blocked? ==> |q.Of(v.window)| >= limits.Of(v.window)
    ensures v.Blocked? ==> forall w: Window :: w.Rank() < v.window.Rank() ==> |q.Of(w)| < limits.Of(w)
    ensures v.Blocked? ==> v.wait == v.window.Span() - (now - q.Of(v.window)[0])
  {
    if |q.minute| >= limits.perMinute then Blocked(60.0 - (now - q.minute[0]), Minute)
    else if |q.hour| >= limits.perHour then Blocked(3600.0 - (now - q.hour[0]), Hour)
    else if |q.day| >= limits.perDay then Blocked(86400.0 - (now - q.day[0]), Day)
    else Allowed
  }

  /** The oldest entry left after pruning leaves the window after a wait
      that is never negative, and at most the window's width when that entry
      is not later than `now`. */
  lemma PrunedHeadWait(s: seq<real>, now: real, span: real)
    ensures var r := Pruned(s, now, span);
      r != [] ==> 0.0 <= span - (now - r[0]) && (r[0] <= now ==> span - (now - r[0]) <= span)
  {
  }

  /** Checked right after pruning, the reported wait is never negative, and
      it is at most the window's width when the oldest entry left in that
      window is not later than `now`. */
  lemma WaitWithinWindow(q: Queues, limits: Limits, now: real)
    requires limits.Valid()
    ensures var p := PruneAll(q, now); var v := Check(p, limits, now);
      v.Blocked? ==> v.wait >= 0.0
    ensures var p := PruneAll(q, now); var v := Check(p, limits, now);
      v.Blocked? && p.Of(v.window)[0] <= now ==> v.wait <= v.window.Span()
  {
    PrunedHeadWait(q.minute, now, 60.0);
    PrunedHeadWait(q.hour, now, 3600.0);
    PrunedHeadWait(q.day, now, 86400.0);
  }

  /** One allowed check followed by the (at most two) orders of a cycle leaves
      every window at most one above its ceiling, and exactly one above when
      both legs were recorded into a window that had one free slot: the check
      asks for one slot, not two. */
  lemma CycleAfterAllowedOvershootsByAtMostOne(q: Queues, limits: Limits, now: real, ts: seq<real>)
    requires limits.Valid()
    requires Check(q, limits, now) == Allowed
    requires |ts| <= 2
    ensures WithinOneOfCeilings(q.AppendAll(ts), limits)
    ensures forall w :: |ts| == 2 && |q.Of(w)| == limits.Of(w) - 1 ==> |q.AppendAll(ts).Of(w)| == limits.Of(w) + 1
  {
    forall w | |ts| == 2 && |q.Of(w)| == limits.Of(w) - 1
      ensures |q.AppendAll(ts).Of(w)| == limits.Of(w) + 1
    {
      AppendAllOf(q, ts, w);
    }
  }

  /** Drops, from the front of one queue, every timestamp more than `span`
      seconds older than `now`. */
  method PruneFront(q: seq<real>, now: real, span: real) returns (r: seq<real>)
    ensures r == Pruned(q, now, span)
  {
    r := q;
    while r != [] && now - r[0] > span
      invariant Pruned(r, now, span) == Pruned(q, now, span)
      decreases |r|
    {
      r := r[1..];
    }
  }

  /** The limiter: the three ceilings and the three timestamp queues. */
  class RateLimiter {
    const perMinute: int
    const perHour: int
    const perDay: int
    var minuteOrders: seq<real>
    var hourOrders: seq<real>
    var dayOrders: seq<real>

    /** Positive ceilings, and every queue in clock order. */
    ghost predicate Valid()
      reads this
    {
      Ceilings().Valid() && QueuesSorted(Orders())
    }

    /** The ceilings are constants, so this does not read the heap. */
    function Ceilings(): Limits
    {
      Limits(perMinute, perHour, perDay)
    }

    function Orders(): Queues
      reads this
    {
      Queues(minuteOrders, hourOrders, dayOrders)
    }

    constructor (perMinute: int, perHour: int, perDay: int)
      requires perMinute > 0 && perHour > 0 && perDay > 0
      ensures Valid()
      ensures Ceilings() == Limits(perMinute, perHour, perDay)
      ensures Orders() == Queues([], [], [])
    {
      this.perMinute := perMinute;
      this.perHour := perHour;
      this.perDay := perDay;
      minuteOrders := [];
      hourOrders := [];
      dayOrders := [];
    }

    /** Prunes the three queues at time `now`, then checks them tightest first. */
    method CanPlaceOrder(now: real) returns (v: Verdict)
      requires Valid()
      modifies this
      ensures Valid()
      ensures Orders() == PruneAll(old(Orders()), now)
      ensures v == Check(Orders(), Ceilings(), now)
      ensures forall w: Window, t :: t in Orders().Of(w) ==> now - t <= w.Span()
    {
      PruneAllSorted(Orders(), now);
      PruneAllWithinSpans(Orders(), now);
      minuteOrders := PruneFront(minuteOrders, now, 60.0);
      hourOrders := PruneFront(hourOrders, now, 3600.0);
      dayOrders := PruneFront(dayOrders, now, 86400.0);
      v := Check(Orders(), Ceilings(), now);
    }

    /** Counts one order at time `now` against all three windows, without
        consulting the ceilings. The clock does not run backwards, so `now`
        is no earlier than anything already recorded. */
    method RecordOrder(now: real)
      requires Valid()
      requires NoneAfter(Orders(), now)
      modifies this
      ensures Valid()
      ensures Orders() == old(Orders()).AppendAll([now])
    {
      AppendKeepsSorted(minuteOrders, now);
      AppendKeepsSorted(hourOrders, now);
      AppendKeepsSorted(dayOrders, now);
      minuteOrders := minuteOrders + [now];
      hourOrders := hourOrders + [now];
      dayOrders := dayOrders + [now];
    }
  }

  /** Recording at a time no earlier than the last entry keeps clock order. */
  lemma AppendKeepsSorted(q: seq<real>, now: real)
    requires Sorted(q)
    requires q == [] || q[|q| - 1] <= now
    ensures Sorted(q + [now])
  {
  }
}
