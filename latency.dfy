/** Bounded history of recent cycle latencies plus the latest feed age
    (scalper.py, class `LatencyTracker`). Latencies are in milliseconds. */
module Latency {

  /** Sum of the held values, left to right. */
  function Sum(s: seq<real>): real
  {
    if s == [] then 0.0 else s[0] + Sum(s[1..])
  }

  /** The smallest held value. */
  function Min(s: seq<real>): (m: real)
    requires s != []
    ensures m in s
    ensures forall x :: x in s ==> m <= x
  {
    if |s| == 1 then s[0]
    else
      var rest := Min(s[1..]);
      assert forall x :: x in s ==> x == s[0] || x in s[1..];
      if s[0] <= rest then s[0] else rest
  }

  /** The largest held value. */
  function Max(s: seq<real>): (m: real)
    requires s != []
    ensures m in s
    ensures forall x :: x in s ==> x <= m
  {
    if |s| == 1 then s[0]
    else
      var rest := Max(s[1..]);
      assert forall x :: x in s ==> x == s[0] || x in s[1..];
      if s[0] >= rest then s[0] else rest
  }

  lemma Distribute(k: real, b: real)
    ensures (k + 1.0) * b == k * b + b
  {
  }

  /** Dividing a total by a positive count keeps a per-item bound. */
  lemma QuotientBounds(total: real, n: real, lo: real, hi: real)
    requires n > 0.0
    requires n * lo <= total <= n * hi
    ensures lo <= total / n <= hi
  {
  }

  /** A lower bound of every value bounds the average from below. */
  lemma {:induction false} SumAtLeast(s: seq<real>, lo: real)
    requires forall x :: x in s ==> lo <= x
    ensures Sum(s) >= |s| as real * lo
  {
    if s != [] {
      assert forall x :: x in s[1..] ==> x in s;
      SumAtLeast(s[1..], lo);
      assert s[0] in s;
      Distribute(|s[1..]| as real, lo);
    }
  }

  /** An upper bound of every value bounds the average from above. */
  lemma {:induction false} SumAtMost(s: seq<real>, hi: real)
    requires forall x :: x in s ==> x <= hi
    ensures Sum(s) <= |s| as real * hi
  {
    if s != [] {
      assert forall x :: x in s[1..] ==> x in s;
      SumAtMost(s[1..], hi);
      assert s[0] in s;
      Distribute(|s[1..]| as real, hi);
    }
  }

  /** The arithmetic mean of a non-empty history. */
  function Mean(s: seq<real>): real
    requires s != []
  {
    Sum(s) / |s| as real
  }

  /** The average of a non-empty history lies between its minimum and its
      maximum. */
  lemma AverageBetween(s: seq<real>)
    requires s != []
    ensures Min(s) <= Mean(s) <= Max(s)
  {
    SumAtLeast(s, Min(s));
    SumAtMost(s, Max(s));
    QuotientBounds(Sum(s), |s| as real, Min(s), Max(s));
  }

  /** The last `n` values of `s`, in order (all of them if there are fewer). */
  function LastN(s: seq<real>, n: nat): (r: seq<real>)
    ensures |r| == if |s| <= n then |s| else n
    ensures |s| <= n ==> r == s
    ensures r == s[|s| - |r|..]
  {
    if |s| <= n then s else s[|s| - n..]
  }

  /** Keeping only the last `n` after every append is the same as keeping the
      last `n` of everything ever appended. */
  lemma LastNOfAppend(s: seq<real>, x: real, n: nat)
    ensures LastN(LastN(s, n) + [x], n) == LastN(s + [x], n)
  {
    var t := LastN(s, n);
    if |s| > n {
      assert |t| == n;
      if n > 0 {
        assert (t + [x])[1..] == (s + [x])[|s| + 1 - n..];
      } else {
        assert LastN(t + [x], n) == [] == LastN(s + [x], n);
      }
    }
  }

  /** What `get_stats` reports. */
  datatype LatencyStats = LatencyStats(recent: seq<real>, avg: real, min: real, max: real, ws: real)

  class LatencyTracker {
    const maxRecords: nat
    var recentLatencies: seq<real>
    var currentWsLatency: real
    /** Every cycle latency recorded since construction, oldest first. */
    ghost var recorded: seq<real>

    ghost predicate Valid()
      reads this
    {
      recentLatencies == LastN(recorded, maxRecords)
    }

    constructor (maxRecords: nat := 5)
      ensures Valid()
      ensures this.maxRecords == maxRecords
      ensures recentLatencies == [] && recorded == [] && currentWsLatency == 0.0
    {
      this.maxRecords := maxRecords;
      recentLatencies := [];
      currentWsLatency := 0.0;
      recorded := [];
    }

    /** Appends to the bounded history; at capacity the oldest entry goes. */
    method RecordCycleLatency(latencyMs: real)
      requires Valid()
      modifies this
      ensures Valid()
      ensures recorded == old(recorded) + [latencyMs]
      ensures recentLatencies == LastN(old(recentLatencies) + [latencyMs], maxRecords)
      ensures currentWsLatency == old(currentWsLatency)
    {
      LastNOfAppend(recorded, latencyMs, maxRecords);
      var appended := recentLatencies + [latencyMs];
      if |appended| > maxRecords {
        appended := appended[|appended| - maxRecords..];
      }
      recentLatencies := appended;
      recorded := recorded + [latencyMs];
    }

    /** Overwrites the feed age; the history is untouched. */
    method UpdateWsLatency(latencyMs: real)
      modifies this
      ensures currentWsLatency == latencyMs
      ensures recentLatencies == old(recentLatencies) && recorded == old(recorded)
    {
      currentWsLatency := latencyMs;
    }

    /** Statistics over whatever the history holds; zeros when it is empty. */
    function GetStats(): (st: LatencyStats)
      reads this
      ensures st.recent == recentLatencies && st.ws == currentWsLatency
      ensures recentLatencies == [] ==> st.avg == 0.0 && st.min == 0.0 && st.max == 0.0
      ensures recentLatencies != [] ==>
        && st.min in recentLatencies && st.max in recentLatencies
        && (forall x :: x in recentLatencies ==> st.min <= x <= st.max)
        && st.avg == Mean(recentLatencies)
        && st.min <= st.avg <= st.max
    {
      if recentLatencies == [] then
        LatencyStats([], 0.0, 0.0, 0.0, currentWsLatency)
      else
        var lo := Min(recentLatencies);
        var hi := Max(recentLatencies);
        AverageBetween(recentLatencies);
        LatencyStats(recentLatencies, Mean(recentLatencies), lo, hi, currentWsLatency)
    }
  }

  /** The history never holds more than its capacity, and after at least
      `maxRecords` records it holds exactly the newest `maxRecords`, in order. */
  lemma HistoryIsNewest(t: LatencyTracker)
    requires t.Valid()
    ensures |t.recentLatencies| <= t.maxRecords
    ensures |t.recorded| >= t.maxRecords ==>
      t.recentLatencies == t.recorded[|t.recorded| - t.maxRecords..]
  {
  }
}
