/** Realised profit and loss from account-balance samples, and the traded
    notional it is normalised by (scalper.py, class `BalancePnLTracker`). */
module PnL {
  import opened Market

  function Abs(x: real): (a: real)
    ensures a >= 0.0 && (a == x || a == -x)
  {
    if x < 0.0 then -x else x
  }

  /** Size-independent cost metric: the magnitude of the realised PnL per unit
      of notional traded, zero before anything was traded. */
  function CostRate(pnl: real, volume: real): (r: real)
    ensures volume == 0.0 ==> r == 0.0
    ensures volume != 0.0 ==> r * volume == Abs(pnl)
    ensures volume > 0.0 ==> r >= 0.0
  {
    if volume == 0.0 then 0.0 else Abs(pnl) / volume
  }

  /** For a fixed notional the cost rate is proportional to the PnL magnitude. */
  lemma CostRateScalesWithPnl(pnl: real, volume: real, k: real)
    requires k >= 0.0
    ensures CostRate(k * pnl, volume) == k * CostRate(pnl, volume)
  {
    if volume != 0.0 {
      assert Abs(k * pnl) == k * Abs(pnl);
    }
  }

  /** Notional of one round trip: both legs of `size` at `price`. */
  function RoundTripNotional(price: real, size: real): real
  {
    price * size * 2.0
  }

  /** What `get_stats` reports. */
  datatype PnLStats = PnLStats(
    pnl: real, volume: real,
    per10k: real, per100k: real, perMillion: real,
    initial: real, current: real,
    long: nat, short: nat)

  class BalancePnLTracker {
    var initialBalance: real
    var currentBalance: real
    var totalVolumeUsd: real
    var lastValidBalance: real
    var longCount: nat
    var shortCount: nat

    /** Balances only ever come from strictly positive samples: they are
        either still at their initial zero or positive, and the last valid
        balance is always the current one. */
    ghost predicate Valid()
      reads this
    {
      && lastValidBalance == currentBalance
      && initialBalance >= 0.0 && currentBalance >= 0.0
      && (initialBalance > 0.0 ==> currentBalance > 0.0)
    }

    constructor ()
      ensures Valid()
      ensures initialBalance == 0.0 && currentBalance == 0.0 && lastValidBalance == 0.0
      ensures totalVolumeUsd == 0.0 && longCount == 0 && shortCount == 0
    {
      initialBalance := 0.0;
      currentBalance := 0.0;
      totalVolumeUsd := 0.0;
      lastValidBalance := 0.0;
      longCount := 0;
      shortCount := 0;
    }

    /** Accepts a strictly positive sample as both the starting and the
        current balance; anything else is rejected and changes nothing. */
    method SetInitialBalance(balance: real) returns (ok: bool)
      requires Valid()
      modifies this
      ensures Valid()
      ensures ok <==> balance > 0.0
      ensures !ok ==> unchanged(this)
      ensures ok ==> initialBalance == balance && currentBalance == balance && lastValidBalance == balance
      ensures ok ==> totalVolumeUsd == old(totalVolumeUsd) && longCount == old(longCount) && shortCount == old(shortCount)
    {
      if balance <= 0.0 {
        return false;
      }
      initialBalance := balance;
      currentBalance := balance;
      lastValidBalance := balance;
      return true;
    }

    /** Accepts a strictly positive sample as the current balance; a failed
        balance query (zero or negative) keeps the last valid value. */
    method UpdateBalance(balance: real) returns (ok: bool)
      requires Valid()
      modifies this
      ensures Valid()
      ensures ok <==> balance > 0.0
      ensures !ok ==> unchanged(this)
      ensures ok ==> currentBalance == balance && lastValidBalance == balance
      ensures ok ==> initialBalance == old(initialBalance) && totalVolumeUsd == old(totalVolumeUsd)
      ensures ok ==> longCount == old(longCount) && shortCount == old(shortCount)
    {
      if balance <= 0.0 {
        return false;
      }
      currentBalance := balance;
      lastValidBalance := balance;
      return true;
    }

    /** Adds the notional of both legs and counts the cycle under its direction. */
    method RecordCycleVolume(price: real, size: real, direction: Direction)
      requires Valid()
      modifies this
      ensures Valid()
      ensures totalVolumeUsd == old(totalVolumeUsd) + RoundTripNotional(price, size)
      ensures longCount == old(longCount) + (if direction == Long then 1 else 0)
      ensures shortCount == old(shortCount) + (if direction == Long then 0 else 1)
      ensures longCount + shortCount == old(longCount + shortCount) + 1
      ensures initialBalance == old(initialBalance) && currentBalance == old(currentBalance)
      ensures lastValidBalance == old(lastValidBalance)
    {
      totalVolumeUsd := totalVolumeUsd + RoundTripNotional(price, size);
      if direction == Long {
        longCount := longCount + 1;
      } else {
        shortCount := shortCount + 1;
      }
    }

    /** Realised PnL: how far the current balance is above the initial one. */
    function GetRealPnl(): (pnl: real)
      reads this
      ensures initialBalance + pnl == currentBalance
    {
      currentBalance - initialBalance
    }

    /** Cost rate scaled per ten thousand, hundred thousand and million of
        notional; all zero while nothing has been traded. */
    function GetStats(): (st: PnLStats)
      reads this
      ensures st.pnl == GetRealPnl()
      ensures st.initial == initialBalance && st.current == currentBalance
      ensures st.long == longCount && st.short == shortCount
      ensures st.volume == totalVolumeUsd
      ensures totalVolumeUsd == 0.0 ==> st.per10k == 0.0 && st.per100k == 0.0 && st.perMillion == 0.0
      ensures totalVolumeUsd != 0.0 ==> st.per10k * totalVolumeUsd == Abs(st.pnl) * 10000.0
      ensures st.per100k == 10.0 * st.per10k && st.perMillion == 100.0 * st.per10k
      ensures totalVolumeUsd > 0.0 ==> st.per10k >= 0.0
    {
      var pnl := GetRealPnl();
      if totalVolumeUsd == 0.0 then
        PnLStats(pnl, 0.0, 0.0, 0.0, 0.0, initialBalance, currentBalance, longCount, shortCount)
      else
        var rate := CostRate(pnl, totalVolumeUsd);
        PnLStats(pnl, totalVolumeUsd, rate * 10000.0, rate * 100000.0, rate * 1000000.0,
                 initialBalance, currentBalance, longCount, shortCount)
    }
  }
}
