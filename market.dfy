/** Market vocabulary shared by the trackers and the orchestrator: the trade
    direction, the order sides of a round trip, and the best-bid/best-offer
    snapshot that the feed callback keeps (scalper.py, `decide_direction`,
    `on_bbo_update`, `execute_cycle`). */
module Market {

  /** Which leg opens the round trip: LONG buys first, SHORT sells first. */
  datatype Direction = Long | Short

  /** Side of one market order. */
  datatype Side = Buy | Sell

  /** The side with more resting size is taken as the side with momentum;
      a tie goes LONG. */
  function DecideDirection(bidSize: real, askSize: real): (d: Direction)
    ensures d == Long <==> bidSize >= askSize
    ensures d == Short <==> bidSize < askSize
  {
    if bidSize >= askSize then Long else Short
  }

  /** Swapping the two sides of a book that is not tied swaps the direction. */
  lemma DirectionMirrorsBook(bidSize: real, askSize: real)
    requires bidSize != askSize
    ensures DecideDirection(bidSize, askSize) != DecideDirection(askSize, bidSize)
  {
  }

  /** The two legs of a cycle, in submission order: a cycle always opens and
      then closes, so the legs are on opposite sides. */
  function Legs(d: Direction): (legs: (Side, Side))
    ensures legs.0 != legs.1
    ensures legs.0 == Buy <==> d == Long
  {
    match d
    case Long => (Buy, Sell)
    case Short => (Sell, Buy)
  }

  /** The shared best-bid/best-offer snapshot; `spread` is in percent of the
      mid price and `lastUpdate` is the clock reading when it was built. */
  datatype Bbo = Bbo(
    bid: real, ask: real,
    bidSize: real, askSize: real,
    spread: real, midPrice: real,
    lastUpdate: real)

  /** The snapshot before any feed message arrived. */
  const INITIAL_BBO: Bbo := Bbo(0.0, 0.0, 0.0, 0.0, 100.0, 0.0, 0.0)

  /** One message from the BBO channel, as the callback sees it: no data
      block, a data block whose numbers fail to parse, or a quote whose
      missing fields already read as zero. */
  datatype BboMessage =
    | NoData
    | Unparsable
    | Quote(bid: real, ask: real, bidSize: real, askSize: real)

  /** A quote that may replace the snapshot: both prices strictly positive. */
  predicate Usable(m: BboMessage)
  {
    m.Quote? && m.bid > 0.0 && m.ask > 0.0
  }

  /** The snapshot built from a usable quote received at time `at`. */
  function Snapshot(bid: real, ask: real, bidSize: real, askSize: real, at: real): (s: Bbo)
    requires bid > 0.0 && ask > 0.0
    ensures s.bid == bid && s.ask == ask && s.bidSize == bidSize && s.askSize == askSize
    ensures s.lastUpdate == at
    ensures s.midPrice > 0.0
    ensures s.midPrice + s.midPrice == bid + ask
    ensures s.spread * s.midPrice == (ask - bid) * 100.0
    ensures s.spread >= 0.0 <==> bid <= ask
    ensures s.spread == 0.0 <==> bid == ask
    ensures bid <= ask ==> bid <= s.midPrice <= ask
  {
    var mid := (bid + ask) / 2.0;
    Bbo(bid, ask, bidSize, askSize, (ask - bid) / mid * 100.0, mid, at)
  }
}
