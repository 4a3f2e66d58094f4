/** Values shared by the order path: ticks, sides, order records and open-order positions. */
module OrderTypes {

  datatype Option<+T> = None | Some(value: T)

  /** A price in ticks; the smallest 32-bit integer is the "invalid" marker of TypeWrap. */
  type Ticks = int
  const INVALID_TICKS: Ticks := -0x8000_0000

  predicate ValidTicks(t: Ticks) {
    t != INVALID_TICKS
  }

  type AccountId = int
  type StrategyId = int
  type InstrumentId = int
  type OrderId = int

  /** Identity of a shared order object: its index in the pool of created orders. */
  type OrderRef = nat

  datatype Side = Buy | Sell | NoSide
  datatype OrderKind = Limit | Market
  datatype OrderState =
    Unknown | Pending | Working | Modifying | Cancelling | Cancelled | Rejected | Filled

  /** The states in which the exchange may still hold the order. */
  predicate Live(st: OrderState) {
    st.Pending? || st.Working? || st.Modifying? || st.Cancelling?
  }

  /** What the client asked for; fixed once the order is created. */
  datatype Terms = Terms(
    id: OrderId, account: AccountId, strategy: StrategyId, instrument: InstrumentId,
    side: Side, kind: OrderKind, stopLoss: bool, qty: int)

  /** Modify requests in flight, modify rejects in a row, cancel rejects. */
  datatype Counters = Counters(mods: nat, modRejs: nat, cxlRejs: nat)

  datatype Order = Order(
    terms: Terms, cumQty: int, price: Ticks, newPrice: Ticks, state: OrderState,
    counters: Counters, cancelOnAck: bool)
  {
    /** The quantity still open. */
    function Rem(): int {
      terms.qty - cumQty
    }
  }

  /** An order as it leaves the pool: nothing sent, nothing filled. */
  function Fresh(terms: Terms, price: Ticks): Order {
    Order(terms, 0, price, INVALID_TICKS, Unknown, Counters(0, 0, 0), false)
  }

  /** Open buy quantity, open sell quantity and signed position of one owner in one instrument. */
  datatype OpenPos = OpenPos(bids: int, asks: int, pos: int)
  const FLAT := OpenPos(0, 0, 0)

  function Plus(a: OpenPos, b: OpenPos): OpenPos {
    OpenPos(a.bids + b.bids, a.asks + b.asks, a.pos + b.pos)
  }

  /** Positions by (owner id, instrument); an absent entry is flat. */
  type Positions = map<(int, InstrumentId), OpenPos>

  function At(m: Positions, k: (int, InstrumentId)): OpenPos {
    if k in m then m[k] else FLAT
  }

  function Bump(m: Positions, k: (int, InstrumentId), d: OpenPos): (r: Positions)
    ensures r.Keys == m.Keys + {k}
  {
    m[k := Plus(At(m, k), d)]
  }

  /** What n more open lots on a side add to a position. */
  function OpenDelta(side: Side, n: int): OpenPos {
    match side
    case Buy => OpenPos(n, 0, 0)
    case Sell => OpenPos(0, n, 0)
    case NoSide => FLAT
  }

  /** What q more bought (or sold) lots add to a position. */
  function TradeDelta(side: Side, q: int): OpenPos {
    match side
    case Buy => OpenPos(0, 0, q)
    case Sell => OpenPos(0, 0, -q)
    case NoSide => FLAT
  }

  /** The two views of the positions, by account and by strategy. */
  datatype Ledger = Ledger(accounts: Positions, strategies: Positions)

  /** Adds a delta to the account's and to the strategy's position of an instrument. */
  function Post(l: Ledger, account: AccountId, strategy: StrategyId, instrument: InstrumentId, d: OpenPos): Ledger {
    Ledger(Bump(l.accounts, (account, instrument), d), Bump(l.strategies, (strategy, instrument), d))
  }

  function PostTerms(l: Ledger, t: Terms, d: OpenPos): Ledger {
    Post(l, t.account, t.strategy, t.instrument, d)
  }
}
