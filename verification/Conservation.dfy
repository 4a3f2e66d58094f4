/**
  Conservation of lots: a position is what the orders of its owner have filled, plus what came from outside.
  The law holds for every run, with overfills, busts, rejects and rebuilds in any order.
 */
module Conservation {
  import opened OrderTypes
  import opened Pipeline
  import opened Effects

  function Signed(side: Side, n: int): int {
    match side case Buy => n case Sell => -n case NoSide => 0
  }

  predicate Mine(t: Terms, w: Owner, i: InstrumentId) {
    Owns(w, t.account, t.strategy) && t.instrument == i
  }

  /** What one order has bought (or sold, negative) for an owner in an instrument. */
  function Traded(o: Order, w: Owner, i: InstrumentId): int {
    if Mine(o.terms, w, i) then Signed(o.terms.side, o.cumQty) else 0
  }

  function TradedSum(orders: seq<Order>, w: Owner, i: InstrumentId): int {
    if orders == [] then 0 else TradedSum(orders[..|orders| - 1], w, i) + Traded(orders[|orders| - 1], w, i)
  }

  /** What an event brings into (or takes out of) a position without any order filling. */
  function Outside(s: State, e: Event, w: Owner, i: InstrumentId): int {
    match e
    case ExternalFill(a, st, j, side, q) => if Owns(w, a, st) && j == i then Signed(side, q) else 0
    case RebuildPos(a, st, j, n) => if Owns(w, a, st) && j == i && j in s.config.instruments then n else 0
    case Rebuild(o) =>
      // the fills of a stored order are in the stored position already
      if o.terms.id !in s.table && (Live(o.state) || o.terms.instrument !in s.config.instruments) then -Traded(o, w, i) else 0
    case _ => 0
  }

  lemma {:induction false} TradedSumUpdate(orders: seq<Order>, ref: nat, o: Order, w: Owner, i: InstrumentId)
    requires ref < |orders|
    ensures TradedSum(orders[ref := o], w, i) == TradedSum(orders, w, i) - Traded(orders[ref], w, i) + Traded(o, w, i)
  {
    var n := |orders| - 1;
    if ref == n {
      assert orders[ref := o][..n] == orders[..n];
    } else {
      TradedSumUpdate(orders[..n], ref, o, w, i);
      assert orders[ref := o][..n] == orders[..n][ref := o];
    }
  }

  lemma {:induction false} TradedSumAppend(orders: seq<Order>, o: Order, w: Owner, i: InstrumentId)
    ensures TradedSum(orders + [o], w, i) == TradedSum(orders, w, i) + Traded(o, w, i)
  {
    assert (orders + [o])[..|orders|] == orders;
  }

  /** The change of the filled lots, event by event. */
  function TradedChange(s: State, e: Event, w: Owner, i: InstrumentId): int {
    if !Addressed(s, e) then 0 else
    match e
    case Fill(ref, q) => if s.orders[ref].state != Filled then Lots(s.orders[ref].terms, q, w, i) else 0
    case Bust(ref, q) => Lots(s.orders[ref].terms, -q, w, i)
    case Rebuild(o) => -Outside(s, e, w, i)
    case _ => 0
  }

  function Lots(t: Terms, q: int, w: Owner, i: InstrumentId): int {
    if Mine(t, w, i) then Signed(t.side, q) else 0
  }

  lemma {:induction false} TradedMore(o: Order, o': Order, q: int, w: Owner, i: InstrumentId)
    requires o'.terms == o.terms && o'.cumQty == o.cumQty + q
    ensures Traded(o', w, i) == Traded(o, w, i) + Lots(o.terms, q, w, i)
  {
  }

  lemma {:induction false} StepTraded(s: State, e: Event, w: Owner, i: InstrumentId)
    requires ListsKnown(s)
    ensures TradedSum(Step(s, e).orders, w, i) == TradedSum(s.orders, w, i) + TradedChange(s, e, w, i)
  {
    hide SendNew, SendMod, SendCxl, OnNewAck, OnModAck, OnModRej, OrdersOnCxlRej, OrdersOnNewRej, OnCxlAck,
         OnFill, OnBust, RebuildOrder, Post, TradedSum, Lots, Mine;
    if Addressed(s, e) {
      if IsQuiet(e) {
        QuietStep(s, e);
        TradedSumUpdate(s.orders, e.ref, Step(s, e).orders[e.ref], w, i);
      } else {
        match e {
          case Create(t, p) => TradedSumAppend(s.orders, Fresh(t, p), w, i);
          case New(ref, env) =>
            NewOrders(s, ref, env);
            TradedSumUpdate(s.orders, ref, SendNew(s, ref, env).0.orders[ref], w, i);
          case NewRej(ref) => RemovalTraded(s, ref, w, i);
          case CxlAck(ref) => RemovalTraded(s, ref, w, i);
          case Fill(ref, q) => FillTraded(s, ref, q, w, i);
          case Bust(ref, q) => FillTraded(s, ref, q, w, i);
          case ExternalFill(_, _, _, _, _) =>
          case Rebuild(o) => RebuildTraded(s, o, w, i);
          case RebuildPos(_, _, _, _) =>
        }
      }
    }
  }

  lemma {:induction false} RemovalTraded(s: State, ref: OrderRef, w: Owner, i: InstrumentId)
    requires Known(s, ref)
    ensures TradedSum(OnCxlAck(s, ref).orders, w, i) == TradedSum(s.orders, w, i)
    ensures TradedSum(OrdersOnNewRej(s, ref).orders, w, i) == TradedSum(s.orders, w, i)
  {
    hide PostTerms, TradedSum, Mine;
    TradedSumUpdate(s.orders, ref, s.orders[ref].(state := Rejected), w, i);
    TradedSumUpdate(s.orders, ref, s.orders[ref].(state := Cancelled), w, i);
  }

  lemma {:induction false} RebuildTraded(s: State, o: Order, w: Owner, i: InstrumentId)
    ensures TradedSum(RebuildOrder(s, o).orders, w, i) == TradedSum(s.orders, w, i) - Outside(s, Rebuild(o), w, i)
  {
    hide PostTerms, TradedSum, Traded;
    TradedSumAppend(s.orders, o, w, i);
  }

  lemma {:induction false} FillTraded(s: State, ref: OrderRef, q: int, w: Owner, i: InstrumentId)
    requires Known(s, ref)
    ensures TradedSum(OnFill(s, ref, q).orders, w, i)
         == TradedSum(s.orders, w, i) + if s.orders[ref].state != Filled then Lots(s.orders[ref].terms, q, w, i) else 0
    ensures TradedSum(OnBust(s, ref, q).orders, w, i) == TradedSum(s.orders, w, i) + Lots(s.orders[ref].terms, -q, w, i)
  {
    hide OnFill, OnBust, TradedSum, Traded, Lots;
    FillOrders(s, ref, q);
    BustOrders(s, ref, q);
    var o, f, b := s.orders[ref], OnFill(s, ref, q).orders[ref], OnBust(s, ref, q).orders[ref];
    TradedSumUpdate(s.orders, ref, f, w, i);
    TradedSumUpdate(s.orders, ref, b, w, i);
    if o.state != Filled { TradedMore(o, f, q, w, i); }
    TradedMore(o, b, -q, w, i);
  }

  /** The position part of an order's posting. */
  lemma {:induction false} PosOf(t: Terms, n: int, q: int, w: Owner, i: InstrumentId)
    ensures Part(ForTerms(t, Plus(OpenDelta(t.side, n), TradeDelta(t.side, q))), w, i).pos == Lots(t, q, w, i)
    ensures Part(ForTerms(t, OpenDelta(t.side, n)), w, i).pos == 0
    ensures Part(ForTerms(t, FLAT), w, i).pos == 0
  {
    hide OpenDelta, TradeDelta, Plus, Signed;
    DeltaPos(t.side, n, q);
  }

  lemma {:induction false} DeltaPos(side: Side, n: int, q: int)
    ensures Plus(OpenDelta(side, n), TradeDelta(side, q)).pos == Signed(side, q) && OpenDelta(side, n).pos == 0
  {
    if side == Buy {} else if side == Sell {} else {}
  }

  lemma {:induction false} PostingPos(s: State, e: Event, w: Owner, i: InstrumentId)
    requires ListsKnown(s)
    ensures Part(PostingOf(s, e, Accepted(s, e)), w, i).pos == TradedChange(s, e, w, i) + Outside(s, e, w, i)
  {
    hide SendNew, Validate, OpenDelta, TradeDelta, Plus, Lots, Part, ForTerms, Traded;
    NoPos(w, i);
    if Addressed(s, e) {
      match e {
        case New(ref, _) =>
          PosOf(s.orders[ref].terms, s.orders[ref].Rem(), 0, w, i);
          PosOf(s.orders[ref].terms, -s.orders[ref].Rem(), 0, w, i);
        case NewRej(ref) => PosOf(s.orders[ref].terms, -s.orders[ref].Rem(), 0, w, i);
        case CxlAck(ref) => PosOf(s.orders[ref].terms, -s.orders[ref].Rem(), 0, w, i);
        case Fill(ref, q) =>
          var o := s.orders[ref];
          PosOf(o.terms, if o.Rem() <= q then -o.Rem() else -q, q, w, i);
        case Bust(ref, q) => PosOf(s.orders[ref].terms, q, -q, w, i);
        case ExternalFill(a, st, j, side, q) => OutsidePos(a, st, j, side, q, w, i);
        case Rebuild(o) => PosOf(o.terms, o.Rem(), 0, w, i);
        case RebuildPos(a, st, j, n) => OutsidePos(a, st, j, NoSide, n, w, i);
        case _ =>
      }
    }
  }

  lemma {:induction false} NoPos(w: Owner, i: InstrumentId)
    ensures Part(NoPosting, w, i).pos == 0
  {
  }

  lemma {:induction false} OutsidePos(a: AccountId, st: StrategyId, j: InstrumentId, side: Side, q: int, w: Owner, i: InstrumentId)
    ensures Part(Posting(a, st, j, TradeDelta(side, q)), w, i).pos == if Owns(w, a, st) && j == i then Signed(side, q) else 0
    ensures Part(Posting(a, st, j, OpenPos(0, 0, q)), w, i).pos == if Owns(w, a, st) && j == i then q else 0
  {
    if side == Buy {} else if side == Sell {} else {}
  }

  /** Every event: position and filled lots differ by what comes from outside. */
  lemma {:induction false} LotsConserved(s: State, e: Event, w: Owner, i: InstrumentId)
    requires ListsKnown(s)
    ensures Held(Step(s, e).ledger, w, i).pos - TradedSum(Step(s, e).orders, w, i)
         == Held(s.ledger, w, i).pos - TradedSum(s.orders, w, i) + Outside(s, e, w, i)
  {
    hide Step, Held, Part, PostingOf, Accepted, TradedSum, TradedChange, Outside;
    StepLedger(s, e, w, i);
    StepTraded(s, e, w, i);
    PostingPos(s, e, w, i);
  }

  function TotalOutside(s: State, es: seq<Event>, w: Owner, i: InstrumentId): int
    requires ListsKnown(s)
    decreases |es|
  {
    if es == [] then 0 else Outside(s, es[0], w, i) + TotalOutside(Step(s, es[0]), es[1..], w, i)
  }

  lemma {:induction false} LotsOverRun(s: State, es: seq<Event>, w: Owner, i: InstrumentId)
    requires ListsKnown(s)
    ensures Held(Run(s, es).ledger, w, i).pos - TradedSum(Run(s, es).orders, w, i)
         == Held(s.ledger, w, i).pos - TradedSum(s.orders, w, i) + TotalOutside(s, es, w, i)
    decreases |es|
  {
    hide Step, Held, Outside, TradedSum;
    if es != [] {
      LotsConserved(s, es[0], w, i);
      LotsOverRun(Step(s, es[0]), es[1..], w, i);
    }
  }

  /** Every run from a fresh start: an owner's position is what its orders have filled, plus what came from outside. */
  lemma {:induction false} PositionIsFills(config: Config, es: seq<Event>, w: Owner, i: InstrumentId)
    ensures var s := Run(Initial(config), es);
            Held(s.ledger, w, i).pos == TradedSum(s.orders, w, i) + TotalOutside(Initial(config), es, w, i)
  {
    LotsOverRun(Initial(config), es, w, i);
  }
}
