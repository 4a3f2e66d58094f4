/** The process's own book over whole runs: no live buy is ever priced at or above a live sell of its instrument. */
module WashTradeBook {
  import opened OrderTypes
  import opened Pipeline
  import opened Effects
  import opened WashTrade

  // ---------- handlers that change one order and quote nothing new ----------

  predicate Only(s: State, r: State, ref: OrderRef)
    requires Known(s, ref)
  {
    Framed(s, r) && |r.orders| == |s.orders| && r.orders == s.orders[ref := r.orders[ref]]
  }

  /** The handler leaves everything but one order alone, and that order quotes no new price and stays booked. */
  predicate Tame(s: State, r: State, ref: OrderRef, v: Venue)
    requires Known(s, ref)
  {
    Only(s, r, ref) && Shrinks(s.orders[ref], r.orders[ref]) && Booked(r.orders[ref], v)
  }

  lemma {:induction false} CxlTame(s: State, ref: OrderRef, v: Venue, env: Env)
    requires Known(s, ref) && Booked(s.orders[ref], v)
    ensures Tame(s, SendCxl(s, ref, env).0, ref, v)
  {
    hide ChannelSendRequest, CountMsg, UncountMsg;
    var m := CountMsg(s, ref, MsgCxl, 1);
    assert Tame(s, OrdersSendCxl(m, ref).0, ref, v);
    assert Tame(s, SendCxlFromOrders(m, ref, env).0, ref, v);
  }

  lemma {:induction false} CancelOnAckTame(s: State, ref: OrderRef, v: Venue, env: Env)
    requires Known(s, ref) && Booked(s.orders[ref], v)
    ensures Tame(s, CancelOnAck(s, ref, env), ref, v)
  {
    hide SendCxl;
    if s.orders[ref].cancelOnAck {
      var t := SetOrder(s, ref, s.orders[ref].(cancelOnAck := false));
      CxlTame(t, ref, v, env);
    }
  }

  lemma {:induction false} NewAckTame(s: State, ref: OrderRef, v: Venue, env: Env)
    requires Known(s, ref) && Booked(s.orders[ref], v)
    ensures Tame(s, OnNewAck(s, ref, env), ref, v)
  {
    hide CancelOnAck;
    var o := s.orders[ref];
    var a := if o.state == Pending then SetOrder(s, ref, o.(state := Working)) else s;
    CancelOnAckTame(a, ref, v, env);
  }

  /** An answered modify request: the exchange echoes the price it was asked for. */
  lemma {:induction false} ModAckTame(s: State, ref: OrderRef, p: Ticks, v: Venue, env: Env)
    requires Known(s, ref) && Booked(s.orders[ref], v) && (s.orders[ref].state == Modifying ==> v.inflight != [] && p == v.inflight[0])
    ensures Tame(s, OnModAck(s, ref, p, env), ref, Answered(v, true))
  {
    hide CancelOnAck;
    var o := s.orders[ref];
    var b := OnModPost(SetOrder(s, ref, o.(newPrice := p, counters := o.counters.(modRejs := 0))), ref, true);
    assert Tame(s, b, ref, Answered(v, true));
    CancelOnAckTame(b, ref, Answered(v, true), env);
  }

  lemma {:induction false} ModRejTame(s: State, ref: OrderRef, v: Venue, env: Env)
    requires Known(s, ref) && Booked(s.orders[ref], v)
    ensures Tame(s, OnModRej(s, ref, env), ref, Answered(v, false))
  {
    hide CancelOnAck;
    var b := OnModPost(OrdersOnModRej(s, ref), ref, false);
    assert Tame(s, b, ref, Answered(v, false));
    CancelOnAckTame(b, ref, Answered(v, false), env);
  }

  lemma {:induction false} RemovalTame(s: State, ref: OrderRef, v: Venue)
    requires Known(s, ref) && Booked(s.orders[ref], v)
    ensures Tame(s, OnCxlAck(s, ref), ref, v)
    ensures Tame(s, OrdersOnNewRej(s, ref), ref, v)
    ensures Tame(s, OrdersOnCxlRej(s, ref), ref, v)
  {
    hide PostTerms;
  }

  lemma {:induction false} FillTame(s: State, ref: OrderRef, q: int, v: Venue)
    requires Known(s, ref) && Booked(s.orders[ref], v)
    ensures Tame(s, OnFill(s, ref, q), ref, v)
    ensures s.orders[ref].state != Filled ==> Tame(s, OnBust(s, ref, q), ref, v)
  {
    hide OnFill, OnBust;
    FillOrders(s, ref, q);
    BustOrders(s, ref, q);
  }

  // ---------- new prices pass the scan ----------

  /** A live order of the other side in the same instrument. */
  predicate Opposite(x: Order, t: Terms) {
    Live(x.state) && x.terms.instrument == t.instrument
    && ((x.terms.side == Buy && t.side == Sell) || (x.terms.side == Sell && t.side == Buy))
  }

  /** No live order of the other side meets the price. */
  ghost predicate Clear(orders: seq<Order>, t: Terms, price: Ticks) {
    forall k :: 0 <= k < |orders| && Opposite(orders[k], t) ==> !Crossing(orders[k], t.side, price)
  }

  /** The scan drops no live order from the lists. */
  lemma {:induction false} ScanCovers(s: State, ref: OrderRef, price: Ticks, q: Quote, x: int)
    requires Known(s, ref) && ListsKnown(s) && CoveredBut(s.orders, s.lists, x)
    ensures CoveredBut(s.orders, CanSend(s, ref, price, q).0.lists, x)
  {
    hide Scan, QuoteOverride, Crossing;
    var o := s.orders[ref];
    if !o.terms.stopLoss {
      var l := ListsAt(s, o.terms.instrument);
      ScanClear(s.orders, if o.terms.side == Buy then l.sells else l.buys, o.terms.side, price);
    }
  }

  /** With quotes off, a price that passes the check is clear of every listed live order. */
  lemma {:induction false} PassedIsClear(s: State, ref: OrderRef, price: Ticks, q: Quote)
    requires Known(s, ref) && ListsKnown(s) && CoveredBut(s.orders, s.lists, ref) && !s.config.useQuotes
    requires !s.orders[ref].terms.stopLoss && CanSend(s, ref, price, q).1.None?
    ensures Clear(s.orders, s.orders[ref].terms, price)
  {
    hide Scan, Crossing;
    var o := s.orders[ref];
    var l := ListsAt(s, o.terms.instrument);
    ScanClear(s.orders, if o.terms.side == Buy then l.sells else l.buys, o.terms.side, price);
  }

  /** Every price the changed order quotes is one it quoted while live, or p. */
  predicate Grows(o: Order, o': Order, p: Ticks) {
    o'.terms == o.terms
    && (o'.price == p || (Live(o.state) && Quotes(o, o'.price)))
    && (o'.state == Modifying && ValidTicks(o'.newPrice) ==> o'.newPrice == p || (Live(o.state) && Quotes(o, o'.newPrice)))
  }

  /** Every live order has a valid price. */
  ghost predicate AllPriced(orders: seq<Order>) {
    forall k :: 0 <= k < |orders| && Live(orders[k].state) ==> ValidTicks(orders[k].price)
  }

  lemma {:induction false} BookedPriced(orders: seq<Order>, venue: seq<Venue>)
    requires AllBooked(orders, venue)
    ensures AllPriced(orders)
  {
    forall k | 0 <= k < |orders| && Live(orders[k].state) ensures ValidTicks(orders[k].price) {
      assert Booked(orders[k], venue[k]);
    }
  }

  lemma {:induction false} GrowKeeps(orders: seq<Order>, ref: OrderRef, o: Order, p: Ticks)
    requires ref < |orders| && NoCross(orders) && AllPriced(orders)
    requires Grows(orders[ref], o, p) && Clear(orders, o.terms, p)
    ensures NoCross(orders[ref := o])
  {
    hide Grows, Clear, Apart;
    var after := orders[ref := o];
    forall b, a | 0 <= b < |after| && 0 <= a < |after| && Facing(after[b], after[a]) ensures Apart(after[b], after[a]) {
      if b == ref {
        ApartFrom(orders, ref, o, p, a);
      } else if a == ref {
        ApartFrom(orders, ref, o, p, b);
      } else {
        assert Apart(orders[b], orders[a]);
      }
    }
  }

  lemma {:induction false} ApartFrom(orders: seq<Order>, ref: OrderRef, o: Order, p: Ticks, k: nat)
    requires ref < |orders| && k < |orders| && k != ref && NoCross(orders) && AllPriced(orders)
    requires Grows(orders[ref], o, p) && Clear(orders, o.terms, p)
    ensures Facing(o, orders[k]) ==> Apart(o, orders[k])
    ensures Facing(orders[k], o) ==> Apart(orders[k], o)
  {
    if Facing(o, orders[k]) {
      assert Opposite(orders[k], o.terms);
      if Live(orders[ref].state) { assert Facing(orders[ref], orders[k]); }
    }
    if Facing(orders[k], o) {
      assert Opposite(orders[k], o.terms);
      if Live(orders[ref].state) { assert Facing(orders[k], orders[ref]); }
    }
  }

  // ---------- new and modify requests ----------

  lemma {:induction false} CoveredSame(orders: seq<Order>, ref: OrderRef, o: Order, lists: map<InstrumentId, SideLists>, x: int)
    requires ref < |orders| && o.terms == orders[ref].terms && (x == ref || Live(o.state) == Live(orders[ref].state))
    ensures CoveredBut(orders[ref := o], lists, x) <==> CoveredBut(orders, lists, x)
  {
    hide ListOf;
    var after := orders[ref := o];
    if CoveredBut(after, lists, x) {
      forall k | 0 <= k < |orders| && k != x && Live(orders[k].state) ensures k in ListOf(lists, orders[k].terms) {
        assert Live(after[k].state);
      }
    }
  }

  lemma {:induction false} WtpCovers(s: State, ref: OrderRef, q: Quote)
    requires Known(s, ref) && ListsKnown(s) && CoveredBut(s.orders, s.lists, ref)
    ensures CoveredBut(s.orders, WtpSendNew(s, ref, q).0.lists, ref)
    ensures WtpSendNew(s, ref, q).1.None? ==> ref in ListOf(WtpSendNew(s, ref, q).0.lists, s.orders[ref].terms)
  {
    hide CanSend;
    ScanCovers(s, ref, s.orders[ref].price, q, ref);
  }

  /** Everything a new-order request leaves behind that the invariant speaks of. */
  lemma {:induction false} NewCovers(s: State, ref: OrderRef, env: Env)
    requires Known(s, ref) && ListsKnown(s) && Covered(s.orders, s.lists) && s.orders[ref].state == Unknown
    ensures Covered(SendNew(s, ref, env).0.orders, SendNew(s, ref, env).0.lists)
  {
    hide WtpSendNew, OrdersSendNew, OrdersOnNewRej, CountMsg, UncountMsg, RiskSendNew, ChannelSendNew, SendNew;
    NewOrders(s, ref, env);
    NewLists(s, ref, env);
  }

  lemma {:induction false} NewLists(s: State, ref: OrderRef, env: Env)
    requires Known(s, ref) && ListsKnown(s) && Covered(s.orders, s.lists) && s.orders[ref].state == Unknown
    ensures CoveredBut(s.orders, SendNew(s, ref, env).0.lists, ref)
    ensures SendNew(s, ref, env).1.None? ==> ref in ListOf(SendNew(s, ref, env).0.lists, s.orders[ref].terms)
  {
    hide WtpSendNew, OrdersSendNew, OrdersOnNewRej, CountMsg, UncountMsg, RiskSendNew, ChannelSendNew, ListOf;
    var a := OrdersSendNew(CountMsg(s, ref, MsgNew, 1), ref);
    OrdersNewEffect(CountMsg(s, ref, MsgNew, 1), ref);
    if a.1.None? {
      assert CoveredBut(a.0.orders, a.0.lists, ref);
      WtpCovers(a.0, ref, env.quote);
      CoveredSame(s.orders, ref, a.0.orders[ref], WtpSendNew(a.0, ref, env.quote).0.lists, ref);
    }
  }

  /** An accepted new order: limit, on a side, and with quotes off clear of the other side at its price. */
  lemma {:induction false} AcceptedIsClear(s: State, ref: OrderRef, env: Env)
    requires Known(s, ref) && ListsKnown(s) && Covered(s.orders, s.lists) && SendNew(s, ref, env).1.None?
    ensures var o := s.orders[ref];
            && o.state == Unknown && o.terms.side != NoSide && ValidTicks(o.price)
            && (!s.config.useQuotes && !o.terms.stopLoss ==> Clear(s.orders, o.terms, o.price))
  {
    hide OrdersSendNew, CanSend, CountMsg, RiskSendNew, Clear, Crossing;
    var m := CountMsg(s, ref, MsgNew, 1);
    var a := OrdersSendNew(m, ref);
    OrdersNewEffect(m, ref);
    assert CoveredBut(a.0.orders, a.0.lists, ref);
    if !s.config.useQuotes && !s.orders[ref].terms.stopLoss {
      PassedIsClear(a.0, ref, a.0.orders[ref].price, env.quote);
      ClearUpdate(s.orders, ref, a.0.orders[ref], s.orders[ref].price);
    }
    AcceptedSide(s, ref, env);
  }

  lemma {:induction false} AcceptedSide(s: State, ref: OrderRef, env: Env)
    requires Known(s, ref) && ListsKnown(s) && SendNew(s, ref, env).1.None?
    ensures s.orders[ref].terms.side != NoSide && s.orders[ref].terms.kind == Limit
  {
    hide OrdersSendNew, CanSend, CountMsg, RiskSendNew;
    OrdersNewEffect(CountMsg(s, ref, MsgNew, 1), ref);
  }

  /** Being clear does not depend on the order that asks. */
  lemma {:induction false} ClearUpdate(orders: seq<Order>, ref: OrderRef, o: Order, p: Ticks)
    requires ref < |orders| && o.terms == orders[ref].terms && Clear(orders[ref := o], o.terms, p)
    ensures Clear(orders, o.terms, p)
  {
    hide Crossing;
    forall k | 0 <= k < |orders| && Opposite(orders[k], o.terms) ensures !Crossing(orders[k], o.terms.side, p) {
      assert k != ref;
      assert orders[ref := o][k] == orders[k];
    }
  }

  /** An accepted modify: the order is modifying, the request is counted, and with quotes off the requested price is clear. */
  lemma {:induction false} ModAccepted(s: State, ref: OrderRef, p: Ticks, env: Env)
    requires Known(s, ref) && ListsKnown(s) && Covered(s.orders, s.lists) && SendMod(s, ref, p, env).1.None?
    ensures var r := SendMod(s, ref, p, env).0;
            var o := s.orders[ref];
            && (o.state == Working || o.state == Modifying) && ValidTicks(p)
            && (!s.config.useQuotes && !o.terms.stopLoss ==> Clear(s.orders, o.terms, p))
            && r.orders == s.orders[ref := o.(newPrice := p, state := Modifying, counters := o.counters.(mods := o.counters.mods + 1))]
  {
    hide CanSend, CountMsg, Clear, Crossing, ChannelSendRequest;
    var o := s.orders[ref];
    var m := CountMsg(SetOrder(s, ref, o.(newPrice := p)), ref, MsgMod, 1);
    var a := OrdersSendMod(m, ref);
    assert a.0.orders == s.orders[ref := a.0.orders[ref]];
    assert CoveredBut(a.0.orders, a.0.lists, ref);
    if !s.config.useQuotes && !o.terms.stopLoss {
      PassedIsClear(a.0, ref, p, env.quote);
      ClearUpdate(s.orders, ref, a.0.orders[ref], p);
    }
  }

  /** The order-table stage refuses a modify with its own reject; at most the state has changed by then. */
  lemma {:induction false} OrdersRefuseMod(s: State, ref: OrderRef)
    requires Known(s, ref) && OrdersSendMod(s, ref).1.Some?
    ensures var a := OrdersSendMod(s, ref);
            && ByOrders(a.1.value) && a.0.orders == s.orders[ref := s.orders[ref].(state := a.0.orders[ref].state)]
            && (a.0.orders[ref].state != s.orders[ref].state ==>
                  s.orders[ref].state == Working && a.0.orders[ref].state == Modifying && s.orders[ref].counters.mods >= MAX_MOD_COUNTER)
  {
  }

  /** The order after a refused modify: request cleared, one more reject, possibly another state. */
  function AfterRefusal(o: Order, st: OrderState): Order {
    o.(state := st, newPrice := INVALID_TICKS, counters := o.counters.(modRejs := o.counters.modRejs + 1))
  }

  /** The modify request as it reaches the order-table stage. */
  function Requested(s: State, ref: OrderRef, p: Ticks): (r: State)
    requires Known(s, ref)
    ensures |r.orders| == |s.orders| && r.config == s.config && r.lists == s.lists
  {
    CountMsg(SetOrder(s, ref, s.orders[ref].(newPrice := p)), ref, MsgMod, 1)
  }

  lemma {:induction false} RefusedByOrders(s: State, ref: OrderRef, p: Ticks, env: Env)
    requires Known(s, ref) && ListsKnown(s) && OrdersSendMod(Requested(s, ref, p), ref).1.Some?
    ensures SendMod(s, ref, p, env).0.orders
         == s.orders[ref := AfterRefusal(s.orders[ref], OrdersSendMod(Requested(s, ref, p), ref).0.orders[ref].state)]
  {
    hide SendModFromThrottle, OrdersSendMod, CountMsg, UncountMsg, OnModPost, ByOrders;
    OrdersRefuseMod(Requested(s, ref, p), ref);
  }

  lemma {:induction false} RefusedLater(s: State, ref: OrderRef, p: Ticks, env: Env)
    requires Known(s, ref) && ListsKnown(s) && SendMod(s, ref, p, env).1.Some?
    requires OrdersSendMod(Requested(s, ref, p), ref).1.None?
    ensures var o := s.orders[ref];
            && (o.state == Working || o.state == Modifying)
            && SendMod(s, ref, p, env).0.orders
               == s.orders[ref := AfterRefusal(o, if o.counters.mods == 0 then Working else Modifying)]
  {
    hide SendModFromThrottle, CountMsg, UncountMsg, ByOrders;
    ThrottleNotByOrders(OrdersSendMod(Requested(s, ref, p), ref).0, ref, env);
  }

  /** A refused modify clears the request: the order keeps its price and quotes nothing else. */
  lemma {:induction false} ModRefused(s: State, ref: OrderRef, p: Ticks, env: Env)
    requires Known(s, ref) && ListsKnown(s) && SendMod(s, ref, p, env).1.Some?
    ensures var r, o := SendMod(s, ref, p, env).0, s.orders[ref];
            && r.orders == s.orders[ref := AfterRefusal(o, r.orders[ref].state)]
            && (r.orders[ref].state != o.state ==>
                  (o.state == Working || o.state == Modifying) && (r.orders[ref].state == Working || r.orders[ref].state == Modifying)
                  && o.counters.mods != (if o.state == Working then 0 else 1))
  {
    hide SendMod, OrdersSendMod, CountMsg;
    if OrdersSendMod(Requested(s, ref, p), ref).1.Some? {
      RefusedByOrders(s, ref, p, env);
      OrdersRefuseMod(Requested(s, ref, p), ref);
    } else {
      RefusedLater(s, ref, p, env);
    }
  }

  lemma {:induction false} ThrottleNotByOrders(s: State, ref: OrderRef, env: Env)
    requires Known(s, ref) && ListsKnown(s)
    ensures SendModFromThrottle(s, ref, env).1.Some? ==> !ByOrders(SendModFromThrottle(s, ref, env).1.value)
  {
    hide Scan, QuoteOverride;
  }

  lemma {:induction false} ModCovers(s: State, ref: OrderRef, p: Ticks, env: Env)
    requires Known(s, ref) && ListsKnown(s) && Covered(s.orders, s.lists)
    ensures Covered(s.orders, SendMod(s, ref, p, env).0.lists)
  {
    hide CanSend, CountMsg, UncountMsg, ListOf, OrdersOnModRej, OnModRejPost, ByOrders, ChannelSendRequest;
    var m := CountMsg(SetOrder(s, ref, s.orders[ref].(newPrice := p)), ref, MsgMod, 1);
    var a := OrdersSendMod(m, ref);
    if a.1.None? {
      assert a.0.orders == s.orders[ref := a.0.orders[ref]];
      assert a.0.orders[ref].terms == s.orders[ref].terms && Live(a.0.orders[ref].state) == Live(s.orders[ref].state);
      assert Covered(a.0.orders, a.0.lists);
      ScanCovers(a.0, ref, a.0.orders[ref].newPrice, env.quote, -1);
      CoveredSame(s.orders, ref, a.0.orders[ref], CanSend(a.0, ref, a.0.orders[ref].newPrice, env.quote).0.lists, -1);
    }
  }

  // ---------- runs ----------

  /**
    What the book asks of clients, operators and exchange: no stop-loss orders, at most one modify in flight per live
    order, modify acknowledgements that answer an open request with its price, no bust that revives a filled order, and
    no order rebuilt from storage. Cancels may come at any time.
   */
  predicate Fair(w: World, e: Event)
    requires |w.venue| == |w.s.orders|
  {
    Addressed(w.s, e) ==>
      match e
      case New(ref, _) => !w.s.orders[ref].terms.stopLoss
      case Mod(ref, _, _) =>
        !w.s.orders[ref].terms.stopLoss && (Live(w.s.orders[ref].state) ==> w.venue[ref].inflight == [])
      case ModAck(ref, p, _) =>
        w.s.orders[ref].state == Modifying ==> w.venue[ref].inflight != [] && p == w.venue[ref].inflight[0]
      case Bust(ref, _) => w.s.orders[ref].state != Filled
      case Rebuild(_) => false
      case _ => true
  }

  predicate FairRun(w: World, es: seq<Event>)
    requires ListsKnown(w.s) && |w.venue| == |w.s.orders|
    decreases |es|
  {
    es == [] || (Fair(w, es[0]) && FairRun(WorldStep(w, es[0]), es[1..]))
  }

  lemma {:induction false} BookNew(w: World, ref: OrderRef, env: Env)
    requires BookInv(w) && Known(w.s, ref) && Fair(w, New(ref, env))
    ensures BookInv(WorldStep(w, New(ref, env)))
  {
    hide SendNew, Clear, Booked, NoCross, CoveredBut, ValidTicks;
    var o := w.s.orders[ref];
    var r := SendNew(w.s, ref, env);
    NewOrders(w.s, ref, env);
    if o.state != Unknown {
      NewNotUnknown(w.s, ref, env);
    } else {
      NewCovers(w.s, ref, env);
      var o' := o.(state := if r.1.None? then Pending else Rejected);
      if r.1.None? {
        AcceptedIsClear(w.s, ref, env);
        NewBooked(o, w.venue[ref]);
        BookedPriced(w.s.orders, w.venue);
        GrowKeeps(w.s.orders, ref, o', o.price);
      } else {
        NewBooked(o, w.venue[ref]);
        ShrinkKeeps(w.s.orders, w.s.lists, ref, o');
      }
    }
  }

  lemma {:induction false} NewBooked(o: Order, v: Venue)
    ensures o.terms.side != NoSide && ValidTicks(o.price) ==> Booked(o.(state := Pending), Venue(o.price, []))
    ensures Booked(o.(state := Rejected), v)
  {
  }

  /** Sending an order that has been sent before changes nothing but a counter, and not even that for good. */
  lemma {:induction false} NewNotUnknown(s: State, ref: OrderRef, env: Env)
    requires Known(s, ref) && ListsKnown(s) && s.orders[ref].state != Unknown
    ensures SendNew(s, ref, env).1.Some? && SendNew(s, ref, env).0.lists == s.lists && SendNew(s, ref, env).0.orders == s.orders
  {
  }

  lemma {:induction false} BookMod(w: World, ref: OrderRef, p: Ticks, env: Env)
    requires BookInv(w) && Known(w.s, ref) && Fair(w, Mod(ref, p, env))
    ensures BookInv(WorldStep(w, Mod(ref, p, env)))
  {
    hide SendMod, Clear, NoCross, CoveredBut, ValidTicks, Shrinks, Booked, AfterRefusal;
    var o := w.s.orders[ref];
    var r := SendMod(w.s, ref, p, env);
    assert Booked(o, w.venue[ref]);
    ModCovers(w.s, ref, p, env);
    var o' := r.0.orders[ref];
    if r.1.None? {
      ModAccepted(w.s, ref, p, env);
      ModBooked(o, p, w.venue[ref]);
      BookedPriced(w.s.orders, w.venue);
      GrowKeeps(w.s.orders, ref, o', p);
      CoveredSame(w.s.orders, ref, o', r.0.lists, -1);
    } else {
      ModRefused(w.s, ref, p, env);
      ClearedBooked(o, o'.state, w.venue[ref]);
      ShrinkKeeps(w.s.orders, r.0.lists, ref, o');
    }
  }

  lemma {:induction false} ModBooked(o: Order, p: Ticks, v: Venue)
    requires Booked(o, v) && Live(o.state) && v.inflight == [] && ValidTicks(p)
    ensures Booked(o.(newPrice := p, state := Modifying, counters := o.counters.(mods := o.counters.mods + 1)),
                   v.(inflight := v.inflight + [p]))
  {
  }

  lemma {:induction false} ClearedBooked(o: Order, st: OrderState, v: Venue)
    requires Booked(o, v) && (Live(o.state) ==> v.inflight == [])
    requires st != o.state ==> (o.state == Working || o.state == Modifying) && (st == Working || st == Modifying)
    ensures Booked(AfterRefusal(o, st), v) && Shrinks(o, AfterRefusal(o, st))
  {
  }

  lemma {:induction false} BookCreate(w: World, terms: Terms, p: Ticks)
    requires BookInv(w)
    ensures BookInv(WorldStep(w, Create(terms, p)))
  {
    hide ListOf, Apart;
    var r := WorldStep(w, Create(terms, p));
    assert r.s.orders == w.s.orders + [Fresh(terms, p)];
    assert r.s.lists == w.s.lists;
  }

  /** What the exchange holds of an order after an event that is no request. */
  function HeldAfterEvent(e: Event, v: Venue): Venue {
    if e.ModAck? then Answered(v, true) else if e.ModRej? then Answered(v, false) else v
  }

  /** Every other event about an order is tame. */
  lemma {:induction false} OtherTame(w: World, e: Event)
    requires |w.venue| == |w.s.orders| && ListsKnown(w.s) && Addressed(w.s, e) && Fair(w, e)
    requires !e.New? && !e.Mod? && !e.Create? && !e.ExternalFill? && !e.RebuildPos? && Booked(w.s.orders[e.ref], w.venue[e.ref])
    ensures Tame(w.s, Step(w.s, e), e.ref, HeldAfterEvent(e, w.venue[e.ref]))
    ensures WorldStep(w, e) == World(Step(w.s, e), w.venue[e.ref := HeldAfterEvent(e, w.venue[e.ref])])
  {
    hide SendNew, SendMod, SendCxl, OnNewAck, OnModAck, OnModRej, OrdersOnCxlRej, OrdersOnNewRej, OnCxlAck,
         OnFill, OnBust, Post, TradeDelta, Shrinks, Booked;
    var ref, v := e.ref, w.venue[e.ref];
    match e {
      case Cxl(_, env) => CxlTame(w.s, ref, v, env);
      case NewAck(_, env) => NewAckTame(w.s, ref, v, env);
      case NewRej(_) => RemovalTame(w.s, ref, v);
      case ModAck(_, p, env) => ModAckTame(w.s, ref, p, v, env);
      case ModRej(_, env) => ModRejTame(w.s, ref, v, env);
      case CxlAck(_) => RemovalTame(w.s, ref, v);
      case CxlRej(_) => RemovalTame(w.s, ref, v);
      case Fill(_, q) => FillTame(w.s, ref, q, v);
      case Bust(_, q) => FillTame(w.s, ref, q, v);
    }
    assert w.venue[ref := v] == w.venue;
  }

  lemma {:induction false} BookOther(w: World, e: Event)
    requires BookInv(w) && Fair(w, e) && Addressed(w.s, e) && !e.New? && !e.Mod? && !e.Create?
    ensures BookInv(WorldStep(w, e))
    ensures e.ExternalFill? || e.RebuildPos? || Only(w.s, Step(w.s, e), e.ref)
  {
    hide BookInv, Shrinks, Booked, Step, WorldStep;
    if e.ExternalFill? || e.RebuildPos? {
      BookIdle(w, e);
    } else {
      BookedAt(w, e.ref);
      OtherTame(w, e);
      BookShrink(w, Step(w.s, e), e.ref, HeldAfterEvent(e, w.venue[e.ref]));
    }
  }

  lemma {:induction false} BookedAt(w: World, ref: OrderRef)
    requires BookInv(w) && Known(w.s, ref)
    ensures |w.venue| == |w.s.orders| && Booked(w.s.orders[ref], w.venue[ref])
  {
  }

  lemma {:induction false} BookIdle(w: World, e: Event)
    requires BookInv(w) && (!Addressed(w.s, e) || e.ExternalFill? || e.RebuildPos?)
    ensures BookInv(WorldStep(w, e))
  {
    hide Post, TradeDelta, NoCross, Covered, AllBooked, SendNew, SendMod;
  }

  lemma {:induction false} BookStep(w: World, e: Event)
    requires BookInv(w) && Fair(w, e)
    ensures BookInv(WorldStep(w, e))
  {
    hide BookInv, WorldStep, Fair;
    if Addressed(w.s, e) {
      match e
      case New(ref, env) => BookNew(w, ref, env);
      case Mod(ref, p, env) => BookMod(w, ref, p, env);
      case Create(terms, p) => BookCreate(w, terms, p);
      case _ => BookOther(w, e);
    } else {
      BookIdle(w, e);
    }
  }

  /** Every fair run with quotes off, cancels and rejects in any order: the process's own book never crosses. */
  lemma {:induction false} BookNeverCrosses(w: World, es: seq<Event>)
    requires BookInv(w) && FairRun(w, es)
    ensures BookInv(WorldRun(w, es)) && NoCross(WorldRun(w, es).s.orders)
    decreases |es|
  {
    hide WorldStep, Fair, NoCross, AllBooked, Covered;
    if es != [] {
      BookStep(w, es[0]);
      BookNeverCrosses(WorldStep(w, es[0]), es[1..]);
    }
  }

  lemma {:induction false} FreshBook(config: Config)
    requires !config.useQuotes
    ensures BookInv(World(Initial(config), []))
  {
  }

  /** From a fresh start: after every fair run the process's own book is uncrossed. */
  lemma {:induction false} BookFromFresh(config: Config, es: seq<Event>)
    requires !config.useQuotes && FairRun(World(Initial(config), []), es)
    ensures NoCross(WorldRun(World(Initial(config), []), es).s.orders)
  {
    FreshBook(config);
    BookNeverCrosses(World(Initial(config), []), es);
  }
}
