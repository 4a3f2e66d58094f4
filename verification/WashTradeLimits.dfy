/**
  Why the conditions on a fair run are needed: the exact conditions under which a stray acknowledgement or a bust keeps
  the process's own book in order, and a second modify keeps an order shadowed.
 */
module WashTradeLimits {
  import opened OrderTypes
  import opened Pipeline
  import opened Effects
  import opened WashTrade
  import opened WashTradeBook
  import opened WashTradeShadow
  import opened WashTradeOverlap

  /** The bust of a filled buy puts it back to work at its price without looking at the sells. */
  lemma {:induction false} BustRevivesCrossing(s: State, ref: OrderRef, k: OrderRef, venue: seq<Venue>, q: int)
    requires ListsKnown(s) && Known(s, ref) && Known(s, k) && |venue| == |s.orders| && ref != k
    requires s.orders[ref].state == Filled && s.orders[ref].terms.side == Buy
    requires Live(s.orders[k].state) && s.orders[k].terms.side == Sell
    requires s.orders[ref].terms.instrument == s.orders[k].terms.instrument && venue[ref].resting >= venue[k].resting
    ensures !Safe(WorldStep(World(s, venue), Bust(ref, q)))
  {
    hide PostTerms, OpenDelta, TradeDelta, Plus;
    var r := WorldStep(World(s, venue), Bust(ref, q));
    assert Facing(r.s.orders[ref], r.s.orders[k]);
    assert MayTradeAt(r.venue[ref], venue[ref].resting) && MayTradeAt(r.venue[k], venue[k].resting);
  }

  // ---------- exact conditions ----------

  /** A price on one side is strictly beyond every price quoted live on the other side of the instrument. */
  ghost predicate Beyond(orders: seq<Order>, t: Terms, p: Ticks) {
    forall k, q :: 0 <= k < |orders| && Opposite(orders[k], t) && Quotes(orders[k], q)
      ==> (t.side == Buy ==> p < q) && (t.side == Sell ==> q < p)
  }

  /** Whatever an order did before: once live with a single price, it keeps the book in order iff that price is beyond. */
  lemma {:induction false} SinglePriceExact(orders: seq<Order>, ref: OrderRef, o: Order)
    requires ref < |orders| && NoCross(orders) && o.terms == orders[ref].terms && Live(o.state)
    requires forall p :: Quotes(o, p) ==> p == o.price
    ensures NoCross(orders[ref := o]) <==> Beyond(orders, o.terms, o.price)
  {
    var after := orders[ref := o];
    assert Quotes(o, o.price);
    if Beyond(orders, o.terms, o.price) {
      forall b, a | 0 <= b < |after| && 0 <= a < |after| && Facing(after[b], after[a]) ensures Apart(after[b], after[a]) {
        if b == ref {
          assert Opposite(orders[a], o.terms);
        } else if a == ref {
          assert Opposite(orders[b], o.terms);
        } else {
          assert Apart(orders[b], orders[a]);
        }
      }
    }
    if NoCross(after) {
      forall k, q | 0 <= k < |orders| && Opposite(orders[k], o.terms) && Quotes(orders[k], q)
        ensures (o.terms.side == Buy ==> o.price < q) && (o.terms.side == Sell ==> q < o.price)
      {
        assert k != ref && after[k] == orders[k];
        if o.terms.side == Buy {
          assert Facing(after[ref], after[k]);
        } else {
          assert Facing(after[k], after[ref]);
        }
      }
    }
  }

  /** The bust of a filled order puts it back to work unseen: the book stays in order iff its price is beyond the other side. */
  lemma {:induction false} BustExact(s: State, ref: OrderRef, q: int)
    requires Known(s, ref) && NoCross(s.orders) && s.orders[ref].state == Filled
    ensures NoCross(OnBust(s, ref, q).orders) <==> Beyond(s.orders, s.orders[ref].terms, s.orders[ref].price)
  {
    hide OnBust, NoCross, Beyond;
    BustOrders(s, ref, q);
    SinglePriceExact(s.orders, ref, OnBust(s, ref, q).orders[ref]);
  }

  /** A modify acknowledgement at any price p: the book stays in order iff p is beyond the other side, requested or not. */
  lemma {:induction false} AckExact(s: State, ref: OrderRef, p: Ticks, env: Env)
    requires Known(s, ref) && NoCross(s.orders) && s.orders[ref].state == Modifying && ValidTicks(p)
    ensures NoCross(OnModAck(s, ref, p, env).orders) <==> Beyond(s.orders, s.orders[ref].terms, p)
  {
    hide OnModAck, NoCross, Beyond;
    AckLeaves(s, ref, p, env);
    SinglePriceExact(s.orders, ref, OnModAck(s, ref, p, env).orders[ref]);
  }

  lemma {:induction false} AckLeaves(s: State, ref: OrderRef, p: Ticks, env: Env)
    requires Known(s, ref) && s.orders[ref].state == Modifying
    ensures var r := OnModAck(s, ref, p, env);
            && r.orders == s.orders[ref := r.orders[ref]] && r.orders[ref].terms == s.orders[ref].terms
            && Live(r.orders[ref].state) && r.orders[ref].price == p && forall x :: Quotes(r.orders[ref], x) ==> x == p
  {
    hide CancelOnAck;
    var o := s.orders[ref];
    var b := OnModPost(SetOrder(s, ref, o.(newPrice := p, counters := o.counters.(modRejs := 0))), ref, true);
    CancelOnAckKeeps(b, ref, env);
  }

  /** Only one order changes; it stays live and keeps its prices. */
  predicate KeepsPrices(s: State, r: State, ref: OrderRef)
    requires Known(s, ref)
  {
    && Only(s, r, ref) && Live(r.orders[ref].state) && r.orders[ref].terms == s.orders[ref].terms
    && r.orders[ref].price == s.orders[ref].price && r.orders[ref].newPrice == s.orders[ref].newPrice
    && (r.orders[ref].state == Modifying ==> s.orders[ref].state == Modifying)
  }

  lemma {:induction false} CxlKeeps(s: State, ref: OrderRef, env: Env)
    requires Known(s, ref) && Live(s.orders[ref].state)
    ensures KeepsPrices(s, SendCxl(s, ref, env).0, ref)
  {
    hide ChannelSendRequest, CountMsg, UncountMsg;
    var m := CountMsg(s, ref, MsgCxl, 1);
    assert KeepsPrices(s, OrdersSendCxl(m, ref).0, ref);
    assert KeepsPrices(s, SendCxlFromOrders(m, ref, env).0, ref);
  }

  lemma {:induction false} CancelOnAckKeeps(s: State, ref: OrderRef, env: Env)
    requires Known(s, ref) && Live(s.orders[ref].state)
    ensures KeepsPrices(s, CancelOnAck(s, ref, env), ref)
  {
    hide SendCxl;
    if s.orders[ref].cancelOnAck {
      CxlKeeps(SetOrder(s, ref, s.orders[ref].(cancelOnAck := false)), ref, env);
    }
  }

  /** A second modify over an unanswered one keeps the order shadowed iff the first price is behind its price or the second request. */
  lemma {:induction false} SecondModifyExact(s: State, ref: OrderRef, v: Venue, p: Ticks, env: Env)
    requires Known(s, ref) && ListsKnown(s) && Covered(s.orders, s.lists) && !s.config.useQuotes && !s.orders[ref].terms.stopLoss
    requires Booked(s.orders[ref], v) && Sound(s.orders[ref], v) && s.orders[ref].state == Modifying && v.inflight != []
    requires SendMod(s, ref, p, env).1.None?
    ensures var o, v' := s.orders[ref], v.(inflight := v.inflight + [p]);
            Shadowed(SendMod(s, ref, p, env).0.orders[ref], v')
            <==> Behind(o.terms.side, o.newPrice, o.price) || Behind(o.terms.side, o.newPrice, p)
  {
    hide SendMod, Clear, CoveredBut;
    ModAccepted(s, ref, p, env);
    var o := s.orders[ref];
    var v' := v.(inflight := v.inflight + [p]);
    assert v.inflight == [o.newPrice];
    assert MayTradeAt(v', o.newPrice);
    forall x | MayTradeAt(v', x) ensures x == v.resting || x == o.newPrice || x == p {
    }
  }
}
