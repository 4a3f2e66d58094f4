/**
  Shadows: the process need not know every price at which the exchange may hold an order; it is enough that each such
  price is no more aggressive than one the order quotes.
 */
module WashTradeShadow {
  import opened OrderTypes
  import opened Pipeline
  import opened Effects
  import opened WashTrade

  /** On its side, price x is no more aggressive than price y. */
  predicate Behind(side: Side, x: Ticks, y: Ticks) {
    if side == Buy then x <= y else y <= x
  }

  /** The order quotes a price at least as aggressive as x. */
  predicate Covers(o: Order, x: Ticks) {
    Behind(o.terms.side, x, o.price) || (o.state == Modifying && ValidTicks(o.newPrice) && Behind(o.terms.side, x, o.newPrice))
  }

  /** Every price the exchange may hold for an order is covered by one the order quotes. */
  ghost predicate Shadowed(o: Order, v: Venue) {
    forall x :: MayTradeAt(v, x) ==> Covers(o, x)
  }

  ghost predicate AllShadowed(w: World)
    requires |w.venue| == |w.s.orders|
  {
    forall k :: 0 <= k < |w.s.orders| && Live(w.s.orders[k].state) ==> Shadowed(w.s.orders[k], w.venue[k])
  }

  /** An uncrossed book whose orders are shadowed is safe at the exchange. */
  lemma {:induction false} ShadowedIsSafe(w: World)
    requires |w.venue| == |w.s.orders| && NoCross(w.s.orders) && AllShadowed(w)
    ensures Safe(w)
  {
    forall b, a, pb, pa | 0 <= b < |w.s.orders| && 0 <= a < |w.s.orders| && Facing(w.s.orders[b], w.s.orders[a])
                          && MayTradeAt(w.venue[b], pb) && MayTradeAt(w.venue[a], pa)
      ensures pb < pa
    {
      assert Apart(w.s.orders[b], w.s.orders[a]);
      var yb := if Behind(Buy, pb, w.s.orders[b].price) then w.s.orders[b].price else w.s.orders[b].newPrice;
      var ya := if Behind(Sell, pa, w.s.orders[a].price) then w.s.orders[a].price else w.s.orders[a].newPrice;
      assert Shadowed(w.s.orders[b], w.venue[b]) && Shadowed(w.s.orders[a], w.venue[a]);
      assert Quotes(w.s.orders[b], yb) && Quotes(w.s.orders[a], ya);
    }
  }

  ghost predicate ShadowedThroughout(w: World, es: seq<Event>)
    requires ListsKnown(w.s) && |w.venue| == |w.s.orders|
    decreases |es|
  {
    AllShadowed(w) && (es == [] || ShadowedThroughout(WorldStep(w, es[0]), es[1..]))
  }

  /** No cancel is waiting for an answer once the order works. */
  predicate Settled(o: Order) {
    o.state == Working || o.state == Modifying || o.state == Cancelling ==> !o.cancelOnAck
  }

  /** An opposite order that the chain takes at or through a price the exchange may hold makes the world unsafe. */
  lemma {:induction false} AcceptedMeets(w: World, ref: OrderRef, k: OrderRef, x: Ticks, env: Env)
    requires ListsKnown(w.s) && |w.venue| == |w.s.orders| && Known(w.s, ref) && Known(w.s, k) && ref != k
    requires Live(w.s.orders[ref].state) && MayTradeAt(w.venue[ref], x)
    requires var t, m := w.s.orders[k].terms, w.s.orders[ref].terms;
             t.instrument == m.instrument && ((m.side == Buy && t.side == Sell) || (m.side == Sell && t.side == Buy))
    requires w.s.orders[k].state == Unknown && SendNew(w.s, k, env).1.None? && Behind(w.s.orders[ref].terms.side, w.s.orders[k].price, x)
    ensures !Safe(WorldStep(w, New(k, env)))
  {
    hide SendNew;
    NewOrders(w.s, k, env);
    var r := WorldStep(w, New(k, env));
    var p := w.s.orders[k].price;
    assert MayTradeAt(r.venue[k], p) && MayTradeAt(r.venue[ref], x);
    if w.s.orders[ref].terms.side == Buy {
      assert Facing(r.s.orders[ref], r.s.orders[k]);
    } else {
      assert Facing(r.s.orders[k], r.s.orders[ref]);
    }
  }
}
