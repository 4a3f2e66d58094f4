/**
  Wash-trade safety at the exchange with at most one modify in flight. Among fair events only a cancel can leave an order
  unshadowed, and exactly one kind does: a cancel over an unanswered modify to a more aggressive price.
 */
module WashTradeSafety {
  import opened OrderTypes
  import opened Pipeline
  import opened Effects
  import opened WashTrade
  import opened WashTradeBook
  import opened WashTradeShadow
  import opened WashTradeOverlap

  ghost predicate Inv(w: World)
    ensures Inv(w) ==> ListsKnown(w.s) && |w.venue| == |w.s.orders|
  {
    BookInv(w) && OverlapInv(w)
  }

  // ---------- cancels ----------

  /** A cancel of this order takes no price from the book that the exchange may still act on. */
  predicate GentleCancel(o: Order) {
    o.state == Modifying ==>
      o.counters.cxlRejs > MAX_CXL_REJ_COUNTER || !ValidTicks(o.newPrice) || Behind(o.terms.side, o.newPrice, o.price)
  }

  /** What any cancel leaves of a modifying order: cancelling or working at its price, unless its reject count forbids it. */
  lemma {:induction false} CxlOfModifying(s: State, ref: OrderRef, env: Env)
    requires Known(s, ref) && s.orders[ref].state == Modifying
    ensures var o, r := s.orders[ref], SendCxl(s, ref, env).0;
            && |r.orders| == |s.orders| && r.orders[ref].terms == o.terms && r.orders[ref].price == o.price
            && (if o.counters.cxlRejs > MAX_CXL_REJ_COUNTER then r.orders[ref] == o
                else r.orders[ref].state == Cancelling || r.orders[ref].state == Working)
  {
    hide ChannelSendRequest, CountMsg, UncountMsg;
  }

  /**
    A cancel of a modifying order with its request in flight keeps the order shadowed if and only if it is refused for
    the order's reject count, or the requested price is no more aggressive than the resting one.
   */
  lemma {:induction false} CancelExact(s: State, ref: OrderRef, v: Venue, env: Env)
    requires Known(s, ref) && Booked(s.orders[ref], v) && Sound(s.orders[ref], v) && s.orders[ref].state == Modifying
    ensures Shadowed(SendCxl(s, ref, env).0.orders[ref], v) <==> GentleCancel(s.orders[ref])
  {
    hide SendCxl;
    CxlOfModifying(s, ref, env);
    var o, o' := s.orders[ref], SendCxl(s, ref, env).0.orders[ref];
    assert GentleCancel(o) ==> forall x :: MayTradeAt(v, x) ==> Covers(o', x);
    if !GentleCancel(o) {
      assert MayTradeAt(v, o.newPrice);
      assert !Covers(o', o.newPrice);
    }
  }

  /** No cancel takes away a price the exchange may still act on. */
  predicate Gentle(w: World, e: Event) {
    e.Cxl? && Known(w.s, e.ref) ==> GentleCancel(w.s.orders[e.ref])
  }

  /** With one modify in flight at most, an event is steady exactly if it is gentle. */
  lemma {:induction false} SteadyIffGentle(w: World, e: Event)
    requires Inv(w) && Fair(w, e)
    ensures Echoing(w, e) && (Steady(w, e) <==> Gentle(w, e))
  {
    hide SendMod, NoCross, Covered, ListOf;
    if Addressed(w.s, e) && (e.Mod? || e.ModAck? || e.ModRej? || e.Cxl?) {
      var o, v := w.s.orders[e.ref], w.venue[e.ref];
      SoundAt(w, e.ref);
      assert Booked(o, v);
      if Live(o.state) {
        FairShadow(o, v);
      }
      if e.Cxl? && !GentleCancel(o) {
        assert MayTradeAt(v, o.newPrice);
      }
    }
  }

  /** What the exchange may hold of a live order with one modify in flight at most. */
  lemma {:induction false} FairShadow(o: Order, v: Venue)
    requires Booked(o, v) && Sound(o, v) && Live(o.state)
    ensures v.inflight == [] ==> AllBehind(o.terms.side, v, o.price)
    ensures o.state == Modifying ==> AllBehind(o.terms.side, Answered(v, false), o.price)
    ensures o.state == Modifying && v.inflight != [] ==> AllBehind(o.terms.side, Answered(v, true), v.inflight[0])
    ensures o.state == Modifying ==>
              (AllBehind(o.terms.side, v, o.price) <==> !ValidTicks(o.newPrice) || Behind(o.terms.side, o.newPrice, o.price))
  {
    if o.state == Modifying && v.inflight != [] {
      assert MayTradeAt(v, o.newPrice);
    }
  }

  /** One fair event: every live order stays shadowed if and only if the event is gentle. */
  lemma {:induction false} ShadowedStep(w: World, e: Event)
    requires Inv(w) && Fair(w, e)
    ensures AllShadowed(WorldStep(w, e)) <==> Gentle(w, e)
    ensures Gentle(w, e) ==> Inv(WorldStep(w, e))
  {
    hide BookInv, OverlapInv, Fair, Echoing, Steady, Gentle, WorldStep, AllShadowed;
    SteadyIffGentle(w, e);
    OverlapStep(w, e);
    BookStep(w, e);
  }

  // ---------- runs ----------

  predicate GentleRun(w: World, es: seq<Event>)
    requires ListsKnown(w.s) && |w.venue| == |w.s.orders|
    decreases |es|
  {
    es == [] || (Gentle(w, es[0]) && GentleRun(WorldStep(w, es[0]), es[1..]))
  }

  /** A fair run keeps every live order shadowed throughout if and only if every cancel in it is gentle. */
  lemma {:induction false} ShadowedIffGentle(w: World, es: seq<Event>)
    requires Inv(w) && FairRun(w, es)
    ensures ShadowedThroughout(w, es) <==> GentleRun(w, es)
    decreases |es|
  {
    hide BookInv, OverlapInv, WorldStep, Fair, Gentle, AllShadowed;
    OverlapIsSafe(w);
    if es != [] {
      ShadowedStep(w, es[0]);
      if Gentle(w, es[0]) {
        ShadowedIffGentle(WorldStep(w, es[0]), es[1..]);
      }
    }
  }

  /** Every fair run with gentle cancels and quotes off: at no point can two own orders trade with each other at the exchange. */
  lemma {:induction false} GentleRunIsSafe(w: World, es: seq<Event>)
    requires Inv(w) && FairRun(w, es) && GentleRun(w, es)
    ensures Inv(WorldRun(w, es)) && Safe(WorldRun(w, es))
    decreases |es|
  {
    hide BookInv, OverlapInv, WorldStep, Fair, Gentle, Safe;
    if es == [] {
      OverlapIsSafe(w);
    } else {
      ShadowedStep(w, es[0]);
      GentleRunIsSafe(WorldStep(w, es[0]), es[1..]);
    }
  }

  /** The same for every run from a fresh start. */
  lemma {:induction false} SafeFromFresh(config: Config, es: seq<Event>)
    requires !config.useQuotes && FairRun(World(Initial(config), []), es)
    ensures ShadowedThroughout(World(Initial(config), []), es) <==> GentleRun(World(Initial(config), []), es)
    ensures GentleRun(World(Initial(config), []), es) ==> Safe(WorldRun(World(Initial(config), []), es))
  {
    hide BookInv, OverlapInv, FairRun, GentleRun, ShadowedThroughout, Safe, WorldRun;
    FreshBook(config);
    FreshOverlap(config);
    ShadowedIffGentle(World(Initial(config), []), es);
    if GentleRun(World(Initial(config), []), es) {
      GentleRunIsSafe(World(Initial(config), []), es);
    }
  }

  // ---------- where it fails ----------

  /** A cancel that is not gentle leaves its order unshadowed. */
  lemma {:induction false} HarshCancel(w: World, ref: OrderRef, env: Env)
    requires Inv(w) && Known(w.s, ref) && !GentleCancel(w.s.orders[ref])
    ensures var r := WorldStep(w, Cxl(ref, env));
            && r.venue == w.venue && ref < |r.s.orders| && Live(r.s.orders[ref].state)
            && MayTradeAt(r.venue[ref], w.s.orders[ref].newPrice)
            && r.s.orders[ref].terms == w.s.orders[ref].terms
  {
    hide SendCxl, OverlapInv, NoCross, Covered;
    assert Booked(w.s.orders[ref], w.venue[ref]);
    CxlOfModifying(w.s, ref, env);
  }

  /**
    After a cancel that is not gentle, whatever the prices: any opposite order the chain then takes at or through the
    requested price makes the world unsafe.
   */
  lemma {:induction false} HarshCancelExposes(w: World, ref: OrderRef, k: OrderRef, env: Env, env': Env)
    requires Inv(w) && Known(w.s, ref) && !GentleCancel(w.s.orders[ref]) && Known(w.s, k) && ref != k
    requires var t, m := w.s.orders[k].terms, w.s.orders[ref].terms;
             t.instrument == m.instrument && ((m.side == Buy && t.side == Sell) || (m.side == Sell && t.side == Buy))
    requires w.s.orders[k].state == Unknown && Behind(w.s.orders[ref].terms.side, w.s.orders[k].price, w.s.orders[ref].newPrice)
    ensures var r := WorldStep(w, Cxl(ref, env));
            SendNew(r.s, k, env').1.None? ==> !Safe(WorldStep(r, New(k, env')))
  {
    hide Inv, SendNew, SendCxl, Safe;
    HarshCancel(w, ref, env);
    CxlLeavesOthers(w, ref, k, env);
    var r := WorldStep(w, Cxl(ref, env));
    if SendNew(r.s, k, env').1.None? {
      AcceptedMeets(r, ref, k, w.s.orders[ref].newPrice, env');
    }
  }

  lemma {:induction false} CxlLeavesOthers(w: World, ref: OrderRef, k: OrderRef, env: Env)
    requires Inv(w) && Known(w.s, ref) && Known(w.s, k) && ref != k
    ensures WorldStep(w, Cxl(ref, env)).s.orders[k] == w.s.orders[k] && |WorldStep(w, Cxl(ref, env)).s.orders| == |w.s.orders|
  {
    hide SendCxl, BookInv, OverlapInv;
    QuietStep(w.s, Cxl(ref, env));
  }
}
