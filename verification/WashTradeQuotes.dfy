/**
  Runs with quotes in use. Two own orders only ever cross in the process's own book if one of them was let through while
  the first listed order it crossed was away from its own best quote and from the last trade.
 */
module WashTradeQuotes {
  import opened OrderTypes
  import opened Pipeline
  import opened Effects
  import opened WashTrade
  import opened WashTradeBook
  import opened WashTradeVerdict
  import opened Acceptance

  /** A live buy and a live sell of one instrument with prices that meet. */
  ghost predicate Crossed(orders: seq<Order>, b: OrderRef, a: OrderRef) {
    b < |orders| && a < |orders| && Facing(orders[b], orders[a]) && !Apart(orders[b], orders[a])
  }

  /** The price a request asks for. */
  function Asked(s: State, e: Event): Ticks
    requires (e.New? || e.Mod?) && Known(s, e.ref)
  {
    if e.New? then s.orders[e.ref].price else e.newPrice
  }

  /**
    The event lets one of the two through although it crosses the other: the first order it crosses, which is the other or
    listed before it, is away from the market by the quote of that moment.
   */
  ghost predicate LetThrough(w: World, e: Event, b: OrderRef, a: OrderRef)
    requires ListsKnown(w.s)
  {
    && (e.New? || e.Mod?) && Known(w.s, e.ref) && (e.ref == b || e.ref == a)
    && var t, other := w.s.orders[e.ref].terms, if e.ref == b then a else b;
       var f := FirstMet(w.s, t, Asked(w.s, e));
       && Known(w.s, other) && Crossing(w.s.orders[other], t.side, Asked(w.s, e))
       && f.Some? && w.s.config.useQuotes && Away(w.s.orders[f.value], e.env.quote)
  }

  /** What the pair law needs of a state, crossed or not. */
  ghost predicate QuoteInv(w: World)
    ensures QuoteInv(w) ==> ListsKnown(w.s) && |w.venue| == |w.s.orders|
  {
    ListsKnown(w.s) && AllBooked(w.s.orders, w.venue) && Covered(w.s.orders, w.s.lists) && Sided(w.s)
  }

  // ---------- one order changes ----------

  lemma {:induction false} ShrinkCrossed(orders: seq<Order>, ref: OrderRef, o: Order, b: OrderRef, a: OrderRef)
    requires ref < |orders| && Shrinks(orders[ref], o) && Crossed(orders[ref := o], b, a)
    ensures Crossed(orders, b, a)
  {
    var after := orders[ref := o];
    var pb, pa :| Quotes(after[b], pb) && Quotes(after[a], pa) && pb >= pa;
    assert Quotes(orders[b], pb) && Quotes(orders[a], pa);
  }

  /** A changed order that crosses another did so before, or crosses it at its new price. */
  lemma {:induction false} GrowCrossed(orders: seq<Order>, venue: seq<Venue>, ref: OrderRef, o: Order, p: Ticks, b: OrderRef, a: OrderRef)
    requires ref < |orders| && AllBooked(orders, venue) && Grows(orders[ref], o, p) && Crossed(orders[ref := o], b, a) && !Crossed(orders, b, a)
    ensures (ref == b || ref == a) && b < |orders| && a < |orders|
    ensures var other := if ref == b then a else b;
            Opposite(orders[other], o.terms) && Crossing(orders[other], o.terms.side, p)
  {
    var after := orders[ref := o];
    var pb, pa :| Quotes(after[b], pb) && Quotes(after[a], pa) && pb >= pa;
    var other := if ref == b then a else b;
    assert Booked(orders[other], venue[other]);
  }

  // ---------- requests ----------

  /** A request that goes through passes, asked on the state before it. */
  lemma {:induction false} TakenPasses(s: State, ref: OrderRef, p: Ticks, env: Env)
    requires Known(s, ref) && ListsKnown(s) && Sided(s)
    ensures SendNew(s, ref, env).1.None? ==> Passes(s, s.orders[ref].terms, s.orders[ref].price, env.quote)
    ensures SendMod(s, ref, p, env).1.None? ==> Passes(s, s.orders[ref].terms, p, env.quote)
  {
    hide SendNew, SendMod, OrdersSendNew, CanSend, WtpSendNew, RiskSendNew, ChannelSendNew, CountMsg, OppositeList, Passes;
    NotOpposed(s, ref);
    ModVerdictExact(s, ref, p, env);
    var m := CountMsg(s, ref, MsgNew, 1);
    OrdersNewEffect(m, ref);
    Stages(s, ref, env);
    var a := OrdersSendNew(m, ref);
    if a.1.None? {
      CanSendElsewhere(s, a.0, ref, s.orders[ref].price, env.quote);
      VerdictExact(s, ref, s.orders[ref].price, env.quote);
    }
  }

  /** Something listed crosses, so a request that passes was let through. */
  lemma {:induction false} MetFirst(w: World, ref: OrderRef, k: OrderRef, p: Ticks, q: Quote)
    requires QuoteInv(w) && Known(w.s, ref) && Known(w.s, k)
    requires Opposite(w.s.orders[k], w.s.orders[ref].terms) && Crossing(w.s.orders[k], w.s.orders[ref].terms.side, p)
    requires !w.s.orders[ref].terms.stopLoss && Passes(w.s, w.s.orders[ref].terms, p, q)
    ensures var f := FirstMet(w.s, w.s.orders[ref].terms, p);
            f.Some? && w.s.config.useQuotes && Away(w.s.orders[f.value], q)
  {
    hide Away, Crossing;
    var t := w.s.orders[ref].terms;
    assert k in ListOf(w.s.lists, w.s.orders[k].terms);
    assert k in OppositeList(w.s, t);
    assert k in Alive(w.s.orders, OppositeList(w.s, t));
  }

  lemma {:induction false} NewStep(w: World, ref: OrderRef, env: Env, b: OrderRef, a: OrderRef)
    requires QuoteInv(w) && Known(w.s, ref) && Fair(w, New(ref, env))
    ensures var r := WorldStep(w, New(ref, env));
            && AllBooked(r.s.orders, r.venue) && Covered(r.s.orders, r.s.lists)
            && (Crossed(r.s.orders, b, a) ==> Crossed(w.s.orders, b, a) || LetThrough(w, New(ref, env), b, a))
  {
    hide SendNew, Clear, Crossed, CoveredBut, Booked, ValidTicks, Passes, FirstMet, Crossing;
    var o := w.s.orders[ref];
    var r := SendNew(w.s, ref, env);
    NewOrders(w.s, ref, env);
    if o.state != Unknown {
      NewNotUnknown(w.s, ref, env);
    } else {
      NewCovers(w.s, ref, env);
      NewBooked(o, w.venue[ref]);
      var o' := o.(state := if r.1.None? then Pending else Rejected);
      if r.1.None? {
        AcceptedIsClear(w.s, ref, env);
        TakenPasses(w.s, ref, 0, env);
        if Crossed(w.s.orders[ref := o'], b, a) && !Crossed(w.s.orders, b, a) {
          GrowCrossed(w.s.orders, w.venue, ref, o', o.price, b, a);
          MetFirst(w, ref, if ref == b then a else b, o.price, env.quote);
        }
      } else if Crossed(w.s.orders[ref := o'], b, a) {
        ShrinkCrossed(w.s.orders, ref, o', b, a);
      }
    }
  }

  lemma {:induction false} ModStep(w: World, ref: OrderRef, p: Ticks, env: Env, b: OrderRef, a: OrderRef)
    requires QuoteInv(w) && Known(w.s, ref) && Fair(w, Mod(ref, p, env))
    ensures var r := WorldStep(w, Mod(ref, p, env));
            && AllBooked(r.s.orders, r.venue) && Covered(r.s.orders, r.s.lists)
            && (Crossed(r.s.orders, b, a) ==> Crossed(w.s.orders, b, a) || LetThrough(w, Mod(ref, p, env), b, a))
  {
    hide SendMod, Clear, Crossed, CoveredBut, Booked, ValidTicks, Passes, FirstMet, Crossing, AfterRefusal, Shrinks;
    var o := w.s.orders[ref];
    var r := SendMod(w.s, ref, p, env);
    assert Booked(o, w.venue[ref]);
    ModCovers(w.s, ref, p, env);
    var o' := r.0.orders[ref];
    if r.1.None? {
      ModAccepted(w.s, ref, p, env);
      ModBooked(o, p, w.venue[ref]);
      CoveredSame(w.s.orders, ref, o', r.0.lists, -1);
      TakenPasses(w.s, ref, p, env);
      if Crossed(w.s.orders[ref := o'], b, a) && !Crossed(w.s.orders, b, a) {
        GrowCrossed(w.s.orders, w.venue, ref, o', p, b, a);
        MetFirst(w, ref, if ref == b then a else b, p, env.quote);
      }
    } else {
      ModRefused(w.s, ref, p, env);
      ClearedBooked(o, o'.state, w.venue[ref]);
      ShrinkCovers(w.s.orders, r.0.lists, ref, o');
      if Crossed(w.s.orders[ref := o'], b, a) {
        ShrinkCrossed(w.s.orders, ref, o', b, a);
      }
    }
  }

  lemma {:induction false} OtherStep(w: World, e: Event, b: OrderRef, a: OrderRef)
    requires QuoteInv(w) && Addressed(w.s, e) && Fair(w, e)
    requires !e.New? && !e.Mod? && !e.Create? && !e.ExternalFill? && !e.RebuildPos?
    ensures var r := WorldStep(w, e);
            && AllBooked(r.s.orders, r.venue) && Covered(r.s.orders, r.s.lists)
            && (Crossed(r.s.orders, b, a) ==> Crossed(w.s.orders, b, a))
  {
    hide Step, WorldStep, Crossed, CoveredBut, Booked, Shrinks, HeldAfterEvent;
    var ref := e.ref;
    assert Booked(w.s.orders[ref], w.venue[ref]);
    OtherTame(w, e);
    var o' := Step(w.s, e).orders[ref];
    ShrinkCovers(w.s.orders, w.s.lists, ref, o');
    if Crossed(w.s.orders[ref := o'], b, a) {
      ShrinkCrossed(w.s.orders, ref, o', b, a);
    }
  }

  lemma {:induction false} CreateStep(w: World, terms: Terms, p: Ticks, b: OrderRef, a: OrderRef)
    requires QuoteInv(w)
    ensures var r := WorldStep(w, Create(terms, p));
            && AllBooked(r.s.orders, r.venue) && Covered(r.s.orders, r.s.lists)
            && (Crossed(r.s.orders, b, a) ==> Crossed(w.s.orders, b, a))
  {
    hide ListOf, Apart;
    var r := WorldStep(w, Create(terms, p));
    assert r.s.orders == w.s.orders + [Fresh(terms, p)];
    assert r.s.lists == w.s.lists;
  }

  lemma {:induction false} IdleStep(w: World, e: Event, b: OrderRef, a: OrderRef)
    requires QuoteInv(w) && (!Addressed(w.s, e) || e.ExternalFill? || e.RebuildPos?)
    ensures var r := WorldStep(w, e);
            && AllBooked(r.s.orders, r.venue) && Covered(r.s.orders, r.s.lists)
            && (Crossed(r.s.orders, b, a) ==> Crossed(w.s.orders, b, a))
  {
    hide Post, TradeDelta, Crossed, Covered, AllBooked, SendNew, SendMod;
  }

  /** One fair event: a pair that crosses afterwards crossed before, or was let through by it. */
  lemma {:induction false} CrossedStep(w: World, e: Event, b: OrderRef, a: OrderRef)
    requires QuoteInv(w) && Fair(w, e)
    ensures QuoteInv(WorldStep(w, e))
    ensures Crossed(WorldStep(w, e).s.orders, b, a) ==> Crossed(w.s.orders, b, a) || LetThrough(w, e, b, a)
  {
    hide WorldStep, Fair, Crossed, Covered, AllBooked, Sided, LetThrough, Step;
    SidedStep(w.s, e);
    StateOfStep(w, e);
    if !Addressed(w.s, e) || e.ExternalFill? || e.RebuildPos? {
      IdleStep(w, e, b, a);
    } else if e.Create? {
      CreateStep(w, e.terms, e.price, b, a);
    } else if e.New? {
      NewStep(w, e.ref, e.env, b, a);
    } else if e.Mod? {
      ModStep(w, e.ref, e.newPrice, e.env, b, a);
    } else {
      OtherStep(w, e, b, a);
    }
  }

  lemma {:induction false} StateOfStep(w: World, e: Event)
    requires ListsKnown(w.s) && |w.venue| == |w.s.orders|
    ensures WorldStep(w, e).s == Step(w.s, e)
  {
  }

  // ---------- runs ----------

  /** At some event of the run the pair was let through. */
  ghost predicate EverLetThrough(w: World, es: seq<Event>, b: OrderRef, a: OrderRef)
    requires ListsKnown(w.s) && |w.venue| == |w.s.orders|
    decreases |es|
  {
    es != [] && (LetThrough(w, es[0], b, a) || EverLetThrough(WorldStep(w, es[0]), es[1..], b, a))
  }

  /** Every fair run, quotes in use or not: a pair that crosses at the end crossed at the start, or was let through on the way. */
  lemma {:induction false} CrossedWasLetThrough(w: World, es: seq<Event>, b: OrderRef, a: OrderRef)
    requires QuoteInv(w) && FairRun(w, es) && Crossed(WorldRun(w, es).s.orders, b, a)
    ensures Crossed(w.s.orders, b, a) || EverLetThrough(w, es, b, a)
    decreases |es|
  {
    hide QuoteInv, WorldStep, Fair, Crossed, LetThrough;
    if es != [] {
      CrossedStep(w, es[0], b, a);
      CrossedWasLetThrough(WorldStep(w, es[0]), es[1..], b, a);
    }
  }

  /** From a fresh start: every crossed pair was let through, and without quotes in use there is none. */
  lemma {:induction false} QuotesFromFresh(config: Config, es: seq<Event>, b: OrderRef, a: OrderRef)
    requires FairRun(World(Initial(config), []), es) && Crossed(WorldRun(World(Initial(config), []), es).s.orders, b, a)
    ensures EverLetThrough(World(Initial(config), []), es, b, a) && config.useQuotes
  {
    hide FairRun, EverLetThrough, WorldRun;
    var w := World(Initial(config), []);
    assert QuoteInv(w);
    CrossedWasLetThrough(w, es, b, a);
    if !config.useQuotes {
      FreshBook(config);
      BookNeverCrosses(w, es);
    }
  }

  /** And it does happen: an order taken while the first listed order it crosses is away leaves the two crossed. */
  lemma {:induction false} LetThroughCrosses(w: World, ref: OrderRef, env: Env, f: OrderRef)
    requires QuoteInv(w) && Known(w.s, ref) && SendNew(w.s, ref, env).1.None? && !w.s.orders[ref].terms.stopLoss
    requires FirstMet(w.s, w.s.orders[ref].terms, w.s.orders[ref].price) == Some(f) && Opposite(w.s.orders[f], w.s.orders[ref].terms)
    ensures var r := WorldStep(w, New(ref, env)).s.orders;
            Crossed(r, ref, f) || Crossed(r, f, ref)
  {
    hide SendNew, FirstMet, Booked, ListOf;
    NewOrders(w.s, ref, env);
    AcceptedIsClear(w.s, ref, env);
    FirstCrosses(w.s, w.s.orders[ref].terms, w.s.orders[ref].price);
    var x, p := w.s.orders[f], w.s.orders[ref].price;
    var q := if x.state == Modifying && Meets(w.s.orders[ref].terms.side, p, x.newPrice) then x.newPrice else x.price;
    var r := WorldStep(w, New(ref, env)).s.orders;
    assert Quotes(r[ref], p) && Quotes(r[f], q);
  }

  lemma {:induction false} FirstCrosses(s: State, t: Terms, price: Ticks)
    requires ListsKnown(s) && FirstMet(s, t, price).Some?
    ensures var f := FirstMet(s, t, price).value;
            f in OppositeList(s, t) && Known(s, f) && Crossing(s.orders[f], t.side, price)
  {
  }
}
