/**
  Wash-trade safety with any number of modifies in flight and cancels at any time. As long as every price the exchange may
  hold is shadowed, an acknowledgement of the oldest request cannot cross the book; and each event says, from the state
  before it, whether the order stays shadowed.
 */
module WashTradeOverlap {
  import opened OrderTypes
  import opened Pipeline
  import opened Effects
  import opened WashTrade
  import opened WashTradeBook
  import opened WashTradeShadow

  /** Every price the exchange may hold is behind y. */
  ghost predicate AllBehind(side: Side, v: Venue, y: Ticks) {
    forall x :: MayTradeAt(v, x) ==> Behind(side, x, y)
  }

  /**
    A live order has a side and a valid price, rests no more aggressively than it, and asks for valid prices; no cancel
    waits once it works.
   */
  predicate Sound(o: Order, v: Venue) {
    && (Live(o.state) ==>
          && o.terms.side != NoSide && ValidTicks(o.price) && Behind(o.terms.side, v.resting, o.price)
          && forall x :: x in v.inflight ==> ValidTicks(x))
    && Settled(o)
  }

  ghost predicate AllSound(orders: seq<Order>, venue: seq<Venue>) {
    |venue| == |orders|
    && forall k :: 0 <= k < |orders| ==> Sound(orders[k], venue[k]) && (Live(orders[k].state) ==> Shadowed(orders[k], venue[k]))
  }

  ghost predicate OverlapInv(w: World)
    ensures OverlapInv(w) ==> ListsKnown(w.s) && |w.venue| == |w.s.orders|
  {
    && !w.s.config.useQuotes && ListsKnown(w.s)
    && AllSound(w.s.orders, w.venue) && Covered(w.s.orders, w.s.lists) && NoCross(w.s.orders)
  }

  lemma {:induction false} OverlapIsSafe(w: World)
    requires OverlapInv(w)
    ensures AllShadowed(w) && Safe(w)
  {
    ShadowedIsSafe(w);
  }

  // ---------- an order whose prices soften ----------

  /** Every price the order quotes afterwards is no more aggressive than one it quoted before. */
  predicate Softens(o: Order, o': Order) {
    o'.terms == o.terms
    && (Live(o'.state) ==>
          Live(o.state) && Covers(o, o'.price) && (o'.state == Modifying && ValidTicks(o'.newPrice) ==> Covers(o, o'.newPrice)))
  }

  lemma {:induction false} SoftenKeeps(orders: seq<Order>, lists: map<InstrumentId, SideLists>, ref: OrderRef, o: Order)
    requires ref < |orders| && Softens(orders[ref], o) && NoCross(orders) && Covered(orders, lists)
    ensures NoCross(orders[ref := o]) && Covered(orders[ref := o], lists)
  {
    var after := orders[ref := o];
    forall b, a | 0 <= b < |after| && 0 <= a < |after| && Facing(after[b], after[a]) ensures Apart(after[b], after[a]) {
      assert Facing(orders[b], orders[a]);
      SoftApart(orders[b], orders[a], after[b], after[a]);
    }
  }

  lemma {:induction false} SoftApart(b: Order, a: Order, b': Order, a': Order)
    requires Facing(b, a) && Facing(b', a') && Apart(b, a)
    requires (b' == b || Softens(b, b')) && (a' == a || Softens(a, a'))
    ensures Apart(b', a')
  {
    forall pb, pa | Quotes(b', pb) && Quotes(a', pa) ensures pb < pa {
      var yb := if Behind(Buy, pb, b.price) then b.price else b.newPrice;
      var ya := if Behind(Sell, pa, a.price) then a.price else a.newPrice;
      assert Covers(b, pb) && Covers(a, pa);
      assert Quotes(b, yb) && Quotes(a, ya);
    }
  }

  /** The order is dead afterwards, or quotes what it quoted. */
  predicate Steadfast(o: Order, o': Order) {
    && o'.terms == o.terms && Settled(o')
    && (Live(o'.state) ==>
          && Live(o.state) && o'.price == o.price && (o'.state == Modifying <==> o.state == Modifying)
          && (o.state == Modifying ==> o'.newPrice == o.newPrice))
  }

  lemma {:induction false} SteadfastKeeps(o: Order, o': Order, v: Venue)
    requires Steadfast(o, o') && Sound(o, v)
    ensures Softens(o, o') && Sound(o', v) && (Live(o'.state) ==> Live(o.state))
    ensures Live(o'.state) && Shadowed(o, v) ==> Shadowed(o', v)
  {
    if Live(o'.state) && Shadowed(o, v) {
      forall x | MayTradeAt(v, x) ensures Covers(o', x) {
        assert Covers(o, x);
      }
    }
  }

  /** The order quotes one price only. */
  predicate QuotesOnly(o: Order, y: Ticks) {
    o.price == y && (o.state == Modifying ==> !ValidTicks(o.newPrice))
  }

  lemma {:induction false} OnlyShadow(o: Order, v: Venue, y: Ticks)
    requires QuotesOnly(o, y)
    ensures Shadowed(o, v) <==> AllBehind(o.terms.side, v, y)
  {
    if Shadowed(o, v) {
      forall x | MayTradeAt(v, x) ensures Behind(o.terms.side, x, y) {
        assert Covers(o, x);
      }
    }
  }

  // ---------- the handlers ----------

  lemma {:induction false} CxlSteadfast(s: State, ref: OrderRef, env: Env)
    requires Known(s, ref) && s.orders[ref].state != Modifying && Settled(s.orders[ref])
    ensures Steadfast(s.orders[ref], SendCxl(s, ref, env).0.orders[ref])
  {
    hide ChannelSendRequest, CountMsg, UncountMsg;
  }

  lemma {:induction false} CxlLeaves(s: State, ref: OrderRef, env: Env)
    requires Known(s, ref) && s.orders[ref].state == Modifying && Settled(s.orders[ref])
    ensures var o, o' := s.orders[ref], SendCxl(s, ref, env).0.orders[ref];
            if o.counters.cxlRejs > MAX_CXL_REJ_COUNTER then o' == o
            else o'.terms == o.terms && QuotesOnly(o', o.price) && Live(o'.state) && Settled(o')
  {
    hide ChannelSendRequest, CountMsg, UncountMsg;
  }

  lemma {:induction false} CancelOnAckSteadfast(s: State, ref: OrderRef, env: Env)
    requires Known(s, ref) && (s.orders[ref].cancelOnAck ==> s.orders[ref].state != Modifying)
    ensures Steadfast(s.orders[ref], CancelOnAck(s, ref, env).orders[ref])
  {
    hide SendCxl;
    if s.orders[ref].cancelOnAck {
      CxlSteadfast(SetOrder(s, ref, s.orders[ref].(cancelOnAck := false)), ref, env);
    }
  }

  lemma {:induction false} NewAckSteadfast(s: State, ref: OrderRef, env: Env)
    requires Known(s, ref) && Settled(s.orders[ref])
    ensures Steadfast(s.orders[ref], OnNewAck(s, ref, env).orders[ref])
  {
    hide CancelOnAck;
    var o := s.orders[ref];
    CancelOnAckSteadfast(if o.state == Pending then SetOrder(s, ref, o.(state := Working)) else s, ref, env);
  }

  lemma {:induction false} AnswerSteadfast(s: State, ref: OrderRef, p: Ticks, env: Env)
    requires Known(s, ref) && Settled(s.orders[ref]) && s.orders[ref].state != Modifying
    ensures Steadfast(s.orders[ref], OnModAck(s, ref, p, env).orders[ref])
    ensures Steadfast(s.orders[ref], OnModRej(s, ref, env).orders[ref])
  {
    hide CancelOnAck;
    var o := s.orders[ref];
    CancelOnAckSteadfast(SetOrder(s, ref, o.(newPrice := p, counters := o.counters.(modRejs := 0))), ref, env);
    CancelOnAckSteadfast(OrdersOnModRej(s, ref), ref, env);
  }

  /** An answered modify leaves one price: the acknowledged one, or the price before. */
  lemma {:induction false} AnswerLeaves(s: State, ref: OrderRef, p: Ticks, env: Env)
    requires Known(s, ref) && Settled(s.orders[ref]) && s.orders[ref].state == Modifying
    ensures var o, a, r := s.orders[ref], OnModAck(s, ref, p, env).orders[ref], OnModRej(s, ref, env).orders[ref];
            && a.terms == o.terms && QuotesOnly(a, p) && Live(a.state) && Settled(a)
            && r.terms == o.terms && QuotesOnly(r, o.price) && Live(r.state) && Settled(r)
  {
    hide SendCxl;
  }

  lemma {:induction false} OthersSteadfast(s: State, ref: OrderRef, q: int)
    requires Known(s, ref) && Settled(s.orders[ref])
    ensures Steadfast(s.orders[ref], OnCxlAck(s, ref).orders[ref])
    ensures Steadfast(s.orders[ref], OrdersOnNewRej(s, ref).orders[ref])
    ensures Steadfast(s.orders[ref], OrdersOnCxlRej(s, ref).orders[ref])
    ensures Steadfast(s.orders[ref], OnFill(s, ref, q).orders[ref])
    ensures s.orders[ref].state != Filled ==> Steadfast(s.orders[ref], OnBust(s, ref, q).orders[ref])
  {
    hide PostTerms, OnFill, OnBust;
    FillOrders(s, ref, q);
    BustOrders(s, ref, q);
  }

  // ---------- events ----------

  /**
    What is asked of clients, operators and exchange: no stop-loss orders, acknowledgements that echo the oldest open
    request, no bust that revives a filled order, no rebuilt order. Modifies may overlap, cancels come at any time.
   */
  predicate Echoing(w: World, e: Event)
    requires |w.venue| == |w.s.orders|
  {
    Addressed(w.s, e) ==>
      match e
      case New(ref, _) => !w.s.orders[ref].terms.stopLoss
      case Mod(ref, _, _) => !w.s.orders[ref].terms.stopLoss
      case ModAck(ref, p, _) => w.s.orders[ref].state == Modifying ==> w.venue[ref].inflight != [] && p == w.venue[ref].inflight[0]
      case Bust(ref, _) => w.s.orders[ref].state != Filled
      case Rebuild(_) => false
      case _ => true
  }

  /** Does the order stay shadowed? Told from the state before the event, and from whether a modify is taken. */
  ghost predicate Steady(w: World, e: Event)
    requires ListsKnown(w.s) && |w.venue| == |w.s.orders|
  {
    Addressed(w.s, e) ==>
      match e
      case Mod(ref, p, env) =>
        var o, v := w.s.orders[ref], w.venue[ref];
        Live(o.state) ==>
          if SendMod(w.s, ref, p, env).1.None?
          then forall x :: MayTradeAt(v, x) ==> Behind(o.terms.side, x, o.price) || Behind(o.terms.side, x, p)
          else AllBehind(o.terms.side, v, o.price)
      case ModAck(ref, p, _) =>
        w.s.orders[ref].state == Modifying ==> AllBehind(w.s.orders[ref].terms.side, Answered(w.venue[ref], true), p)
      case ModRej(ref, _) =>
        w.s.orders[ref].state == Modifying ==> AllBehind(w.s.orders[ref].terms.side, Answered(w.venue[ref], false), w.s.orders[ref].price)
      case Cxl(ref, _) =>
        w.s.orders[ref].state == Modifying && w.s.orders[ref].counters.cxlRejs <= MAX_CXL_REJ_COUNTER
        ==> AllBehind(w.s.orders[ref].terms.side, w.venue[ref], w.s.orders[ref].price)
      case _ => true
  }

  /** One order changed: the invariant holds again if it softened, is sound, and is shadowed if live. */
  lemma {:induction false} OverlapSoften(w: World, r: State, ref: OrderRef, v: Venue)
    requires OverlapInv(w) && Known(w.s, ref) && Only(w.s, r, ref) && ListsKnown(r)
    requires Softens(w.s.orders[ref], r.orders[ref]) && Sound(r.orders[ref], v)
    requires Live(r.orders[ref].state) ==> Shadowed(r.orders[ref], v)
    ensures OverlapInv(World(r, w.venue[ref := v]))
  {
    hide Softens, Sound, Shadowed, NoCross, Covered;
    SoftenKeeps(w.s.orders, w.s.lists, ref, r.orders[ref]);
  }

  lemma {:induction false} SoundAt(w: World, ref: OrderRef)
    requires OverlapInv(w) && Known(w.s, ref)
    ensures |w.venue| == |w.s.orders| && Sound(w.s.orders[ref], w.venue[ref]) && Settled(w.s.orders[ref])
    ensures Live(w.s.orders[ref].state) ==> Shadowed(w.s.orders[ref], w.venue[ref])
  {
  }

  lemma {:induction false} SoundPriced(orders: seq<Order>, venue: seq<Venue>)
    requires AllSound(orders, venue)
    ensures AllPriced(orders)
  {
    forall k | 0 <= k < |orders| && Live(orders[k].state) ensures ValidTicks(orders[k].price) {
      assert Sound(orders[k], venue[k]);
    }
  }

  lemma {:induction false} SoundUpdate(orders: seq<Order>, venue: seq<Venue>, ref: OrderRef, o: Order, v: Venue)
    requires AllSound(orders, venue) && ref < |orders| && Sound(o, v) && (Live(o.state) ==> Shadowed(o, v))
    ensures AllSound(orders[ref := o], venue[ref := v])
  {
    hide Sound, Shadowed;
  }

  lemma {:induction false} OverlapNew(w: World, ref: OrderRef, env: Env)
    requires OverlapInv(w) && Known(w.s, ref) && !w.s.orders[ref].terms.stopLoss
    ensures OverlapInv(WorldStep(w, New(ref, env)))
  {
    hide SendNew, Clear, NoCross, CoveredBut, AllSound, Shadowed, ValidTicks;
    var o := w.s.orders[ref];
    var r := SendNew(w.s, ref, env);
    NewOrders(w.s, ref, env);
    if o.state != Unknown {
      NewNotUnknown(w.s, ref, env);
    } else {
      NewCovers(w.s, ref, env);
      var o' := o.(state := if r.1.None? then Pending else Rejected);
      SoundAt(w, ref);
      if r.1.None? {
        AcceptedIsClear(w.s, ref, env);
        SoundPriced(w.s.orders, w.venue);
        GrowKeeps(w.s.orders, ref, o', o.price);
        FreshShadow(o');
        SoundUpdate(w.s.orders, w.venue, ref, o', Venue(o.price, []));
      } else {
        ShrinkKeeps(w.s.orders, w.s.lists, ref, o');
        SoundUpdate(w.s.orders, w.venue, ref, o', w.venue[ref]);
        assert w.venue[ref := w.venue[ref]] == w.venue;
      }
    }
  }

  lemma {:induction false} FreshShadow(o: Order)
    ensures Shadowed(o, Venue(o.price, []))
  {
  }

  /** The order a taken modify leaves is shadowed iff what was held is behind its price or the new request. */
  lemma {:induction false} TakenShadow(o: Order, p: Ticks, v: Venue)
    requires o.state == Modifying && o.newPrice == p && ValidTicks(p)
    ensures Shadowed(o, v.(inflight := v.inflight + [p]))
       <==> forall x :: MayTradeAt(v, x) ==> Behind(o.terms.side, x, o.price) || Behind(o.terms.side, x, p)
  {
    var v' := v.(inflight := v.inflight + [p]);
    assert forall x :: MayTradeAt(v', x) <==> MayTradeAt(v, x) || x == p;
    if Shadowed(o, v') {
      forall x | MayTradeAt(v, x) ensures Behind(o.terms.side, x, o.price) || Behind(o.terms.side, x, p) {
        assert MayTradeAt(v', x);
      }
    }
  }

  /** A modify request, taken or refused: the order stays shadowed iff the request is steady. */
  lemma {:induction false} OverlapMod(w: World, ref: OrderRef, p: Ticks, env: Env)
    requires OverlapInv(w) && Known(w.s, ref) && !w.s.orders[ref].terms.stopLoss
    ensures var r := WorldStep(w, Mod(ref, p, env));
            && (Live(r.s.orders[ref].state) ==> (Shadowed(r.s.orders[ref], r.venue[ref]) <==> Steady(w, Mod(ref, p, env))))
            && (!Live(r.s.orders[ref].state) ==> Steady(w, Mod(ref, p, env)))
            && (Steady(w, Mod(ref, p, env)) ==> OverlapInv(r))
  {
    hide SendMod, Clear, NoCross, CoveredBut, AllSound, Shadowed, AllBehind;
    var o, v := w.s.orders[ref], w.venue[ref];
    var r := SendMod(w.s, ref, p, env);
    SoundAt(w, ref);
    ModCovers(w.s, ref, p, env);
    var o' := r.0.orders[ref];
    if r.1.None? {
      ModAccepted(w.s, ref, p, env);
      TakenShadow(o', p, v);
      SoundPriced(w.s.orders, w.venue);
      GrowKeeps(w.s.orders, ref, o', p);
      CoveredSame(w.s.orders, ref, o', r.0.lists, -1);
      var v' := v.(inflight := v.inflight + [p]);
      assert Sound(o', v');
      if Steady(w, Mod(ref, p, env)) {
        SoundUpdate(w.s.orders, w.venue, ref, o', v');
      }
    } else {
      ModRefused(w.s, ref, p, env);
      assert w.venue[ref := v] == w.venue;
      OnlyShadow(o', v, o.price);
      assert Sound(o', v);
      SoftenKeeps(w.s.orders, r.0.lists, ref, o');
      if Steady(w, Mod(ref, p, env)) {
        SoundUpdate(w.s.orders, w.venue, ref, o', v);
      }
    }
  }

  lemma {:induction false} OverlapCreate(w: World, terms: Terms, p: Ticks)
    requires OverlapInv(w)
    ensures OverlapInv(WorldStep(w, Create(terms, p)))
  {
    hide ListOf, Apart, Shadowed;
    var r := WorldStep(w, Create(terms, p));
    assert r.s.orders == w.s.orders + [Fresh(terms, p)];
    assert r.s.lists == w.s.lists;
  }

  lemma {:induction false} OverlapIdle(w: World, e: Event)
    requires OverlapInv(w) && (!Addressed(w.s, e) || e.ExternalFill? || e.RebuildPos?)
    ensures OverlapInv(WorldStep(w, e))
  {
    hide Post, TradeDelta, NoCross, Covered, AllSound, SendNew, SendMod;
  }

  /** What an event other than a new order or a modify does to its order, and to what the exchange holds of it. */
  ghost predicate Leaves(w: World, e: Event, o': Order, v': Venue)
    requires ListsKnown(w.s) && |w.venue| == |w.s.orders| && !e.New? && !e.Mod? && !e.Create? && !e.ExternalFill? && !e.Rebuild? && !e.RebuildPos?
    requires Known(w.s, e.ref)
  {
    && Softens(w.s.orders[e.ref], o') && Sound(o', v')
    && (Live(o'.state) ==> (Shadowed(o', v') <==> Steady(w, e))) && (!Live(o'.state) ==> Steady(w, e))
  }

  lemma {:induction false} LeavesSteadfast(w: World, e: Event, o': Order)
    requires OverlapInv(w) && !e.New? && !e.Mod? && !e.Create? && !e.ExternalFill? && !e.Rebuild? && !e.RebuildPos? && Known(w.s, e.ref)
    requires Steadfast(w.s.orders[e.ref], o') && Steady(w, e)
    ensures Leaves(w, e, o', w.venue[e.ref])
  {
    hide Shadowed, Steady, Steadfast, Sound;
    SoundAt(w, e.ref);
    SteadfastKeeps(w.s.orders[e.ref], o', w.venue[e.ref]);
  }

  lemma {:induction false} LeavesCxl(w: World, ref: OrderRef, env: Env)
    requires OverlapInv(w) && Known(w.s, ref)
    ensures Leaves(w, Cxl(ref, env), SendCxl(w.s, ref, env).0.orders[ref], w.venue[ref])
  {
    hide SendCxl, NoCross, Covered, AllSound, Shadowed, AllBehind;
    var o, v := w.s.orders[ref], w.venue[ref];
    var o' := SendCxl(w.s, ref, env).0.orders[ref];
    SoundAt(w, ref);
    if o.state != Modifying {
      CxlSteadfast(w.s, ref, env);
      LeavesSteadfast(w, Cxl(ref, env), o');
    } else {
      CxlLeaves(w.s, ref, env);
      if o.counters.cxlRejs <= MAX_CXL_REJ_COUNTER {
        OnlyShadow(o', v, o.price);
      }
    }
  }

  lemma {:induction false} LeavesModAck(w: World, ref: OrderRef, p: Ticks, env: Env)
    requires OverlapInv(w) && Known(w.s, ref) && Echoing(w, ModAck(ref, p, env))
    ensures Leaves(w, ModAck(ref, p, env), OnModAck(w.s, ref, p, env).orders[ref], Answered(w.venue[ref], true))
  {
    hide OnModAck, NoCross, Covered, AllSound, AllBehind;
    var o, v := w.s.orders[ref], w.venue[ref];
    var o' := OnModAck(w.s, ref, p, env).orders[ref];
    SoundAt(w, ref);
    if o.state != Modifying {
      AnswerSteadfast(w.s, ref, p, env);
      SteadfastKeeps(o, o', v);
      assert MayTradeAt(v, Answered(v, true).resting);
    } else {
      AnswerLeaves(w.s, ref, p, env);
      OnlyShadow(o', Answered(v, true), p);
      assert MayTradeAt(v, p);
    }
  }

  lemma {:induction false} LeavesModRej(w: World, ref: OrderRef, env: Env)
    requires OverlapInv(w) && Known(w.s, ref)
    ensures Leaves(w, ModRej(ref, env), OnModRej(w.s, ref, env).orders[ref], Answered(w.venue[ref], false))
  {
    hide OnModRej, NoCross, Covered, AllSound, AllBehind;
    var o, v := w.s.orders[ref], w.venue[ref];
    var o' := OnModRej(w.s, ref, env).orders[ref];
    SoundAt(w, ref);
    if o.state != Modifying {
      AnswerSteadfast(w.s, ref, 0, env);
      SteadfastKeeps(o, o', v);
    } else {
      AnswerLeaves(w.s, ref, 0, env);
      OnlyShadow(o', Answered(v, false), o.price);
    }
  }

  lemma {:induction false} LeavesOther(w: World, e: Event)
    requires OverlapInv(w) && Echoing(w, e) && Addressed(w.s, e) && !e.New? && !e.Mod? && !e.Create? && !e.ExternalFill? && !e.RebuildPos?
    ensures !e.Rebuild?
    ensures Only(w.s, Step(w.s, e), e.ref)
    ensures |WorldStep(w, e).venue| == |w.venue| && WorldStep(w, e).venue == w.venue[e.ref := WorldStep(w, e).venue[e.ref]]
    ensures Leaves(w, e, Step(w.s, e).orders[e.ref], WorldStep(w, e).venue[e.ref])
  {
    hide SendNew, SendMod, SendCxl, OnNewAck, OnModAck, OnModRej, OrdersOnCxlRej, OrdersOnNewRej, OnCxlAck,
         OnFill, OnBust, Post, TradeDelta, OverlapInv, Leaves, Settled, Sound, Shadowed, Steadfast;
    var ref := e.ref;
    OtherOnly(w.s, e);
    SoundAt(w, ref);
    match e {
      case Cxl(_, env) => LeavesCxl(w, ref, env);
      case NewAck(_, env) => NewAckSteadfast(w.s, ref, env); LeavesSteadfast(w, e, Step(w.s, e).orders[ref]);
      case NewRej(_) => OthersSteadfast(w.s, ref, 0); LeavesSteadfast(w, e, Step(w.s, e).orders[ref]);
      case ModAck(_, p, env) => LeavesModAck(w, ref, p, env);
      case ModRej(_, env) => LeavesModRej(w, ref, env);
      case CxlAck(_) => OthersSteadfast(w.s, ref, 0); LeavesSteadfast(w, e, Step(w.s, e).orders[ref]);
      case CxlRej(_) => OthersSteadfast(w.s, ref, 0); LeavesSteadfast(w, e, Step(w.s, e).orders[ref]);
      case Fill(_, q) => OthersSteadfast(w.s, ref, q); LeavesSteadfast(w, e, Step(w.s, e).orders[ref]);
      case Bust(_, q) => OthersSteadfast(w.s, ref, q); LeavesSteadfast(w, e, Step(w.s, e).orders[ref]);
    }
    assert w.venue[ref := w.venue[ref]] == w.venue;
  }

  lemma {:induction false} OtherOnly(s: State, e: Event)
    requires ListsKnown(s) && Addressed(s, e) && !e.New? && !e.Mod? && !e.Create? && !e.ExternalFill? && !e.Rebuild? && !e.RebuildPos?
    ensures Only(s, Step(s, e), e.ref)
  {
    hide SendCxl, OnNewAck, OnModAck, OnModRej, OrdersOnCxlRej, OnFill, OnBust, PostTerms;
    if IsQuiet(e) {
      QuietStep(s, e);
    } else if e.Fill? {
      FillOrders(s, e.ref, e.qty);
    } else if e.Bust? {
      BustOrders(s, e.ref, e.qty);
    }
  }

  /** One event, modifies overlapping or not: every live order stays shadowed if and only if the event is steady. */
  lemma {:induction false} OverlapStep(w: World, e: Event)
    requires OverlapInv(w) && Echoing(w, e)
    ensures AllShadowed(WorldStep(w, e)) <==> Steady(w, e)
    ensures Steady(w, e) ==> OverlapInv(WorldStep(w, e))
  {
    hide OverlapInv, WorldStep, AllShadowed, Leaves, Steady;
    if Steady(w, e) {
      SteadyKeeps(w, e);
      OverlapIsSafe(WorldStep(w, e));
    } else {
      UnsteadyBreaks(w, e);
    }
  }

  lemma {:induction false} SteadyKeeps(w: World, e: Event)
    requires OverlapInv(w) && Echoing(w, e) && Steady(w, e)
    ensures OverlapInv(WorldStep(w, e))
  {
    hide OverlapInv, WorldStep, Steady, Shadowed, Sound, Softens;
    if !Addressed(w.s, e) || e.ExternalFill? || e.RebuildPos? {
      OverlapIdle(w, e);
    } else if e.Create? {
      OverlapCreate(w, e.terms, e.price);
    } else if e.New? {
      OverlapNew(w, e.ref, e.env);
    } else if e.Mod? {
      OverlapMod(w, e.ref, e.newPrice, e.env);
    } else {
      LeavesOther(w, e);
      OverlapSoften(w, Step(w.s, e), e.ref, WorldStep(w, e).venue[e.ref]);
      WorldParts(w, e);
    }
  }

  lemma {:induction false} WorldParts(w: World, e: Event)
    requires ListsKnown(w.s) && |w.venue| == |w.s.orders|
    ensures WorldStep(w, e) == World(Step(w.s, e), WorldStep(w, e).venue)
  {
    hide Step;
  }

  lemma {:induction false} UnsteadyBreaks(w: World, e: Event)
    requires OverlapInv(w) && Echoing(w, e) && !Steady(w, e)
    ensures !AllShadowed(WorldStep(w, e))
  {
    hide OverlapInv, WorldStep, Shadowed, Sound, Softens, SendMod, AllBehind;
    WorldParts(w, e);
    if e.Mod? {
      OverlapMod(w, e.ref, e.newPrice, e.env);
      assert Live(WorldStep(w, e).s.orders[e.ref].state);
    } else {
      LeavesOther(w, e);
      assert Live(WorldStep(w, e).s.orders[e.ref].state);
    }
  }

  // ---------- runs ----------

  predicate EchoingRun(w: World, es: seq<Event>)
    requires ListsKnown(w.s) && |w.venue| == |w.s.orders|
    decreases |es|
  {
    es == [] || (Echoing(w, es[0]) && EchoingRun(WorldStep(w, es[0]), es[1..]))
  }

  ghost predicate SteadyRun(w: World, es: seq<Event>)
    requires ListsKnown(w.s) && |w.venue| == |w.s.orders|
    decreases |es|
  {
    es == [] || (Steady(w, es[0]) && SteadyRun(WorldStep(w, es[0]), es[1..]))
  }

  /** Over runs with any number of modifies in flight: every live order is shadowed throughout iff every event is steady. */
  lemma {:induction false} ShadowedIffSteady(w: World, es: seq<Event>)
    requires OverlapInv(w) && EchoingRun(w, es)
    ensures ShadowedThroughout(w, es) <==> SteadyRun(w, es)
    decreases |es|
  {
    hide OverlapInv, WorldStep, Echoing, Steady, AllShadowed;
    OverlapIsSafe(w);
    if es != [] {
      OverlapStep(w, es[0]);
      if Steady(w, es[0]) {
        ShadowedIffSteady(WorldStep(w, es[0]), es[1..]);
      }
    }
  }

  /** And then two own orders can trade with each other at no point, and the process's own book never crosses. */
  lemma {:induction false} SteadyRunIsSafe(w: World, es: seq<Event>)
    requires OverlapInv(w) && EchoingRun(w, es) && SteadyRun(w, es)
    ensures OverlapInv(WorldRun(w, es)) && Safe(WorldRun(w, es)) && NoCross(WorldRun(w, es).s.orders)
    decreases |es|
  {
    hide WorldStep, Echoing, Steady, Safe, AllSound, Covered, NoCross;
    if es == [] {
      OverlapIsSafe(w);
    } else {
      OverlapStep(w, es[0]);
      SteadyRunIsSafe(WorldStep(w, es[0]), es[1..]);
    }
  }

  lemma {:induction false} FreshOverlap(config: Config)
    requires !config.useQuotes
    ensures OverlapInv(World(Initial(config), []))
  {
  }

  /** The same for every run from a fresh start. */
  lemma {:induction false} OverlapFromFresh(config: Config, es: seq<Event>)
    requires !config.useQuotes && EchoingRun(World(Initial(config), []), es)
    ensures ShadowedThroughout(World(Initial(config), []), es) <==> SteadyRun(World(Initial(config), []), es)
    ensures SteadyRun(World(Initial(config), []), es) ==> Safe(WorldRun(World(Initial(config), []), es))
  {
    hide OverlapInv, EchoingRun, SteadyRun, ShadowedThroughout, Safe, WorldRun;
    FreshOverlap(config);
    ShadowedIffSteady(World(Initial(config), []), es);
    if SteadyRun(World(Initial(config), []), es) {
      SteadyRunIsSafe(World(Initial(config), []), es);
    }
  }

  // ---------- two modifies in flight ----------

  /** The acknowledgement of the first of two requests keeps the order shadowed iff the second is no more aggressive. */
  lemma {:induction false} FirstAckExact(s: State, ref: OrderRef, v: Venue, q1: Ticks, q2: Ticks, env: Env)
    requires Known(s, ref) && s.orders[ref].state == Modifying && Settled(s.orders[ref]) && v.inflight == [q1, q2]
    ensures Shadowed(OnModAck(s, ref, q1, env).orders[ref], Answered(v, true)) <==> Behind(s.orders[ref].terms.side, q2, q1)
  {
    hide OnModAck;
    AnswerLeaves(s, ref, q1, env);
    var v' := Answered(v, true);
    assert v' == Venue(q1, [q2]);
    OnlyShadow(OnModAck(s, ref, q1, env).orders[ref], v', q1);
    assert MayTradeAt(v', q2);
  }
}
