/**
  Where no cancel overtakes a modify at all, the process knows more: its record of every live order is exactly what the
  exchange holds, the price, and the one request in flight.
 */
module WashTradeRecord {
  import opened OrderTypes
  import opened Pipeline
  import opened Effects
  import opened WashTrade
  import opened WashTradeBook
  import opened WashTradeShadow
  import opened WashTradeOverlap
  import opened WashTradeSafety

  /** What the process believes about a live order is what the exchange holds. */
  predicate Tracked(o: Order, v: Venue) {
    && (Live(o.state) ==>
          && v.resting == o.price
          && if o.state == Modifying then o.counters.mods == 1 && ValidTicks(o.newPrice) && v.inflight == [o.newPrice]
             else o.counters.mods == 0 && v.inflight == [])
    && (o.state == Unknown ==> o.counters.mods == 0)
  }

  ghost predicate AllTracked(orders: seq<Order>, venue: seq<Venue>) {
    |venue| == |orders| && forall k :: 0 <= k < |orders| ==> Tracked(orders[k], venue[k])
  }

  ghost predicate RecordInv(w: World)
    ensures RecordInv(w) ==> ListsKnown(w.s) && |w.venue| == |w.s.orders|
  {
    Inv(w) && AllTracked(w.s.orders, w.venue)
  }

  // ---------- every handler keeps track ----------

  lemma {:induction false} CxlTracked(s: State, ref: OrderRef, v: Venue, env: Env)
    requires Known(s, ref) && Tracked(s.orders[ref], v) && Settled(s.orders[ref]) && s.orders[ref].state != Modifying
    ensures Tracked(SendCxl(s, ref, env).0.orders[ref], v)
  {
    hide ChannelSendRequest, CountMsg, UncountMsg;
  }

  lemma {:induction false} CancelOnAckTracked(s: State, ref: OrderRef, v: Venue, env: Env)
    requires Known(s, ref) && Tracked(s.orders[ref], v) && (s.orders[ref].cancelOnAck ==> s.orders[ref].state != Modifying)
    ensures Tracked(CancelOnAck(s, ref, env).orders[ref], v)
  {
    hide SendCxl;
    if s.orders[ref].cancelOnAck {
      CxlTracked(SetOrder(s, ref, s.orders[ref].(cancelOnAck := false)), ref, v, env);
    }
  }

  lemma {:induction false} NewAckTracked(s: State, ref: OrderRef, v: Venue, env: Env)
    requires Known(s, ref) && Tracked(s.orders[ref], v) && Settled(s.orders[ref])
    ensures Tracked(OnNewAck(s, ref, env).orders[ref], v)
  {
    hide CancelOnAck;
    var o := s.orders[ref];
    CancelOnAckTracked(if o.state == Pending then SetOrder(s, ref, o.(state := Working)) else s, ref, v, env);
  }

  lemma {:induction false} ModAckTracked(s: State, ref: OrderRef, p: Ticks, v: Venue, env: Env)
    requires Known(s, ref) && Tracked(s.orders[ref], v) && Settled(s.orders[ref]) && (s.orders[ref].state == Modifying ==> p == s.orders[ref].newPrice)
    ensures Tracked(OnModAck(s, ref, p, env).orders[ref], Answered(v, true))
  {
    hide CancelOnAck;
    var o := s.orders[ref];
    var b := OnModPost(SetOrder(s, ref, o.(newPrice := p, counters := o.counters.(modRejs := 0))), ref, true);
    CancelOnAckTracked(b, ref, Answered(v, true), env);
  }

  lemma {:induction false} ModRejTracked(s: State, ref: OrderRef, v: Venue, env: Env)
    requires Known(s, ref) && Tracked(s.orders[ref], v) && Settled(s.orders[ref])
    ensures Tracked(OnModRej(s, ref, env).orders[ref], Answered(v, false))
  {
    hide CancelOnAck;
    CancelOnAckTracked(OnModPost(OrdersOnModRej(s, ref), ref, false), ref, Answered(v, false), env);
  }

  lemma {:induction false} OthersTracked(s: State, ref: OrderRef, q: int, v: Venue)
    requires Known(s, ref) && Tracked(s.orders[ref], v)
    ensures Tracked(OnCxlAck(s, ref).orders[ref], v)
    ensures Tracked(OrdersOnNewRej(s, ref).orders[ref], v)
    ensures Tracked(OrdersOnCxlRej(s, ref).orders[ref], v)
    ensures Tracked(OnFill(s, ref, q).orders[ref], v)
    ensures s.orders[ref].state != Filled ==> Tracked(OnBust(s, ref, q).orders[ref], v)
  {
    hide PostTerms, OnFill, OnBust;
    FillOrders(s, ref, q);
    BustOrders(s, ref, q);
  }

  // ---------- careful runs ----------

  /** A fair event, and no cancel while a modify of the order is unanswered. */
  predicate Careful(w: World, e: Event)
    requires |w.venue| == |w.s.orders|
  {
    Fair(w, e) && (e.Cxl? && Known(w.s, e.ref) && Live(w.s.orders[e.ref].state) ==> w.venue[e.ref].inflight == [])
  }

  predicate CarefulRun(w: World, es: seq<Event>)
    requires ListsKnown(w.s) && |w.venue| == |w.s.orders|
    decreases |es|
  {
    es == [] || (Careful(w, es[0]) && CarefulRun(WorldStep(w, es[0]), es[1..]))
  }

  lemma {:induction false} CarefulIsGentle(w: World, e: Event)
    requires RecordInv(w) && Careful(w, e)
    ensures Gentle(w, e)
  {
    if e.Cxl? && Known(w.s, e.ref) {
      TrackedAt(w, e.ref);
    }
  }

  lemma {:induction false} TrackedUpdate(orders: seq<Order>, venue: seq<Venue>, ref: OrderRef, o: Order, v: Venue)
    requires AllTracked(orders, venue) && ref < |orders| && Tracked(o, v)
    ensures AllTracked(orders[ref := o], venue[ref := v])
  {
  }

  lemma {:induction false} TrackedNew(w: World, ref: OrderRef, env: Env)
    requires RecordInv(w) && Known(w.s, ref)
    ensures AllTracked(WorldStep(w, New(ref, env)).s.orders, WorldStep(w, New(ref, env)).venue)
  {
    hide SendNew, BookInv, ValidTicks;
    var o := w.s.orders[ref];
    NewOrders(w.s, ref, env);
    if o.state != Unknown {
      NewNotUnknown(w.s, ref, env);
    }
  }

  lemma {:induction false} TrackedMod(w: World, ref: OrderRef, p: Ticks, env: Env)
    requires RecordInv(w) && Known(w.s, ref) && Fair(w, Mod(ref, p, env))
    ensures AllTracked(WorldStep(w, Mod(ref, p, env)).s.orders, WorldStep(w, Mod(ref, p, env)).venue)
  {
    hide SendMod, Clear, NoCross, CoveredBut, ValidTicks, AllTracked;
    var r := SendMod(w.s, ref, p, env);
    TrackedAt(w, ref);
    if r.1.None? {
      ModAccepted(w.s, ref, p, env);
      TrackedUpdate(w.s.orders, w.venue, ref, r.0.orders[ref], w.venue[ref].(inflight := w.venue[ref].inflight + [p]));
    } else {
      ModRefused(w.s, ref, p, env);
      TrackedUpdate(w.s.orders, w.venue, ref, r.0.orders[ref], w.venue[ref]);
      assert w.venue[ref := w.venue[ref]] == w.venue;
    }
  }

  lemma {:induction false} TrackedAt(w: World, ref: OrderRef)
    requires RecordInv(w) && Known(w.s, ref)
    ensures |w.venue| == |w.s.orders| && Tracked(w.s.orders[ref], w.venue[ref]) && Settled(w.s.orders[ref])
  {
  }

  lemma {:induction false} TrackedCreate(w: World, terms: Terms, p: Ticks)
    requires RecordInv(w)
    ensures AllTracked(WorldStep(w, Create(terms, p)).s.orders, WorldStep(w, Create(terms, p)).venue)
  {
    hide BookInv;
  }

  lemma {:induction false} TrackedOther(w: World, e: Event)
    requires RecordInv(w) && Careful(w, e) && Addressed(w.s, e) && !e.New? && !e.Mod? && !e.Create?
    ensures AllTracked(WorldStep(w, e).s.orders, WorldStep(w, e).venue)
  {
    hide SendNew, SendMod, SendCxl, OnNewAck, OnModAck, OnModRej, OrdersOnCxlRej, OrdersOnNewRej, OnCxlAck,
         OnFill, OnBust, Post, TradeDelta, BookInv, AllTracked, Settled;
    BookOther(w, e);
    if !e.ExternalFill? && !e.RebuildPos? {
      var ref := e.ref;
      var v := w.venue[ref];
      TrackedAt(w, ref);
      match e {
        case Cxl(_, env) => CxlTracked(w.s, ref, v, env);
        case NewAck(_, env) => NewAckTracked(w.s, ref, v, env);
        case NewRej(_) => OthersTracked(w.s, ref, 0, v);
        case ModAck(_, p, env) => ModAckTracked(w.s, ref, p, v, env);
        case ModRej(_, env) => ModRejTracked(w.s, ref, v, env);
        case CxlAck(_) => OthersTracked(w.s, ref, 0, v);
        case CxlRej(_) => OthersTracked(w.s, ref, 0, v);
        case Fill(_, q) => OthersTracked(w.s, ref, q, v);
        case Bust(_, q) => OthersTracked(w.s, ref, q, v);
      }
      var v' := if e.ModAck? then Answered(v, true) else if e.ModRej? then Answered(v, false) else v;
      assert w.venue[ref := v] == w.venue;
      TrackedUpdate(w.s.orders, w.venue, ref, Step(w.s, e).orders[ref], v');
    }
  }

  lemma {:induction false} TrackedIgnored(w: World, e: Event)
    requires RecordInv(w) && !Addressed(w.s, e)
    ensures AllTracked(WorldStep(w, e).s.orders, WorldStep(w, e).venue)
  {
    hide BookInv, AllTracked, SendNew, SendMod, StepOther;
  }

  lemma {:induction false} RecordStep(w: World, e: Event)
    requires RecordInv(w) && Careful(w, e)
    ensures RecordInv(WorldStep(w, e))
  {
    hide Inv, WorldStep, Fair, AllTracked;
    CarefulIsGentle(w, e);
    ShadowedStep(w, e);
    if Addressed(w.s, e) {
      match e
      case New(ref, env) => TrackedNew(w, ref, env);
      case Mod(ref, p, env) => TrackedMod(w, ref, p, env);
      case Create(terms, p) => TrackedCreate(w, terms, p);
      case _ => TrackedOther(w, e);
    } else {
      TrackedIgnored(w, e);
    }
  }

  /** Every careful run: the process's record of every live order is what the exchange holds, and the world is safe. */
  lemma {:induction false} CarefulRunIsTracked(w: World, es: seq<Event>)
    requires RecordInv(w) && CarefulRun(w, es)
    ensures RecordInv(WorldRun(w, es)) && AllTracked(WorldRun(w, es).s.orders, WorldRun(w, es).venue) && Safe(WorldRun(w, es))
    decreases |es|
  {
    hide BookInv, OverlapInv, AllTracked, WorldStep, Careful, Safe;
    if es == [] {
      OverlapIsSafe(w);
    } else {
      RecordStep(w, es[0]);
      CarefulRunIsTracked(WorldStep(w, es[0]), es[1..]);
    }
  }

  /** The same for every run from a fresh start. */
  lemma {:induction false} TrackedFromFresh(config: Config, es: seq<Event>)
    requires !config.useQuotes && CarefulRun(World(Initial(config), []), es)
    ensures var w := WorldRun(World(Initial(config), []), es);
            AllTracked(w.s.orders, w.venue)
  {
    CarefulRunIsTracked(World(Initial(config), []), es);
  }
}
