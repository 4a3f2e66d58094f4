/**
  The life of an order: which event may take it from which state to which, that nothing else ever touches it,
  and what follows for whole runs. A cancel that comes too early is kept and goes out once.
 */
module Lifecycle {
  import opened OrderTypes
  import opened Pipeline
  import opened Effects

  /** The order state change matrix. */
  predicate Legal(e: Event, a: OrderState, b: OrderState) {
    a == b
    || match e
       case New(_, _) => a == Unknown && (b == Pending || b == Rejected)
       case Mod(_, _, _) => (a == Working && b == Modifying) || (a == Modifying && b == Working)
       case Cxl(_, _) => CancelMoves(a, b)
       case NewAck(_, _) => (a == Pending && (b == Working || b == Cancelling)) || CancelMoves(a, b)
       case NewRej(_) => (a == Pending || a == Unknown) && b == Rejected
       case ModAck(_, _, _) => (a == Modifying && b == Working) || CancelMoves(a, b)
       case ModRej(_, _) => (a == Modifying && b == Working) || CancelMoves(a, b)
       case CxlAck(_) => b == Cancelled
       case CxlRej(_) => a == Cancelling && b == Working
       case Fill(_, _) => b == Filled
       case Bust(_, _) => a == Filled && b == Working
       case _ => false
  }

  /** A cancel request; a refused one drops an order from modifying back to working. */
  predicate CancelMoves(a: OrderState, b: OrderState) {
    ((a == Working || a == Modifying) && b == Cancelling) || (a == Modifying && b == Working)
  }

  /** What an event may do to order k: nothing unless addressed; otherwise a legal move, and fills alone change its quantity. */
  ghost predicate LegalAt(s: State, r: State, e: Event, k: OrderRef)
    requires k < |s.orders| && k < |r.orders|
  {
    var o, o' := s.orders[k], r.orders[k];
    && o'.terms == o.terms
    && (Touches(e, k) ==> Legal(e, o.state, o'.state) && (e.Fill? || e.Bust? || o'.cumQty == o.cumQty))
    && (!Touches(e, k) ==> o' == o)
  }

  predicate Touches(e: Event, k: OrderRef) {
    !e.Create? && !e.ExternalFill? && !e.Rebuild? && !e.RebuildPos? && e.ref == k
  }

  // ---------- requests ----------

  lemma {:induction false} CxlMoves(s: State, ref: OrderRef, env: Env)
    requires Known(s, ref)
    ensures var a, b := s.orders[ref].state, SendCxl(s, ref, env).0.orders[ref].state;
            a == b || CancelMoves(a, b)
  {
    hide ChannelSendRequest, CountMsg, UncountMsg;
  }

  lemma {:induction false} CancelOnAckMoves(s: State, ref: OrderRef, env: Env)
    requires Known(s, ref)
    ensures var a, b := s.orders[ref].state, CancelOnAck(s, ref, env).orders[ref].state;
            a == b || CancelMoves(a, b)
  {
    hide SendCxl, CancelMoves;
    if s.orders[ref].cancelOnAck {
      CxlMoves(SetOrder(s, ref, s.orders[ref].(cancelOnAck := false)), ref, env);
    }
  }

  lemma {:induction false} NewAckMoves(s: State, ref: OrderRef, env: Env)
    requires Known(s, ref)
    ensures Legal(NewAck(ref, env), s.orders[ref].state, OnNewAck(s, ref, env).orders[ref].state)
  {
    hide CancelOnAck;
    var o := s.orders[ref];
    CancelOnAckMoves(if o.state == Pending then SetOrder(s, ref, o.(state := Working)) else s, ref, env);
  }

  lemma {:induction false} ModAnswerMoves(s: State, ref: OrderRef, p: Ticks, env: Env)
    requires Known(s, ref)
    ensures Legal(ModAck(ref, p, env), s.orders[ref].state, OnModAck(s, ref, p, env).orders[ref].state)
    ensures Legal(ModRej(ref, env), s.orders[ref].state, OnModRej(s, ref, env).orders[ref].state)
  {
    hide CancelOnAck, Dec32;
    var o := s.orders[ref];
    CancelOnAckMoves(OnModPost(SetOrder(s, ref, o.(newPrice := p, counters := o.counters.(modRejs := 0))), ref, true), ref, env);
    CancelOnAckMoves(OnModPost(OrdersOnModRej(s, ref), ref, false), ref, env);
  }

  lemma {:induction false} ModMoves(s: State, ref: OrderRef, p: Ticks, env: Env)
    requires Known(s, ref) && ListsKnown(s)
    ensures Legal(Mod(ref, p, env), s.orders[ref].state, SendMod(s, ref, p, env).0.orders[ref].state)
  {
    hide SendModFromThrottle, CountMsg, UncountMsg, ByOrders, Dec32;
    var m := CountMsg(SetOrder(s, ref, s.orders[ref].(newPrice := p)), ref, MsgMod, 1);
    var r := SendModFromOrders(m, ref, env);
    assert r.0.orders[ref].state == s.orders[ref].state || (s.orders[ref].state == Working && r.0.orders[ref].state == Modifying);
  }

  // ---------- every event ----------

  lemma {:induction false} QuietLegal(s: State, e: Event)
    requires ListsKnown(s) && Addressed(s, e) && IsQuiet(e)
    ensures Legal(e, s.orders[e.ref].state, Step(s, e).orders[e.ref].state)
  {
    hide SendMod, SendCxl, OnNewAck, OnModAck, OnModRej, CancelMoves;
    match e
    case Mod(ref, p, env) => ModMoves(s, ref, p, env);
    case Cxl(ref, env) => CxlMoves(s, ref, env);
    case NewAck(ref, env) => NewAckMoves(s, ref, env);
    case ModAck(ref, p, env) => ModAnswerMoves(s, ref, p, env);
    case ModRej(ref, env) => ModAnswerMoves(s, ref, INVALID_TICKS, env);
    case CxlRej(ref) =>
  }

  lemma {:induction false} QuietLegalAt(s: State, e: Event, k: OrderRef)
    requires ListsKnown(s) && Addressed(s, e) && IsQuiet(e) && Known(s, k)
    ensures LegalAt(s, Step(s, e), e, k)
  {
    hide Step, Legal;
    QuietStep(s, e);
    QuietLegal(s, e);
  }

  lemma {:induction false} RemovalLegal(s: State, ref: OrderRef, k: OrderRef)
    requires Known(s, ref) && Known(s, k)
    ensures LegalAt(s, OnCxlAck(s, ref), CxlAck(ref), k)
    ensures LegalAt(s, OrdersOnNewRej(s, ref), NewRej(ref), k)
  {
    hide PostTerms;
  }

  lemma {:induction false} FillLegal(s: State, ref: OrderRef, q: int, k: OrderRef)
    requires Known(s, ref) && Known(s, k)
    ensures LegalAt(s, OnFill(s, ref, q), Fill(ref, q), k)
    ensures LegalAt(s, OnBust(s, ref, q), Bust(ref, q), k)
  {
    hide OnFill, OnBust;
    FillOrders(s, ref, q);
    BustOrders(s, ref, q);
  }

  lemma {:induction false} NewLegal(s: State, ref: OrderRef, env: Env, k: OrderRef)
    requires Known(s, ref) && Known(s, k) && ListsKnown(s)
    ensures LegalAt(s, SendNew(s, ref, env).0, New(ref, env), k)
  {
    hide SendNew;
    NewOrders(s, ref, env);
  }

  lemma {:induction false} RebuildLegal(s: State, o: Order, k: OrderRef)
    requires Known(s, k)
    ensures RebuildOrder(s, o).orders[k] == s.orders[k]
  {
    hide PostTerms;
  }

  /** Every event moves only the order it names, and that one only along the matrix. */
  lemma {:induction false} StepLegal(s: State, e: Event, k: OrderRef)
    requires ListsKnown(s) && Known(s, k)
    ensures LegalAt(s, Step(s, e), e, k)
  {
    hide SendNew, SendMod, SendCxl, OnNewAck, OnModAck, OnModRej, OrdersOnCxlRej, OrdersOnNewRej, OnCxlAck,
         OnFill, OnBust, RebuildOrder, Post, Legal;
    if Addressed(s, e) {
      if IsQuiet(e) {
        QuietLegalAt(s, e, k);
      } else {
        match e {
          case Create(_, _) =>
          case New(ref, env) => NewLegal(s, ref, env, k);
          case NewRej(ref) => RemovalLegal(s, ref, k);
          case CxlAck(ref) => RemovalLegal(s, ref, k);
          case Fill(ref, q) => FillLegal(s, ref, q, k);
          case Bust(ref, q) => FillLegal(s, ref, q, k);
          case ExternalFill(_, _, _, _, _) =>
          case Rebuild(o) => RebuildLegal(s, o, k);
          case RebuildPos(_, _, _, _) =>
        }
      }
    }
  }

  // ---------- whole runs ----------

  /** Terms never change, and an order that was sent is never unsent again: it is sent at most once in any run. */
  lemma {:induction false} SentAtMostOnce(s: State, es: seq<Event>, k: OrderRef)
    requires ListsKnown(s) && Known(s, k)
    ensures var r := Run(s, es);
            && r.orders[k].terms == s.orders[k].terms
            && (s.orders[k].state != Unknown ==> r.orders[k].state != Unknown && forall env :: SendNew(r, k, env).1.Some?)
    decreases |es|
  {
    hide Step, SendNew;
    if es == [] {
      forall env | s.orders[k].state != Unknown ensures SendNew(s, k, env).1.Some? {
        ResendRefused(s, k, env);
      }
    } else {
      StepLegal(s, es[0], k);
      SentAtMostOnce(Step(s, es[0]), es[1..], k);
    }
  }

  lemma {:induction false} ResendRefused(s: State, k: OrderRef, env: Env)
    requires Known(s, k) && ListsKnown(s) && s.orders[k].state != Unknown
    ensures SendNew(s, k, env).1 == Some(Reject(true, InvalidState))
  {
  }

  predicate NoRevival(s: State, es: seq<Event>, k: OrderRef)
    requires ListsKnown(s) && Known(s, k)
    decreases |es|
  {
    es == [] || ((es[0].Bust? && es[0].ref == k ==> s.orders[k].state != Filled) && NoRevival(Step(s, es[0]), es[1..], k))
  }

  /** A dead order stays dead in every run that does not bust it while it is filled. */
  lemma {:induction false} DeadStaysDead(s: State, es: seq<Event>, k: OrderRef)
    requires ListsKnown(s) && Known(s, k) && Dead(s.orders[k].state) && NoRevival(s, es, k)
    ensures Dead(Run(s, es).orders[k].state)
    decreases |es|
  {
    hide Step;
    if es != [] {
      StepLegal(s, es[0], k);
      DeadStaysDead(Step(s, es[0]), es[1..], k);
    }
  }

  /** One event brings a dead order back to life if and only if it busts it while it is filled. */
  lemma {:induction false} RevivalExact(s: State, e: Event, k: OrderRef)
    requires ListsKnown(s) && Known(s, k) && Dead(s.orders[k].state)
    ensures !Dead(Step(s, e).orders[k].state) <==> e.Bust? && e.ref == k && s.orders[k].state == Filled
  {
    hide Step;
    StepLegal(s, e, k);
    if e.Bust? && e.ref == k {
      BustWorks(s, k, e.qty);
    }
  }

  lemma {:induction false} BustWorks(s: State, k: OrderRef, q: int)
    requires ListsKnown(s) && Known(s, k)
    ensures Step(s, Bust(k, q)).orders[k].state == if s.orders[k].state == Filled then Working else s.orders[k].state
  {
    hide OnBust;
    BustOrders(s, k, q);
  }

  // ---------- cancels ----------

  /** May a cancel of this order go out now? */
  predicate CancelGoesOut(o: Order, env: Env) {
    o.counters.cxlRejs <= MAX_CXL_REJ_COUNTER && env.throttleOk && env.loggedOn && env.sendOk && o.terms.side != NoSide
  }

  /** An accepted cancel is never lost: the order is being cancelled, or the cancel is kept with it. */
  lemma {:induction false} CancelNotLost(s: State, ref: OrderRef, env: Env)
    requires Known(s, ref) && SendCxl(s, ref, env).1.None?
    ensures var o := SendCxl(s, ref, env).0.orders[ref];
            o.state == Cancelling || (o.cancelOnAck && o.state == s.orders[ref].state)
  {
    hide CountMsg, UncountMsg;
  }

  /** A cancel kept while the new order was pending goes out with its acknowledgement, exactly if it can; it is kept no longer. */
  lemma {:induction false} KeptCancelGoesOut(s: State, ref: OrderRef, env: Env)
    requires Known(s, ref) && s.orders[ref].state == Pending && s.orders[ref].cancelOnAck
    ensures var o := OnNewAck(s, ref, env).orders[ref];
            && !o.cancelOnAck
            && o.state == if CancelGoesOut(s.orders[ref], env) then Cancelling else Working
  {
    hide SendCxl;
    var o := s.orders[ref].(state := Working, cancelOnAck := false);
    CancelWorking(SetOrder(SetOrder(s, ref, s.orders[ref].(state := Working)), ref, o), ref, env);
  }

  /** A cancel of a working order: cancelling exactly if it can go out, otherwise working as before. */
  lemma {:induction false} CancelWorking(s: State, ref: OrderRef, env: Env)
    requires Known(s, ref) && s.orders[ref].state == Working && !s.orders[ref].cancelOnAck
    ensures var r := SendCxl(s, ref, env);
            && (r.1.None? <==> CancelGoesOut(s.orders[ref], env)) && !r.0.orders[ref].cancelOnAck
            && r.0.orders[ref].state == if r.1.None? then Cancelling else Working
  {
    hide CountMsg, UncountMsg;
  }

  /** What a refused cancel leaves of the order: nothing happened, or it works again, or the cancel is kept although refused. */
  function AfterRefusedCancel(o: Order): Order {
    if o.counters.cxlRejs > MAX_CXL_REJ_COUNTER then o
    else
      var r := o.(counters := o.counters.(cxlRejs := o.counters.cxlRejs + 1));
      if o.state == Working || o.state == Modifying then r.(state := Working) else r.(cancelOnAck := true)
  }

  lemma {:induction false} RefusedCancel(s: State, ref: OrderRef, env: Env)
    requires Known(s, ref) && SendCxl(s, ref, env).1.Some?
    ensures SendCxl(s, ref, env).0.orders == s.orders[ref := AfterRefusedCancel(s.orders[ref])]
  {
    hide ChannelSendRequest, CountMsg, UncountMsg;
  }

  /**
    The exact condition for a refused cancel to leave the order as it was, but for its reject count: it was refused for
    that count, or the order was working, or it kept a cancel already. A modifying order falls back to working with its
    request still counted; a pending one keeps the refused cancel.
   */
  lemma {:induction false} RefusedCancelExact(s: State, ref: OrderRef, env: Env)
    requires Known(s, ref) && SendCxl(s, ref, env).1.Some?
    ensures var o, o' := s.orders[ref], SendCxl(s, ref, env).0.orders[ref];
            && (o'.(counters := o.counters) == o
                <==> o.counters.cxlRejs > MAX_CXL_REJ_COUNTER || o.state == Working || (o.state != Modifying && o.cancelOnAck))
            && o'.counters.mods == o.counters.mods && o'.newPrice == o.newPrice
  {
    hide SendCxl;
    RefusedCancel(s, ref, env);
  }

  /** After a refused cancel of a modifying order the acknowledgement of its modify no longer moves the price. */
  lemma {:induction false} RefusedCancelOfModify(s: State, ref: OrderRef, env: Env)
    requires Known(s, ref) && s.orders[ref].state == Modifying && s.orders[ref].counters.cxlRejs <= MAX_CXL_REJ_COUNTER
    requires SendCxl(s, ref, env).1.Some?
    ensures var o := SendCxl(s, ref, env).0.orders[ref];
            o.state == Working && o.counters.mods == s.orders[ref].counters.mods && OnModAck(SendCxl(s, ref, env).0, ref, o.newPrice, env).orders[ref].price == o.price
  {
    hide SendCxl, CancelOnAck;
    RefusedCancel(s, ref, env);
    var r := SendCxl(s, ref, env).0;
    var t := SetOrder(r, ref, r.orders[ref].(newPrice := r.orders[ref].newPrice, counters := r.orders[ref].counters.(modRejs := 0)));
    CancelOnAckPrice(t, ref, env);
  }

  lemma {:induction false} CancelOnAckPrice(s: State, ref: OrderRef, env: Env)
    requires Known(s, ref)
    ensures CancelOnAck(s, ref, env).orders[ref].price == s.orders[ref].price
  {
    hide ChannelSendRequest, CountMsg, UncountMsg;
  }
}
