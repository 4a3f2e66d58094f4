/**
  The request counters kept with an order, modifies in flight, modify rejects in a row, cancel rejects: what each event
  makes of them, and that the number of modifies in flight never wraps and never exceeds its limit.
 */
module RequestCounters {
  import opened OrderTypes
  import opened Pipeline
  import opened Effects
  import opened WashTradeBook
  import opened Acceptance
  import Lifecycle

  /** A cancel request adds a reject if it is refused, unless the limit of rejects is what refuses it. */
  function AfterCancel(c: Counters, o: Order, env: Env): Counters {
    if CxlVerdict(o, env).Some? && CxlVerdict(o, env) != Some(MaxCxlRejects) then c.(cxlRejs := c.cxlRejs + 1) else c
  }

  /** And so does a cancel kept with the order that goes out with an answer. */
  function AfterKept(c: Counters, o: Order, st: OrderState, env: Env): Counters {
    if o.cancelOnAck then AfterCancel(c, o.(cancelOnAck := false, state := st, counters := c), env) else c
  }

  /** The counters of order k after an event: `taken` tells whether a modify request is taken. */
  function CountersAfter(s: State, e: Event, k: OrderRef, taken: bool): Counters
    requires Known(s, k)
  {
    var o := s.orders[k];
    var c := o.counters;
    if !Lifecycle.Touches(e, k) then c else
    match e
    case Mod(_, _, _) => if taken then c.(mods := c.mods + 1) else c.(modRejs := c.modRejs + 1)
    case Cxl(_, env) => AfterCancel(c, o, env)
    case NewAck(_, env) => AfterKept(c, o, if o.state == Pending then Working else o.state, env)
    case ModAck(_, _, env) => AfterKept(Answered(o).(modRejs := 0), o, StateAnswered(o), env)
    case ModRej(_, env) => AfterKept(Answered(o).(modRejs := c.modRejs + 1), o, StateAnswered(o), env)
    case CxlRej(_) => c.(cxlRejs := c.cxlRejs + 1)
    case _ => c
  }

  /** An answered modify is one fewer in flight, on 32 unsigned bits; an answer in another state is not counted. */
  function Answered(o: Order): Counters {
    if o.state != Modifying then o.counters
    else o.counters.(mods := if o.counters.mods == 0 then 0xFFFF_FFFF else o.counters.mods - 1)
  }

  function StateAnswered(o: Order): OrderState {
    if o.state == Modifying && Answered(o).mods == 0 then Working else o.state
  }

  lemma {:induction false} CancelCounters(s: State, ref: OrderRef, env: Env)
    requires Known(s, ref)
    ensures var o, r := s.orders[ref], SendCxl(s, ref, env).0.orders[ref];
            r.counters == AfterCancel(o.counters, o, env)
  {
    hide CountMsg, UncountMsg;
  }

  lemma {:induction false} KeptCounters(s: State, ref: OrderRef, env: Env)
    requires Known(s, ref)
    ensures var o, r := s.orders[ref], CancelOnAck(s, ref, env).orders[ref];
            r.counters == AfterKept(o.counters, o, o.state, env)
  {
    hide SendCxl, CxlVerdict;
    if s.orders[ref].cancelOnAck {
      CancelCounters(SetOrder(s, ref, s.orders[ref].(cancelOnAck := false)), ref, env);
      SameVerdict(s.orders[ref].(cancelOnAck := false), s.orders[ref].(cancelOnAck := false, state := s.orders[ref].state, counters := s.orders[ref].counters), env);
    }
  }

  /** The verdict on a cancel looks at state, kept cancel, cancel rejects and side only. */
  lemma {:induction false} SameVerdict(o: Order, x: Order, env: Env)
    requires x.state == o.state && x.cancelOnAck == o.cancelOnAck && x.counters.cxlRejs == o.counters.cxlRejs && x.terms.side == o.terms.side
    ensures CxlVerdict(x, env) == CxlVerdict(o, env)
  {
  }

  /** The counters after an answer whose own effect leads to state t. */
  lemma {:induction false} KeptFrom(o: Order, t: State, ref: OrderRef, env: Env)
    requires Known(t, ref) && t.orders[ref].cancelOnAck == o.cancelOnAck && t.orders[ref].terms == o.terms
    ensures CancelOnAck(t, ref, env).orders[ref].counters == AfterKept(t.orders[ref].counters, o, t.orders[ref].state, env)
  {
    hide CancelOnAck, CxlVerdict;
    var x := t.orders[ref];
    KeptCounters(t, ref, env);
    SameVerdict(x.(cancelOnAck := false, state := x.state, counters := x.counters), o.(cancelOnAck := false, state := x.state, counters := x.counters), env);
  }

  lemma {:induction false} NewAckCounters(s: State, ref: OrderRef, env: Env)
    requires Known(s, ref)
    ensures OnNewAck(s, ref, env).orders[ref].counters == CountersAfter(s, NewAck(ref, env), ref, false)
  {
    hide CancelOnAck, AfterKept;
    var o := s.orders[ref];
    KeptFrom(o, if o.state == Pending then SetOrder(s, ref, o.(state := Working)) else s, ref, env);
  }

  lemma {:induction false} AnswerCounters(s: State, ref: OrderRef, p: Ticks, env: Env)
    requires Known(s, ref)
    ensures OnModAck(s, ref, p, env).orders[ref].counters == CountersAfter(s, ModAck(ref, p, env), ref, false)
    ensures OnModRej(s, ref, env).orders[ref].counters == CountersAfter(s, ModRej(ref, env), ref, false)
  {
    hide CancelOnAck, AfterKept;
    var o := s.orders[ref];
    KeptFrom(o, OnModPost(SetOrder(s, ref, o.(newPrice := p, counters := o.counters.(modRejs := 0))), ref, true), ref, env);
    KeptFrom(o, OnModPost(OrdersOnModRej(s, ref), ref, false), ref, env);
  }

  lemma {:induction false} ModCounters(s: State, ref: OrderRef, p: Ticks, env: Env)
    requires Known(s, ref) && ListsKnown(s)
    ensures SendMod(s, ref, p, env).0.orders[ref].counters
         == CountersAfter(s, Mod(ref, p, env), ref, SendMod(s, ref, p, env).1.None?)
  {
    hide CanSend, CountMsg, UncountMsg, ChannelSendRequest;
    if SendMod(s, ref, p, env).1.Some? {
      ModRefused(s, ref, p, env);
    }
  }

  lemma {:induction false} OtherCounters(s: State, e: Event, k: OrderRef)
    requires Addressed(s, e) && Known(s, k) && ListsKnown(s)
    requires !e.Mod? && !e.Cxl? && !e.NewAck? && !e.ModAck? && !e.ModRej?
    ensures Step(s, e).orders[k].counters == CountersAfter(s, e, k, false)
  {
    hide SendNew, PostTerms, Post, OnFill, OnBust;
    match e {
      case New(ref, env) => NewOrders(s, ref, env);
      case Fill(ref, q) => FillOrders(s, ref, q);
      case Bust(ref, q) => BustOrders(s, ref, q);
      case _ =>
    }
  }

  lemma {:induction false} RequestsCounted(s: State, e: Event)
    requires ListsKnown(s) && Addressed(s, e) && IsQuiet(e) && !e.CxlRej?
    ensures Step(s, e).orders[e.ref].counters
         == CountersAfter(s, e, e.ref, e.Mod? && SendMod(s, e.ref, e.newPrice, e.env).1.None?)
  {
    hide SendMod, SendCxl, OnNewAck, OnModAck, OnModRej, AfterKept, AfterCancel, Answered, StateAnswered;
    match e {
      case Mod(k, p, env) => ModCounters(s, k, p, env);
      case Cxl(k, env) => CancelCounters(s, k, env);
      case NewAck(k, env) => NewAckCounters(s, k, env);
      case ModAck(k, p, env) => AnswerCounters(s, k, p, env);
      case ModRej(k, env) => AnswerCounters(s, k, 0, env);
    }
  }

  /** One event, any order: its counters are exactly these. */
  lemma {:induction false} CountersStep(s: State, e: Event, k: OrderRef)
    requires ListsKnown(s) && Known(s, k)
    ensures Step(s, e).orders[k].counters
         == CountersAfter(s, e, k, e.Mod? && Known(s, e.ref) && SendMod(s, e.ref, e.newPrice, e.env).1.None?)
  {
    hide SendMod, Step, CountersAfter;
    if Addressed(s, e) {
      if !IsQuiet(e) || e.CxlRej? {
        OtherCounters(s, e, k);
      } else if e.ref == k {
        RequestsCounted(s, e);
      } else {
        QuietStep(s, e);
        Untouched(s, e, k, e.Mod? && SendMod(s, e.ref, e.newPrice, e.env).1.None?);
      }
    } else {
      Untouched(s, e, k, false);
      Ignored(s, e);
    }
  }

  lemma {:induction false} Untouched(s: State, e: Event, k: OrderRef, taken: bool)
    requires Known(s, k) && !Lifecycle.Touches(e, k)
    ensures CountersAfter(s, e, k, taken) == s.orders[k].counters
  {
  }

  lemma {:induction false} Ignored(s: State, e: Event)
    requires ListsKnown(s) && !Addressed(s, e)
    ensures Step(s, e) == s
  {
  }

  // ---------- modifies in flight ----------

  /** At most five modifies are counted in flight, and at least one while the order is modifying. */
  predicate InFlight(o: Order) {
    o.counters.mods <= 5 && (o.state == Modifying ==> o.counters.mods >= 1)
  }

  ghost predicate AllInFlight(s: State) {
    forall k :: 0 <= k < |s.orders| ==> InFlight(s.orders[k])
  }

  lemma {:induction false} CancelInFlight(s: State, ref: OrderRef, env: Env)
    requires Known(s, ref) && InFlight(s.orders[ref])
    ensures InFlight(SendCxl(s, ref, env).0.orders[ref])
  {
    hide SendCxl, CxlVerdict;
    CancelCounters(s, ref, env);
    Lifecycle.CxlMoves(s, ref, env);
  }

  lemma {:induction false} KeptInFlight(s: State, ref: OrderRef, env: Env)
    requires Known(s, ref) && InFlight(s.orders[ref])
    ensures InFlight(CancelOnAck(s, ref, env).orders[ref])
  {
    hide SendCxl;
    if s.orders[ref].cancelOnAck {
      CancelInFlight(SetOrder(s, ref, s.orders[ref].(cancelOnAck := false)), ref, env);
    }
  }

  lemma {:induction false} NewAckInFlight(s: State, ref: OrderRef, env: Env)
    requires Known(s, ref) && InFlight(s.orders[ref])
    ensures InFlight(OnNewAck(s, ref, env).orders[ref])
  {
    hide CancelOnAck;
    var o := s.orders[ref];
    KeptInFlight(if o.state == Pending then SetOrder(s, ref, o.(state := Working)) else s, ref, env);
  }

  lemma {:induction false} AnswerInFlight(s: State, ref: OrderRef, p: Ticks, env: Env)
    requires Known(s, ref) && InFlight(s.orders[ref])
    ensures InFlight(OnModAck(s, ref, p, env).orders[ref])
    ensures InFlight(OnModRej(s, ref, env).orders[ref])
  {
    hide CancelOnAck;
    var o := s.orders[ref];
    KeptInFlight(OnModPost(SetOrder(s, ref, o.(newPrice := p, counters := o.counters.(modRejs := 0))), ref, true), ref, env);
    KeptInFlight(OnModPost(OrdersOnModRej(s, ref), ref, false), ref, env);
  }

  lemma {:induction false} ModInFlight(s: State, ref: OrderRef, p: Ticks, env: Env)
    requires Known(s, ref) && ListsKnown(s) && InFlight(s.orders[ref])
    ensures InFlight(SendMod(s, ref, p, env).0.orders[ref])
  {
    hide SendMod, CountMsg;
    var m := Requested(s, ref, p);
    OrdersModVerdict(m, ref);
    if OrdersSendMod(m, ref).1.Some? {
      RefusedByOrders(s, ref, p, env);
      OrdersRefuseMod(m, ref);
    } else if SendMod(s, ref, p, env).1.Some? {
      RefusedLater(s, ref, p, env);
    } else {
      ModTaken(s, ref, p, env);
    }
  }

  lemma {:induction false} ModTaken(s: State, ref: OrderRef, p: Ticks, env: Env)
    requires Known(s, ref) && ListsKnown(s) && SendMod(s, ref, p, env).1.None?
    ensures OrdersSendMod(Requested(s, ref, p), ref).1.None?
    ensures SendMod(s, ref, p, env).0.orders == OrdersSendMod(Requested(s, ref, p), ref).0.orders
  {
    hide SendModFromThrottle, OrdersSendMod, CountMsg;
  }

  lemma {:induction false} OthersInFlight(s: State, e: Event, k: OrderRef)
    requires ListsKnown(s) && Known(s, k) && InFlight(s.orders[k]) && Addressed(s, e)
    requires !e.Mod? && !e.Cxl? && !e.NewAck? && !e.ModAck? && !e.ModRej?
    ensures InFlight(Step(s, e).orders[k])
  {
    hide Step, CountersAfter;
    Lifecycle.StepLegal(s, e, k);
    OtherCounters(s, e, k);
    OtherSame(s, e, k);
  }

  lemma {:induction false} OtherSame(s: State, e: Event, k: OrderRef)
    requires Known(s, k) && !e.Mod? && !e.Cxl? && !e.NewAck? && !e.ModAck? && !e.ModRej?
    ensures CountersAfter(s, e, k, false).mods == s.orders[k].counters.mods
  {
  }

  /** Every event keeps it, unless an order is read back with other counters. */
  lemma {:induction false} InFlightStep(s: State, e: Event)
    requires ListsKnown(s) && AllInFlight(s) && (e.Rebuild? ==> InFlight(e.order))
    ensures AllInFlight(Step(s, e))
  {
    hide SendNew, SendMod, SendCxl, OnNewAck, OnModAck, OnModRej, InFlight, StepOther;
    var r := Step(s, e);
    forall k | 0 <= k < |r.orders| ensures InFlight(r.orders[k]) {
      if k >= |s.orders| {
        Added(s, e, k);
      } else if Addressed(s, e) {
        if !IsQuiet(e) || e.CxlRej? {
          OthersInFlight(s, e, k);
        } else {
          Requests(s, e, k);
        }
      }
    }
  }

  lemma {:induction false} Requests(s: State, e: Event, k: OrderRef)
    requires ListsKnown(s) && Known(s, k) && InFlight(s.orders[k]) && Addressed(s, e) && IsQuiet(e) && !e.CxlRej?
    ensures InFlight(Step(s, e).orders[k])
  {
    hide SendMod, SendCxl, OnNewAck, OnModAck, OnModRej, InFlight;
    QuietStep(s, e);
    if e.ref == k {
      match e {
        case Mod(_, p, env) => ModInFlight(s, k, p, env);
        case Cxl(_, env) => CancelInFlight(s, k, env);
        case NewAck(_, env) => NewAckInFlight(s, k, env);
        case ModAck(_, p, env) => AnswerInFlight(s, k, p, env);
        case ModRej(_, env) => AnswerInFlight(s, k, 0, env);
      }
    }
  }

  /** New orders have nothing in flight; rebuilt ones what they were stored with. */
  lemma {:induction false} Added(s: State, e: Event, k: OrderRef)
    requires ListsKnown(s) && |s.orders| <= k < |Step(s, e).orders| && (e.Rebuild? ==> InFlight(e.order))
    ensures InFlight(Step(s, e).orders[k])
  {
    hide SendNew, SendMod, PostTerms, Post;
  }

  /** Over every run from a fresh start, orders read back included: the 32-bit counter of modifies in flight never wraps. */
  lemma {:induction false} NeverWraps(s: State, es: seq<Event>)
    requires ListsKnown(s) && AllInFlight(s) && forall i :: 0 <= i < |es| && es[i].Rebuild? ==> InFlight(es[i].order)
    ensures AllInFlight(Run(s, es))
    decreases |es|
  {
    hide Step, AllInFlight, InFlight;
    if es != [] {
      InFlightStep(s, es[0]);
      NeverWraps(Step(s, es[0]), es[1..]);
    }
  }

  lemma {:induction false} NeverWrapsFromFresh(config: Config, es: seq<Event>)
    requires forall i :: 0 <= i < |es| && es[i].Rebuild? ==> InFlight(es[i].order)
    ensures AllInFlight(Run(Initial(config), es))
  {
    hide Run;
    NeverWraps(Initial(config), es);
  }
}
