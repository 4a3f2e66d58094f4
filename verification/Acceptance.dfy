/**
  The verdict of the whole chain on a new order, a modify and a cancel, told from the state before the request in terms of
  orders, positions, limits and quotes: taken, or refused for the first reason that holds.
 */
module Acceptance {
  import opened OrderTypes
  import opened Pipeline
  import opened Effects
  import opened Limits
  import opened WashTradeVerdict
  import Lifecycle

  /** A scan does not look at orders that are not listed. */
  lemma {:induction false} ScanElsewhere(orders: seq<Order>, refs: seq<OrderRef>, ref: OrderRef, o: Order, side: Side, price: Ticks)
    requires ref < |orders| && AllKnown(orders, refs) && ref !in refs
    ensures Scan(orders[ref := o], refs, side, price) == Scan(orders, refs, side, price)
  {
    hide Crossing, Dead;
    if refs != [] {
      ScanElsewhere(orders, refs[1..], ref, o, side, price);
      assert orders[ref := o][refs[0]] == orders[refs[0]];
    }
  }

  /** The wash-trade verdict does not depend on the asking order's state, nor on ledger, table or counters. */
  lemma {:induction false} CanSendElsewhere(s: State, r: State, ref: OrderRef, price: Ticks, q: Quote)
    requires Known(s, ref) && ListsKnown(s) && ListsKnown(r) && r.lists == s.lists && r.config == s.config
    requires Known(r, ref) && r.orders == s.orders[ref := r.orders[ref]] && r.orders[ref].terms == s.orders[ref].terms
    requires ref !in OppositeList(s, s.orders[ref].terms)
    ensures CanSend(r, ref, price, q).1 == CanSend(s, ref, price, q).1
  {
    hide Scan, QuoteOverride;
    var t := s.orders[ref].terms;
    ScanElsewhere(s.orders, OppositeList(s, t), ref, r.orders[ref], t.side, price);
  }

  // ---------- new orders ----------

  /** The position on the order's side if all that is open there, and the order, were filled. */
  function Reached(s: State, t: Terms): int {
    var p := At(s.ledger.accounts, (t.account, t.instrument));
    if t.side == Buy then p.pos + p.bids + t.qty else -p.pos + p.asks + t.qty
  }

  /** Why a new order is refused, in the order in which the reasons are looked for. */
  function NewVerdict(s: State, ref: OrderRef, env: Env): Option<Reason>
    requires Known(s, ref) && ListsKnown(s)
  {
    var o := s.orders[ref];
    if TableVerdict(s, o).Some? then TableVerdict(s, o)
    else if !env.throttleOk then Some(Throttled)
    else if !Passes(s, o.terms, o.price, env.quote) then Some(WashTrade)
    else if RiskVerdict(s, o.terms).Some? then RiskVerdict(s, o.terms)
    else if !env.pnlOk then Some(LossLimit)
    else ChannelVerdict(o.terms, env)
  }

  /** The smallest 32-bit integer is no price. */
  function TableVerdict(s: State, o: Order): Option<Reason> {
    if o.state != Unknown then Some(InvalidState)
    else if o.terms.qty <= 0 then Some(InvalidQty)
    else if o.terms.kind == Limit && o.price == -0x8000_0000 then Some(InvalidPrice)
    else if o.terms.id in s.table then Some(DuplicateId)
    else None
  }

  /** The order's own quantity counts towards the limit. */
  function RiskVerdict(s: State, t: Terms): Option<Reason> {
    if t.account != s.config.account then Some(AccountNotConfigured)
    else if !s.config.tradeEnabled then Some(AccountDisabled)
    else if t.instrument !in s.config.params then Some(SymbolNotConfigured)
    else
      var p := s.config.params[t.instrument];
      if !p.tradeEnabled then Some(SymbolDisabled)
      else if t.qty > p.clipSize then Some(ClipSize)
      else if t.side == NoSide then Some(InvalidSide)
      else if Reached(s, t) > p.maxPos then Some(MaxPos)
      else None
  }

  /** The exchange channel takes limit orders on a side while its session is up; a failed send is the only outside refusal. */
  function ChannelVerdict(t: Terms, env: Env): Option<Reason> {
    if t.kind != Limit || t.side == NoSide then Some(ChannelKind)
    else if !env.loggedOn then Some(ConnectionDown)
    else if !env.sendOk then Some(ChannelFailure)
    else None
  }

  /** A refusal for a reason: internal, unless the exchange channel failed to send. */
  function Refused(r: Option<Reason>): Option<Reject> {
    match r case None => None case Some(x) => Some(Reject(x != ChannelFailure, x))
  }

  /** The table, the risk stage and the channel, one by one, on the states they meet. */
  lemma {:induction false} TableVerdictExact(s: State, ref: OrderRef)
    requires Known(s, ref)
    ensures OrdersSendNew(s, ref).1 == Refused(TableVerdict(s, s.orders[ref]))
  {
    hide OrdersOnNewRej, PostTerms;
  }

  lemma {:induction false} RiskVerdictExact(s: State, r: State, ref: OrderRef)
    requires Known(s, ref) && s.orders[ref].state == Unknown && s.orders[ref].cumQty == 0 && Validate(s, s.orders[ref]).None?
    requires Known(r, ref) && r.config == s.config && r.orders[ref].terms == s.orders[ref].terms
    requires r.ledger == OrdersSendNew(s, ref).0.ledger
    ensures RiskSendNew(r, ref) == Refused(RiskVerdict(s, s.orders[ref].terms))
  {
    hide OrdersSendNew, Held, PostTerms, OpenDelta, Validate;
    var o := s.orders[ref];
    OrdersNewEffect(s, ref);
    if o.terms.account == s.config.account && o.terms.side != NoSide {
      ExposureIsHeld(s, o.terms.side, o.terms.instrument);
      ExposureIsHeld(r, o.terms.side, o.terms.instrument);
      HeldPost(s.ledger, o.terms, OpenDelta(o.terms.side, o.Rem()), Mine(s), o.terms.instrument);
      ExposurePlus(Held(s.ledger, Mine(s), o.terms.instrument), OpenDelta(o.terms.side, o.Rem()), o.terms.side);
      OwnPartOpen(s, o.terms, o.Rem(), o.terms.side, o.terms.instrument);
    }
  }

  lemma {:induction false} ChannelNewVerdict(s: State, ref: OrderRef, env: Env)
    requires Known(s, ref)
    ensures ChannelSendNew(s, ref, env) == Refused(ChannelVerdict(s.orders[ref].terms, env))
  {
  }

  /** The chain's answer to an untouched new order is the verdict on the state before the request. */
  lemma {:induction false} NewVerdictExact(s: State, ref: OrderRef, env: Env)
    requires Known(s, ref) && ListsKnown(s) && s.orders[ref].cumQty == 0
    requires ref !in OppositeList(s, s.orders[ref].terms)
    ensures SendNew(s, ref, env).1 == Refused(NewVerdict(s, ref, env))
  {
    hide SendNew, OrdersSendNew, CanSend, WtpSendNew, RiskSendNew, ChannelSendNew, CountMsg, Validate, OppositeList, Passes, TableVerdict, RiskVerdict, ChannelVerdict;
    var m := CountMsg(s, ref, MsgNew, 1);
    var o := s.orders[ref];
    TableVerdictExact(m, ref);
    OrdersNewEffect(m, ref);
    SameVerdicts(s, m, o);
    Stages(s, ref, env);
    var a := OrdersSendNew(m, ref);
    if a.1.None? {
      CanSendElsewhere(s, a.0, ref, o.price, env.quote);
      VerdictExact(s, ref, o.price, env.quote);
      var w := WtpSendNew(a.0, ref, env.quote).0;
      RiskVerdictExact(m, w, ref);
      ChannelNewVerdict(w, ref, env);
    }
  }

  /** The first stage to refuse gives the answer. */
  lemma {:induction false} Stages(s: State, ref: OrderRef, env: Env)
    requires Known(s, ref) && ListsKnown(s)
    ensures var a := OrdersSendNew(CountMsg(s, ref, MsgNew, 1), ref);
            var w := WtpSendNew(a.0, ref, env.quote);
            && w.1 == CanSend(a.0, ref, a.0.orders[ref].price, env.quote).1
            && w.0 == a.0.(lists := w.0.lists)
            && SendNew(s, ref, env).1
               == if a.1.Some? then a.1 else if !env.throttleOk then Some(Reject(true, Throttled))
                  else if w.1.Some? then w.1 else if RiskSendNew(w.0, ref).Some? then RiskSendNew(w.0, ref)
                  else if !env.pnlOk then Some(Reject(true, LossLimit)) else ChannelSendNew(w.0, ref, env)
  {
    hide OrdersSendNew, OrdersOnNewRej, CanSend, RiskSendNew, ChannelSendNew, CountMsg, UncountMsg;
  }

  lemma {:induction false} SameVerdicts(s: State, m: State, o: Order)
    requires m.ledger == s.ledger && m.config == s.config && m.table == s.table
    ensures TableVerdict(m, o) == TableVerdict(s, o) && RiskVerdict(m, o.terms) == RiskVerdict(s, o.terms)
  {
  }

  /** So an untouched order is taken if and only if no reason holds. */
  predicate Acceptable(s: State, ref: OrderRef, env: Env)
    requires Known(s, ref) && ListsKnown(s)
  {
    NewVerdict(s, ref, env).None?
  }

  lemma {:induction false} AcceptedIff(s: State, ref: OrderRef, env: Env)
    requires Known(s, ref) && ListsKnown(s) && s.orders[ref].cumQty == 0
    requires ref !in OppositeList(s, s.orders[ref].terms)
    ensures SendNew(s, ref, env).1.None? <==> Acceptable(s, ref, env)
  {
    hide SendNew, NewVerdict, OppositeList;
    NewVerdictExact(s, ref, env);
  }

  // ---------- modifies and cancels ----------

  /** Why a modify to a price is refused, in the order in which the reasons are looked for. */
  function ModVerdict(s: State, ref: OrderRef, p: Ticks, env: Env): Option<Reason>
    requires Known(s, ref) && ListsKnown(s)
  {
    var o := s.orders[ref];
    if p == -0x8000_0000 then Some(InvalidPrice)
    else if p == o.price then Some(SamePrice)
    else if o.counters.modRejs > 5 then Some(MaxModRejects)
    else if o.state != Working && o.state != Modifying then Some(InvalidState)
    else if o.counters.mods >= 5 then Some(MaxMods)
    else if !env.throttleOk then Some(Throttled)
    else if !Passes(s, o.terms, p, env.quote) then Some(WashTrade)
    else if !env.loggedOn then Some(ConnectionDown)
    else if o.terms.kind != Limit || o.terms.side == NoSide then Some(ChannelKind)
    else if !env.sendOk then Some(ChannelFailure)
    else None
  }

  lemma {:induction false} OrdersModVerdict(s: State, ref: OrderRef)
    requires Known(s, ref)
    ensures var o := s.orders[ref];
            OrdersSendMod(s, ref).1
            == if !ValidTicks(o.newPrice) then Some(Reject(true, InvalidPrice))
               else if o.newPrice == o.price then Some(Reject(true, SamePrice))
               else if o.counters.modRejs > 5 then Some(Reject(true, MaxModRejects))
               else if o.state != Working && o.state != Modifying then Some(Reject(true, InvalidState))
               else if o.counters.mods >= 5 then Some(Reject(true, MaxMods)) else None
    ensures var r := OrdersSendMod(s, ref).0;
            && r.lists == s.lists && r.orders == s.orders[ref := r.orders[ref]]
            && r.orders[ref].terms == s.orders[ref].terms && r.orders[ref].newPrice == s.orders[ref].newPrice
            && r.orders[ref].cancelOnAck == s.orders[ref].cancelOnAck
  {
  }

  /** The chain's answer to a modify is the verdict on the state before the request. */
  lemma {:induction false} ModVerdictExact(s: State, ref: OrderRef, p: Ticks, env: Env)
    requires Known(s, ref) && ListsKnown(s) && ref !in OppositeList(s, s.orders[ref].terms)
    ensures SendMod(s, ref, p, env).1 == Refused(ModVerdict(s, ref, p, env))
  {
    hide OrdersSendMod, OrdersOnModRej, OnModRejPost, CanSend, CountMsg, UncountMsg, OppositeList, Passes;
    var m := CountMsg(SetOrder(s, ref, s.orders[ref].(newPrice := p)), ref, MsgMod, 1);
    OrdersModVerdict(m, ref);
    var a := OrdersSendMod(m, ref);
    if a.1.None? {
      assert a.0.orders == s.orders[ref := a.0.orders[ref]];
      CanSendElsewhere(s, a.0, ref, p, env.quote);
      VerdictExact(s, ref, p, env.quote);
    }
  }

  /** Why a cancel is refused; a cancel that is kept with the order is taken without being sent. */
  function CxlVerdict(o: Order, env: Env): Option<Reason> {
    if o.state == Cancelling then None
    else if o.counters.cxlRejs > 5 then Some(MaxCxlRejects)
    else if !env.throttleOk then Some(Throttled)
    else if !env.loggedOn then Some(ConnectionDown)
    else if o.cancelOnAck || (o.state != Working && o.state != Modifying) then None
    else if o.terms.side == NoSide then Some(ChannelKind)
    else if !env.sendOk then Some(ChannelFailure)
    else None
  }

  lemma {:induction false} CxlVerdictExact(s: State, ref: OrderRef, env: Env)
    requires Known(s, ref)
    ensures SendCxl(s, ref, env).1 == Refused(CxlVerdict(s.orders[ref], env))
  {
    hide CountMsg, UncountMsg;
  }

  /** The lists after an accepted order: scanned against the other side, and appended to its own. */
  lemma {:induction false} AcceptedLists(s: State, ref: OrderRef, env: Env)
    requires Known(s, ref) && ListsKnown(s) && SendNew(s, ref, env).1.None? && OppositeList(s, s.orders[ref].terms) == []
    ensures var r, t := SendNew(s, ref, env).0, s.orders[ref].terms;
            && r.lists.Keys == s.lists.Keys + {t.instrument}
            && (forall i :: i in s.lists && i != t.instrument ==> r.lists[i] == s.lists[i])
            && ListsAt(r, t.instrument)
               == (if t.side == Buy then ListsAt(s, t.instrument).(buys := ListsAt(s, t.instrument).buys + [ref])
                   else ListsAt(s, t.instrument).(sells := ListsAt(s, t.instrument).sells + [ref]))
  {
    hide OrdersSendNew, OrdersOnNewRej, RiskSendNew, ChannelSendNew, CountMsg, UncountMsg, QuoteOverride, Crossing;
    var m := CountMsg(s, ref, MsgNew, 1);
    OrdersNewEffect(m, ref);
    var a := OrdersSendNew(m, ref).0;
    assert Scan(a.orders, [], s.orders[ref].terms.side, s.orders[ref].price) == ([], None);
  }

  // ---------- every reachable state ----------

  /** Buys list buys, and sells list no buys; so no order is ever checked against itself. */
  ghost predicate Sided(s: State)
    requires ListsKnown(s)
  {
    forall i :: i in s.lists ==>
      && (forall x :: x in s.lists[i].buys ==> x < |s.orders| && s.orders[x].terms.side == Buy)
      && (forall x :: x in s.lists[i].sells ==> x < |s.orders| && s.orders[x].terms.side != Buy)
  }

  lemma {:induction false} NotOpposed(s: State, ref: OrderRef)
    requires Known(s, ref) && ListsKnown(s) && Sided(s)
    ensures ref !in OppositeList(s, s.orders[ref].terms)
  {
  }

  /** A list of an instrument only keeps what it had, but for the new order on its own side. */
  ghost predicate KeepsAt(s: State, r: State, ref: OrderRef, i: InstrumentId)
    requires Known(s, ref)
  {
    && (forall x :: x in ListsAt(r, i).buys ==> x in ListsAt(s, i).buys || (x == ref && s.orders[ref].terms.side == Buy))
    && (forall x :: x in ListsAt(r, i).sells ==> x in ListsAt(s, i).sells || (x == ref && s.orders[ref].terms.side != Buy))
  }

  lemma {:induction false} CheckKeeps(s: State, ref: OrderRef, price: Ticks, q: Quote, i: InstrumentId)
    requires Known(s, ref) && ListsKnown(s)
    ensures KeepsAt(s, CanSend(s, ref, price, q).0, ref, i)
  {
    hide Scan, QuoteOverride;
  }

  lemma {:induction false} SendKeeps(s: State, ref: OrderRef, q: Quote, i: InstrumentId)
    requires Known(s, ref) && ListsKnown(s)
    ensures KeepsAt(s, WtpSendNew(s, ref, q).0, ref, i)
  {
    hide CanSend;
    CheckKeeps(s, ref, s.orders[ref].price, q, i);
  }

  lemma {:induction false} NewKeeps(s: State, ref: OrderRef, env: Env, i: InstrumentId)
    requires Known(s, ref) && ListsKnown(s)
    ensures KeepsAt(s, SendNew(s, ref, env).0, ref, i)
  {
    hide OrdersSendNew, OrdersOnNewRej, WtpSendNew, RiskSendNew, ChannelSendNew, CountMsg, UncountMsg, ListsAt;
    var m := CountMsg(s, ref, MsgNew, 1);
    OrdersNewEffect(m, ref);
    SameLists(s, m, i);
    SameLists(s, OrdersSendNew(m, ref).0, i);
    SendKeeps(OrdersSendNew(m, ref).0, ref, env.quote, i);
    SameLists(SendNew(s, ref, env).0, WtpSendNew(OrdersSendNew(m, ref).0, ref, env.quote).0, i);
    SameLists(SendNew(s, ref, env).0, s, i);
  }

  lemma {:induction false} SameLists(s: State, r: State, i: InstrumentId)
    ensures r.lists == s.lists ==> ListsAt(r, i) == ListsAt(s, i)
  {
  }

  lemma {:induction false} ModKeeps(s: State, ref: OrderRef, p: Ticks, env: Env, i: InstrumentId)
    requires Known(s, ref) && ListsKnown(s)
    ensures KeepsAt(s, SendMod(s, ref, p, env).0, ref, i)
  {
    hide OrdersSendMod, OrdersOnModRej, OnModRejPost, CanSend, CountMsg, UncountMsg, ByOrders, ListsAt;
    var m := CountMsg(SetOrder(s, ref, s.orders[ref].(newPrice := p)), ref, MsgMod, 1);
    OrdersModVerdict(m, ref);
    var a := OrdersSendMod(m, ref).0;
    SameLists(s, a, i);
    CheckKeeps(a, ref, a.orders[ref].newPrice, env.quote, i);
    SameLists(SendMod(s, ref, p, env).0, CanSend(a, ref, a.orders[ref].newPrice, env.quote).0, i);
    SameLists(SendMod(s, ref, p, env).0, s, i);
  }

  lemma {:induction false} SidedStep(s: State, e: Event)
    requires ListsKnown(s) && Sided(s)
    ensures Sided(Step(s, e))
  {
    hide SendNew, SendMod, StepOther;
    var r := Step(s, e);
    forall k | 0 <= k < |s.orders| ensures r.orders[k].terms == s.orders[k].terms {
      Lifecycle.StepLegal(s, e, k);
    }
    if Addressed(s, e) && (e.New? || e.Mod?) {
      forall i | i in r.lists
        ensures forall x :: x in r.lists[i].buys ==> x < |r.orders| && r.orders[x].terms.side == Buy
        ensures forall x :: x in r.lists[i].sells ==> x < |r.orders| && r.orders[x].terms.side != Buy
      {
        if e.New? { NewKeeps(s, e.ref, e.env, i); } else { ModKeeps(s, e.ref, e.newPrice, e.env, i); }
        assert KeepsAt(s, r, e.ref, i) && ListsAt(r, i) == r.lists[i];
      }
    }
  }

  lemma {:induction false} SidedRun(s: State, es: seq<Event>)
    requires ListsKnown(s) && Sided(s)
    ensures Sided(Run(s, es))
    decreases |es|
  {
    hide Step, Sided;
    if es != [] {
      SidedStep(s, es[0]);
      SidedRun(Step(s, es[0]), es[1..]);
    }
  }

  /** After every run from a fresh start, the answers to a new order not filled from outside, a modify and a cancel are the verdicts. */
  lemma {:induction false} VerdictsFromFresh(config: Config, es: seq<Event>, ref: OrderRef, p: Ticks, env: Env)
    requires Known(Run(Initial(config), es), ref)
    ensures var s := Run(Initial(config), es);
            && (s.orders[ref].cumQty == 0 ==> SendNew(s, ref, env).1 == Refused(NewVerdict(s, ref, env)))
            && SendMod(s, ref, p, env).1 == Refused(ModVerdict(s, ref, p, env))
            && SendCxl(s, ref, env).1 == Refused(CxlVerdict(s.orders[ref], env))
  {
    hide Run, SendNew, SendMod, SendCxl, NewVerdict, ModVerdict, CxlVerdict, OppositeList;
    var s := Run(Initial(config), es);
    SidedRun(Initial(config), es);
    NotOpposed(s, ref);
    if s.orders[ref].cumQty == 0 { NewVerdictExact(s, ref, env); }
    ModVerdictExact(s, ref, p, env);
    CxlVerdictExact(s, ref, env);
  }
}
