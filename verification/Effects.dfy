/**
  What each event does to the books, in one table: the net posting to the ledger and
  the change of the addressed order. The counts, limit and view theorems all start here.
 */
module Effects {
  import opened OrderTypes
  import opened Pipeline

  /** A net change of one account's and one strategy's position in an instrument. */
  datatype Posting = NoPosting | Posting(account: AccountId, strategy: StrategyId, instrument: InstrumentId, delta: OpenPos)

  /** Whose position: an account's or a strategy's. */
  datatype Owner = ByAccount(id: int) | ByStrategy(id: int)

  predicate Owns(w: Owner, account: AccountId, strategy: StrategyId) {
    match w case ByAccount(a) => a == account case ByStrategy(t) => t == strategy
  }

  function Held(l: Ledger, w: Owner, i: InstrumentId): OpenPos {
    match w
    case ByAccount(a) => At(l.accounts, (a, i))
    case ByStrategy(t) => At(l.strategies, (t, i))
  }

  /** The part of a posting that concerns one owner in one instrument. */
  function Part(p: Posting, w: Owner, i: InstrumentId): OpenPos {
    if p.Posting? && Owns(w, p.account, p.strategy) && p.instrument == i then p.delta else FLAT
  }

  lemma {:induction false} HeldAfter(l: Ledger, a: AccountId, t: StrategyId, j: InstrumentId, d: OpenPos, w: Owner, i: InstrumentId)
    ensures Held(Post(l, a, t, j, d), w, i) == Plus(Held(l, w, i), Part(Posting(a, t, j, d), w, i))
  {
    match w case ByAccount(_) => case ByStrategy(_) =>
  }

  lemma {:induction false} HeldPost(l: Ledger, t: Terms, d: OpenPos, w: Owner, i: InstrumentId)
    ensures Held(PostTerms(l, t, d), w, i) == Plus(Held(l, w, i), Part(ForTerms(t, d), w, i))
  {
    HeldAfter(l, t.account, t.strategy, t.instrument, d, w, i);
  }

  function ForTerms(t: Terms, d: OpenPos): Posting {
    Posting(t.account, t.strategy, t.instrument, d)
  }

  /** The order leaves the open counts. */
  function Removal(o: Order): Posting {
    ForTerms(o.terms, OpenDelta(o.terms.side, -o.Rem()))
  }

  /** A fill takes at most the open remainder out of the count, and moves the position by its own size. */
  function FillPosting(o: Order, q: int): Posting {
    if o.state == Filled then NoPosting
    else ForTerms(o.terms, Plus(OpenDelta(o.terms.side, if o.Rem() <= q then -o.Rem() else -q), TradeDelta(o.terms.side, q)))
  }

  function NewPosting(o: Order, valid: bool, accepted: bool): Posting {
    if o.state != Unknown then NoPosting
    else if !valid then Removal(o)
    else ForTerms(o.terms, if accepted then OpenDelta(o.terms.side, o.Rem()) else FLAT)
  }

  function BustPosting(o: Order, q: int): Posting {
    ForTerms(o.terms, Plus(OpenDelta(o.terms.side, q), TradeDelta(o.terms.side, -q)))
  }

  function RebuildPosting(s: State, o: Order): Posting {
    if o.terms.id in s.table || o.terms.instrument !in s.config.instruments then NoPosting
    else ForTerms(o.terms, if Live(o.state) then OpenDelta(o.terms.side, o.Rem()) else FLAT)
  }

  /** Did the chain take the new order? (Meaningful for new-order requests only.) */
  predicate Accepted(s: State, e: Event)
    requires ListsKnown(s)
  {
    e.New? && Known(s, e.ref) && SendNew(s, e.ref, e.env).1.None?
  }

  /** The posting of every event. */
  function PostingOf(s: State, e: Event, accepted: bool): Posting {
    if !Addressed(s, e) then NoPosting else
    match e
    case New(ref, _) => NewPosting(s.orders[ref], Validate(s, s.orders[ref]).None?, accepted)
    case NewRej(ref) =>
      if s.orders[ref].state == Pending || s.orders[ref].state == Unknown then Removal(s.orders[ref]) else NoPosting
    case CxlAck(ref) => Removal(s.orders[ref])
    case Fill(ref, q) => FillPosting(s.orders[ref], q)
    case Bust(ref, q) => BustPosting(s.orders[ref], q)
    case ExternalFill(a, st, i, side, q) => Posting(a, st, i, TradeDelta(side, q))
    case Rebuild(o) => RebuildPosting(s, o)
    case RebuildPos(a, st, i, n) =>
      if i in s.config.instruments then Posting(a, st, i, OpenPos(0, 0, n)) else NoPosting
    case _ => NoPosting
  }

  /** Only one order changes; its terms, its filled quantity, whether it is live or unsent, the ledger and the table do not. */
  predicate Quiet(s: State, r: State, ref: OrderRef)
    requires Known(s, ref)
  {
    && r.ledger == s.ledger && r.table == s.table && |r.orders| == |s.orders|
    && r.orders == s.orders[ref := r.orders[ref]]
    && var o, o' := s.orders[ref], r.orders[ref];
       o'.terms == o.terms && o'.cumQty == o.cumQty
       && Live(o'.state) == Live(o.state) && o'.state.Unknown? == o.state.Unknown?
  }

  lemma {:induction false} QuietTrans(s: State, m: State, r: State, ref: OrderRef)
    requires Known(s, ref) && Quiet(s, m, ref) && Quiet(m, r, ref)
    ensures Quiet(s, r, ref)
  {
  }

  lemma {:induction false} QuietModFromOrders(s: State, ref: OrderRef, env: Env)
    requires Known(s, ref) && ListsKnown(s)
    ensures Quiet(s, SendModFromOrders(s, ref, env).0, ref)
  {
    hide SendModFromThrottle;
    assert Quiet(s, OrdersSendMod(s, ref).0, ref);
  }

  lemma {:induction false} QuietModRefused(s: State, ref: OrderRef, rej: Reject)
    requires Known(s, ref)
    ensures Quiet(s, OnModRejPost(if ByOrders(rej) then OrdersOnModRej(s, ref) else s, ref, rej), ref)
  {
    hide ByOrders, Dec32;
  }

  lemma {:induction false} QuietSendMod(s: State, ref: OrderRef, p: Ticks, env: Env)
    requires Known(s, ref) && ListsKnown(s)
    ensures Quiet(s, SendMod(s, ref, p, env).0, ref)
  {
    hide SendModFromOrders, CountMsg, UncountMsg, ByOrders, OnModRejPost, OrdersOnModRej, Quiet;
    var m := CountMsg(SetOrder(s, ref, s.orders[ref].(newPrice := p)), ref, MsgMod, 1);
    QuietModFromOrders(m, ref, env);
    var r := SendModFromOrders(m, ref, env);
    QuietTrans(s, m, r.0, ref);
    if r.1.Some? {
      var u := UncountMsg(r.0, ref, MsgMod, r.1.value);
      QuietModRefused(u, ref, r.1.value);
      QuietTrans(s, u, OnModRejPost(if ByOrders(r.1.value) then OrdersOnModRej(u, ref) else u, ref, r.1.value), ref);
    }
  }

  lemma {:induction false} QuietSendCxl(s: State, ref: OrderRef, env: Env)
    requires Known(s, ref)
    ensures Quiet(s, SendCxl(s, ref, env).0, ref)
  {
    hide ChannelSendRequest, CountMsg, UncountMsg;
    var m := CountMsg(s, ref, MsgCxl, 1);
    var a := OrdersSendCxl(m, ref);
    assert Quiet(s, a.0, ref);
    var r := SendCxlFromOrders(m, ref, env);
    assert Quiet(s, r.0, ref);
  }

  lemma {:induction false} QuietCancelOnAck(s: State, ref: OrderRef, env: Env)
    requires Known(s, ref)
    ensures Quiet(s, CancelOnAck(s, ref, env), ref)
  {
    if s.orders[ref].cancelOnAck {
      var t := SetOrder(s, ref, s.orders[ref].(cancelOnAck := false));
      QuietSendCxl(t, ref, env);
      QuietTrans(s, t, SendCxl(t, ref, env).0, ref);
    }
  }

  lemma {:induction false} QuietNewAck(s: State, ref: OrderRef, env: Env)
    requires Known(s, ref)
    ensures Quiet(s, OnNewAck(s, ref, env), ref)
  {
    var o := s.orders[ref];
    var a := if o.state == Pending then SetOrder(s, ref, o.(state := Working)) else s;
    QuietCancelOnAck(a, ref, env);
    QuietTrans(s, a, CancelOnAck(a, ref, env), ref);
  }

  lemma {:induction false} QuietModAck(s: State, ref: OrderRef, p: Ticks, env: Env)
    requires Known(s, ref)
    ensures Quiet(s, OnModAck(s, ref, p, env), ref)
  {
    var o := s.orders[ref];
    var b := OnModPost(SetOrder(s, ref, o.(newPrice := p, counters := o.counters.(modRejs := 0))), ref, true);
    QuietCancelOnAck(b, ref, env);
    QuietTrans(s, b, CancelOnAck(b, ref, env), ref);
  }

  lemma {:induction false} QuietModRej(s: State, ref: OrderRef, env: Env)
    requires Known(s, ref)
    ensures Quiet(s, OnModRej(s, ref, env), ref)
  {
    var d := OnModPost(OrdersOnModRej(s, ref), ref, false);
    QuietCancelOnAck(d, ref, env);
    QuietTrans(s, d, CancelOnAck(d, ref, env), ref);
  }

  predicate IsQuiet(e: Event) {
    e.Mod? || e.Cxl? || e.NewAck? || e.ModAck? || e.ModRej? || e.CxlRej?
  }

  lemma {:induction false} QuietStep(s: State, e: Event)
    requires ListsKnown(s) && Addressed(s, e) && IsQuiet(e)
    ensures Quiet(s, Step(s, e), e.ref)
  {
    hide SendMod, SendCxl, OnNewAck, OnModAck, OnModRej;
    match e
    case Mod(ref, p, env) => QuietSendMod(s, ref, p, env);
    case Cxl(ref, env) => QuietSendCxl(s, ref, env);
    case NewAck(ref, env) => QuietNewAck(s, ref, env);
    case ModAck(ref, p, env) => QuietModAck(s, ref, p, env);
    case ModRej(ref, env) => QuietModRej(s, ref, env);
    case CxlRej(ref) =>
  }

  lemma {:induction false} QuietLedger(s: State, e: Event)
    requires ListsKnown(s) && Addressed(s, e) && IsQuiet(e)
    ensures Step(s, e).ledger == s.ledger
  {
    hide Step;
    QuietStep(s, e);
  }

  /** The order-table stage alone: a valid fresh order is added, an invalid one removed, another state refused. */
  lemma {:induction false} OrdersNewEffect(s: State, ref: OrderRef)
    requires Known(s, ref)
    ensures var r := OrdersSendNew(s, ref);
            var o := s.orders[ref];
            if o.state != Unknown then r.1.Some? && r.0 == s
            else if Validate(s, o).Some? then
              && r.1 == Validate(s, o)
              && r.0.orders == s.orders[ref := o.(state := Rejected)]
              && r.0.ledger == PostTerms(s.ledger, o.terms, OpenDelta(o.terms.side, -o.Rem()))
            else
              && r.1.None?
              && r.0.orders == s.orders[ref := o.(state := Pending)]
              && r.0.ledger == PostTerms(s.ledger, o.terms, OpenDelta(o.terms.side, o.Rem()))
              && r.0.table == s.table[o.terms.id := ref]
  {
    var o := s.orders[ref];
    assert s.orders[ref := o.(state := Pending)][ref := o.(state := Rejected)] == s.orders[ref := o.(state := Rejected)];
  }

  lemma {:induction false} NewRejIgnored(s: State, ref: OrderRef)
    requires Known(s, ref) && s.orders[ref].state != Pending && s.orders[ref].state != Unknown
    ensures OrdersOnNewRej(s, ref) == s
  {
  }

  /** Undoing the order-table stage on the pending order it has just added. */
  lemma {:induction false} OrdersUndoEffect(s: State, ref: OrderRef)
    requires Known(s, ref) && (s.orders[ref].state == Pending || s.orders[ref].state == Unknown)
    ensures var r := OrdersOnNewRej(s, ref);
            var o := s.orders[ref];
            && r.orders == s.orders[ref := o.(state := Rejected)]
            && r.ledger == PostTerms(s.ledger, o.terms, OpenDelta(o.terms.side, -o.Rem()))
            && r.table == s.table - {o.terms.id}
  {
  }

  /** The order a new-order request leaves behind, and what the request posts. */
  lemma {:induction false} NewOrders(s: State, ref: OrderRef, env: Env)
    requires Known(s, ref) && ListsKnown(s)
    ensures var r := SendNew(s, ref, env);
            var o := s.orders[ref];
            && (o.state != Unknown ==> r.0.orders == s.orders)
            && (o.state == Unknown ==>
                  r.0.orders == s.orders[ref := o.(state := if r.1.None? then Pending else Rejected)])
  {
    var m := CountMsg(s, ref, MsgNew, 1);
    OrdersNewEffect(m, ref);
    var a := OrdersSendNew(m, ref);
    if a.1.None? {
      OrdersUndoEffect(SendNewFromThrottle(a.0, ref, env).0, ref);
    }
  }

  lemma {:induction false} NewLedger(s: State, ref: OrderRef, env: Env, w: Owner, i: InstrumentId)
    requires Known(s, ref) && ListsKnown(s)
    ensures var r := SendNew(s, ref, env);
            var o := s.orders[ref];
            Held(r.0.ledger, w, i) == Plus(Held(s.ledger, w, i), Part(NewPosting(o, Validate(s, o).None?, r.1.None?), w, i))
  {
    hide Held, PostTerms, Post, OrdersSendNew, OrdersOnNewRej, SendNewFromThrottle, CountMsg;
    var o := s.orders[ref];
    var m := CountMsg(s, ref, MsgNew, 1);
    OrdersNewEffect(m, ref);
    var a := OrdersSendNew(m, ref);
    HeldPost(s.ledger, o.terms, OpenDelta(o.terms.side, -o.Rem()), w, i);
    HeldPost(s.ledger, o.terms, OpenDelta(o.terms.side, o.Rem()), w, i);
    if a.1.None? {
      var b := SendNewFromThrottle(a.0, ref, env);
      if b.1.Some? {
        OrdersUndoEffect(b.0, ref);
        HeldPost(a.0.ledger, o.terms, OpenDelta(o.terms.side, -o.Rem()), w, i);
      }
    }
  }

  /** Whatever the size of the last fill, exactly the open remainder leaves the count. */
  lemma {:induction false} FillOrders(s: State, ref: OrderRef, q: int)
    requires Known(s, ref)
    ensures var o := s.orders[ref];
            OnFill(s, ref, q).orders
            == if o.state == Filled then s.orders
               else s.orders[ref := o.(cumQty := o.cumQty + q, state := if o.Rem() <= q then Filled else o.state)]
  {
    hide PostTerms, OpenDelta, TradeDelta, Plus;
  }

  lemma {:induction false} BustOrders(s: State, ref: OrderRef, q: int)
    requires Known(s, ref)
    ensures var o := s.orders[ref];
            OnBust(s, ref, q).orders
            == s.orders[ref := o.(cumQty := o.cumQty - q, state := if o.state == Filled then Working else o.state)]
  {
    hide PostTerms, OpenDelta, TradeDelta, Plus;
  }

  lemma {:induction false} FillPlus(side: Side, rem: int, q: int)
    ensures Plus(OpenDelta(side, -(rem - q)), Plus(OpenDelta(side, -q), TradeDelta(side, q)))
         == Plus(OpenDelta(side, -rem), TradeDelta(side, q))
  {
    if side == Buy {} else if side == Sell {} else {}
  }

  lemma {:induction false} FillLedger(s: State, ref: OrderRef, q: int, w: Owner, i: InstrumentId)
    requires Known(s, ref)
    ensures Held(OnFill(s, ref, q).ledger, w, i) == Plus(Held(s.ledger, w, i), Part(FillPosting(s.orders[ref], q), w, i))
  {
    hide Held, PostTerms, Post, OpenDelta, TradeDelta;
    var o := s.orders[ref];
    if o.state != Filled {
      var f := o.(cumQty := o.cumQty + q, state := Filled);
      var d := Plus(OpenDelta(o.terms.side, -q), TradeDelta(o.terms.side, q));
      if o.Rem() <= q {
        var t := Remove(SetOrder(s, ref, f), ref);
        assert -f.Rem() == -(o.Rem() - q);
        HeldPost(s.ledger, o.terms, OpenDelta(o.terms.side, -f.Rem()), w, i);
        HeldPost(t.ledger, o.terms, d, w, i);
        FillPlus(o.terms.side, o.Rem(), q);
      } else {
        HeldPost(s.ledger, o.terms, d, w, i);
      }
    }
  }

  lemma {:induction false} RemovalLedger(s: State, ref: OrderRef, w: Owner, i: InstrumentId)
    requires Known(s, ref)
    ensures Held(OnCxlAck(s, ref).ledger, w, i) == Plus(Held(s.ledger, w, i), Part(Removal(s.orders[ref]), w, i))
    ensures s.orders[ref].state == Pending || s.orders[ref].state == Unknown ==>
              Held(OrdersOnNewRej(s, ref).ledger, w, i) == Plus(Held(s.ledger, w, i), Part(Removal(s.orders[ref]), w, i))
  {
    hide Held, PostTerms;
    var o := s.orders[ref];
    HeldPost(s.ledger, o.terms, OpenDelta(o.terms.side, -o.Rem()), w, i);
  }

  lemma {:induction false} BustLedger(s: State, ref: OrderRef, q: int, w: Owner, i: InstrumentId)
    requires Known(s, ref)
    ensures Held(OnBust(s, ref, q).ledger, w, i) == Plus(Held(s.ledger, w, i), Part(BustPosting(s.orders[ref], q), w, i))
  {
    hide Held, PostTerms;
    var t := s.orders[ref].terms;
    HeldPost(s.ledger, t, Plus(OpenDelta(t.side, q), TradeDelta(t.side, -q)), w, i);
  }

  lemma {:induction false} RebuildLedger(s: State, o: Order, w: Owner, i: InstrumentId)
    ensures Held(RebuildOrder(s, o).ledger, w, i) == Plus(Held(s.ledger, w, i), Part(RebuildPosting(s, o), w, i))
  {
    hide Held, PostTerms;
    var d := OpenDelta(o.terms.side, o.Rem());
    HeldPost(s.ledger, o.terms, d, w, i);
    HeldPost(PostTerms(s.ledger, o.terms, d), o.terms, OpenDelta(o.terms.side, -o.Rem()), w, i);
  }

  /** Every event posts exactly what the table says. */
  lemma {:induction false} StepLedger(s: State, e: Event, w: Owner, i: InstrumentId)
    requires ListsKnown(s)
    ensures Held(Step(s, e).ledger, w, i) == Plus(Held(s.ledger, w, i), Part(PostingOf(s, e, Accepted(s, e)), w, i))
  {
    hide SendNew, SendMod, SendCxl, OnNewAck, OnModAck, OnModRej, OrdersOnCxlRej, OrdersOnNewRej, OnCxlAck,
         OnFill, OnBust, RebuildOrder, NewPosting, FillPosting, BustPosting, RebuildPosting, Removal,
         OpenDelta, TradeDelta, Validate, Fresh, Held, Post, Quiet;
    if Addressed(s, e) {
      if IsQuiet(e) {
        QuietLedger(s, e);
      } else {
        match e
        case Create(_, _) =>
        case New(ref, env) => NewLedger(s, ref, env, w, i);
        case NewRej(ref) => RemovalLedger(s, ref, w, i);
          if !(s.orders[ref].state == Pending || s.orders[ref].state == Unknown) { NewRejIgnored(s, ref); }
        case CxlAck(ref) => RemovalLedger(s, ref, w, i);
        case Fill(ref, q) => FillLedger(s, ref, q, w, i);
        case Bust(ref, q) => BustLedger(s, ref, q, w, i);
        case ExternalFill(a, st, j, side, q) => HeldAfter(s.ledger, a, st, j, TradeDelta(side, q), w, i);
        case Rebuild(o) => RebuildLedger(s, o, w, i);
        case RebuildPos(a, st, j, n) => HeldAfter(s.ledger, a, st, j, OpenPos(0, 0, n), w, i);
      }
    }
  }
}
