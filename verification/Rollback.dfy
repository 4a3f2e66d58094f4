/** The order chain is an instance of the nested chain, and a refused new order leaves no trace in the books. */
module Rollback {
  import opened OrderTypes
  import opened Pipeline
  import opened Effects
  import TableLaw
  import opened WashTrade
  import Chain

  type OrderStage = Chain.Stage<State, Reject>

  ghost predicate Ready(s: State, ref: OrderRef) {
    Known(s, ref) && ListsKnown(s)
  }

  /** A stage that only checks: nothing to do, nothing to undo. */
  ghost function Check(ref: OrderRef, verdict: State -> Option<Reject>): OrderStage {
    Chain.Stage((s: State) => (s, if Ready(s, ref) then verdict(s) else None), (s: State, rej: Reject) => s)
  }

  ghost function MessagingStage(ref: OrderRef): OrderStage {
    Chain.Stage((s: State) => (if Ready(s, ref) then CountMsg(s, ref, MsgNew, 1) else s, None),
                (s: State, rej: Reject) => if Ready(s, ref) then UncountMsg(s, ref, MsgNew, rej) else s)
  }

  ghost function OrdersStage(ref: OrderRef): OrderStage {
    Chain.Stage((s: State) => if Ready(s, ref) then OrdersSendNew(s, ref) else (s, None),
                (s: State, rej: Reject) => if Ready(s, ref) then OrdersOnNewRej(s, ref) else s)
  }

  ghost function WtpStage(ref: OrderRef, env: Env): OrderStage {
    Chain.Stage((s: State) => if Ready(s, ref) then WtpSendNew(s, ref, env.quote) else (s, None),
                (s: State, rej: Reject) => s)
  }

  ghost function ThrottleStage(ref: OrderRef, env: Env): OrderStage {
    Check(ref, (s: State) => if env.throttleOk then None else Some(Reject(true, Throttled)))
  }

  ghost function RiskStage(ref: OrderRef): OrderStage {
    Check(ref, (s: State) => if Known(s, ref) then RiskSendNew(s, ref) else None)
  }

  ghost function PnlStage(ref: OrderRef, env: Env): OrderStage {
    Check(ref, (s: State) => if env.pnlOk then None else Some(Reject(true, LossLimit)))
  }

  ghost function ChannelStage(ref: OrderRef, env: Env): OrderStage {
    Check(ref, (s: State) => if Known(s, ref) then ChannelSendNew(s, ref, env) else None)
  }

  /** The stages in the order the strategy container nests them. */
  ghost function OrderChain(ref: OrderRef, env: Env): seq<OrderStage> {
    [MessagingStage(ref), OrdersStage(ref)] + InnerChain(ref, env)
  }

  ghost function InnerChain(ref: OrderRef, env: Env): seq<OrderStage> {
    [ThrottleStage(ref, env), WtpStage(ref, env), RiskStage(ref), PnlStage(ref, env), ChannelStage(ref, env)]
  }

  /** Unfolding one stage of a chain. */
  lemma {:induction false} Peel(stage: OrderStage, rest: seq<OrderStage>, s: State, depth: nat)
    ensures var r := Chain.Send([stage] + rest, s, depth);
            var a := stage.send(s);
            var b := Chain.Send(rest, a.0, depth + 1);
            && r.rej == (if a.1.Some? then a.1 else b.rej)
            && r.state == (if a.1.Some? then a.0 else if b.rej.Some? then stage.undo(b.state, b.rej.value) else b.state)
            && Chain.Refuser([stage] + rest, s) == if a.1.Some? then 0 else 1 + Chain.Refuser(rest, a.0)
  {
    assert ([stage] + rest)[1..] == rest;
  }

  lemma {:induction false} TailIsChain(s: State, ref: OrderRef, env: Env, depth: nat)
    requires Ready(s, ref)
    ensures var r := Chain.Send([RiskStage(ref), PnlStage(ref, env), ChannelStage(ref, env)], s, depth);
            && r.state == s
            && r.rej == if RiskSendNew(s, ref).Some? then RiskSendNew(s, ref)
                        else if !env.pnlOk then Some(Reject(true, LossLimit)) else ChannelSendNew(s, ref, env)
    ensures Chain.Refuser([RiskStage(ref), PnlStage(ref, env), ChannelStage(ref, env)], s)
         == if RiskSendNew(s, ref).Some? then 0 else if !env.pnlOk then 1 else if ChannelSendNew(s, ref, env).Some? then 2 else 3
  {
    hide RiskSendNew, ChannelSendNew, Chain.Send, Chain.Refuser;
    NoStages(s, depth + 3);
    Peel(ChannelStage(ref, env), [], s, depth + 2);
    Peel(PnlStage(ref, env), [ChannelStage(ref, env)], s, depth + 1);
    Peel(RiskStage(ref), [PnlStage(ref, env), ChannelStage(ref, env)], s, depth);
    assert [ChannelStage(ref, env)] + [] == [ChannelStage(ref, env)];
    assert [PnlStage(ref, env)] + [ChannelStage(ref, env)] == [PnlStage(ref, env), ChannelStage(ref, env)];
    assert [RiskStage(ref)] + [PnlStage(ref, env), ChannelStage(ref, env)] == [RiskStage(ref), PnlStage(ref, env), ChannelStage(ref, env)];
  }

  lemma {:induction false} NoStages(s: State, depth: nat)
    ensures Chain.Send<State, Reject>([], s, depth) == Chain.Result(s, None, []) && Chain.Refuser<State, Reject>([], s) == 0
  {
  }

  lemma {:induction false} InnerIsChain(s: State, ref: OrderRef, env: Env, depth: nat)
    requires Ready(s, ref)
    ensures var r := Chain.Send(InnerChain(ref, env), s, depth);
            (r.state, r.rej) == SendNewFromThrottle(s, ref, env)
    ensures var w := WtpSendNew(s, ref, env.quote);
            Chain.Refuser(InnerChain(ref, env), s)
            == if !env.throttleOk then 0 else if w.1.Some? then 1
               else if RiskSendNew(w.0, ref).Some? then 2 else if !env.pnlOk then 3
               else if ChannelSendNew(w.0, ref, env).Some? then 4 else 5
  {
    hide WtpSendNew, RiskSendNew, ChannelSendNew, Chain.Send, Chain.Refuser, RiskStage, PnlStage, ChannelStage;
    var tail := [RiskStage(ref), PnlStage(ref, env), ChannelStage(ref, env)];
    var w := WtpSendNew(s, ref, env.quote).0;
    TailIsChain(w, ref, env, depth + 2);
    Peel(WtpStage(ref, env), tail, s, depth + 1);
    Peel(ThrottleStage(ref, env), [WtpStage(ref, env)] + tail, s, depth);
    assert [ThrottleStage(ref, env)] + ([WtpStage(ref, env)] + tail) == InnerChain(ref, env);
  }

  /** The order path's new-order request is the nested chain over its seven stages. */
  lemma {:induction false} SendNewIsChain(s: State, ref: OrderRef, env: Env)
    requires Ready(s, ref)
    ensures var r := Chain.Send(OrderChain(ref, env), s, 0);
            (r.state, r.rej) == SendNew(s, ref, env)
    ensures var a := OrdersSendNew(CountMsg(s, ref, MsgNew, 1), ref);
            Chain.Refuser(OrderChain(ref, env), s) == if a.1.Some? then 1 else 2 + Chain.Refuser(InnerChain(ref, env), a.0)
  {
    hide OrdersSendNew, OrdersOnNewRej, CountMsg, UncountMsg, SendNewFromThrottle, Chain.Send, Chain.Refuser, InnerChain;
    var m := CountMsg(s, ref, MsgNew, 1);
    var a := OrdersSendNew(m, ref);
    if a.1.None? {
      InnerIsChain(a.0, ref, env, 2);
    }
    Peel(OrdersStage(ref), InnerChain(ref, env), m, 1);
    Peel(MessagingStage(ref), [OrdersStage(ref)] + InnerChain(ref, env), s, 0);
    assert [MessagingStage(ref)] + ([OrdersStage(ref)] + InnerChain(ref, env)) == OrderChain(ref, env);
  }

  // ---------- who is called ----------

  /** The depth of the stage a reject comes from. */
  function Depth(r: Reason): nat {
    match r
    case InvalidState => 1 case InvalidQty => 1 case InvalidPrice => 1 case DuplicateId => 1
    case SamePrice => 1 case MaxModRejects => 1 case MaxMods => 1 case MaxCxlRejects => 1
    case Throttled => 2
    case WashTrade => 3
    case AccountNotConfigured => 4 case AccountDisabled => 4 case SymbolNotConfigured => 4 case SymbolDisabled => 4
    case ClipSize => 4 case InvalidSide => 4 case MaxPos => 4
    case LossLimit => 5
    case ConnectionDown => 6 case ChannelKind => 6 case ChannelFailure => 6 case Exchange => 6
  }

  lemma {:induction false} DepthRange(rej: Option<Reject>)
    ensures rej.Some? ==> 1 <= Depth(rej.value.reason) <= 6
  {
  }

  /** The stages' own rejects. */
  lemma {:induction false} OrdersDepth(s: State, ref: OrderRef)
    requires Known(s, ref)
    ensures OrdersSendNew(s, ref).1.Some? ==> Depth(OrdersSendNew(s, ref).1.value.reason) == 1
  {
    hide OrdersOnNewRej, PostTerms;
  }

  lemma {:induction false} WtpDepth(s: State, ref: OrderRef, q: Quote)
    requires Ready(s, ref)
    ensures WtpSendNew(s, ref, q).1.Some? ==> Depth(WtpSendNew(s, ref, q).1.value.reason) == 3
  {
    hide Scan, QuoteOverride;
  }

  lemma {:induction false} RiskDepth(s: State, ref: OrderRef, env: Env)
    requires Known(s, ref)
    ensures RiskSendNew(s, ref).Some? ==> Depth(RiskSendNew(s, ref).value.reason) == 4
    ensures ChannelSendNew(s, ref, env).Some? ==> Depth(ChannelSendNew(s, ref, env).value.reason) == 6
  {
    hide Exposure;
  }

  /** The reason of a refusal names the stage that refused. */
  lemma {:induction false} RefuserByReason(s: State, ref: OrderRef, env: Env)
    requires Ready(s, ref)
    ensures var rej := SendNew(s, ref, env).1;
            Chain.Refuser(OrderChain(ref, env), s) == if rej.None? then 7 else Depth(rej.value.reason)
  {
    hide OrdersSendNew, OrdersOnNewRej, WtpSendNew, RiskSendNew, ChannelSendNew, CountMsg, UncountMsg, Chain.Send, Chain.Refuser, OrderChain, InnerChain;
    var m := CountMsg(s, ref, MsgNew, 1);
    var a := OrdersSendNew(m, ref);
    SendNewIsChain(s, ref, env);
    OrdersDepth(m, ref);
    if a.1.None? {
      InnerIsChain(a.0, ref, env, 2);
      WtpDepth(a.0, ref, env.quote);
      RiskDepth(WtpSendNew(a.0, ref, env.quote).0, ref, env);
    }
  }

  /** How often a call occurs. */
  lemma {:induction false} UndoneOnce(k: nat, j: nat)
    ensures multiset(Chain.Sends(0, k + 1) + Chain.Undos(0, k))[Chain.Undone(j)] == if j < k then 1 else 0
    ensures multiset(Chain.Sends(0, k + 1) + Chain.Undos(0, k))[Chain.Sent(j)] == if j <= k then 1 else 0
  {
    SendsCount(k + 1, j);
    UndosCount(0, k, j);
  }

  lemma {:induction false} SendsCount(n: nat, j: nat)
    ensures multiset(Chain.Sends(0, n))[Chain.Sent(j)] == (if j < n then 1 else 0) && multiset(Chain.Sends(0, n))[Chain.Undone(j)] == 0
  {
    if n > 0 {
      SendsCount(n - 1, j);
      assert Chain.Sends(0, n) == Chain.Sends(0, n - 1) + [Chain.Sent(n - 1)];
    } else {
      assert Chain.Sends(0, 0) == [];
    }
  }

  lemma {:induction false} UndosCount(d: nat, n: nat, j: nat)
    ensures multiset(Chain.Undos(d, n))[Chain.Undone(j)] == (if d <= j < d + n then 1 else 0) && multiset(Chain.Undos(d, n))[Chain.Sent(j)] == 0
    decreases n
  {
    if n > 0 {
      UndosCount(d + 1, n - 1, j);
      assert Chain.Undos(d, n) == Chain.Undos(d + 1, n - 1) + [Chain.Undone(d)];
    } else {
      assert Chain.Undos(d, 0) == [];
    }
  }

  /**
    A refused new order, on the order path: the stages up to the one its reason names are called once each, every stage
    before that one is told of the reject exactly once, innermost first, and no other stage is called at all.
   */
  lemma {:induction false} OrderCalls(s: State, ref: OrderRef, env: Env)
    requires Ready(s, ref) && SendNew(s, ref, env).1.Some?
    ensures var k := Depth(SendNew(s, ref, env).1.value.reason);
            var calls := Chain.Send(OrderChain(ref, env), s, 0).calls;
            && calls == Chain.Sends(0, k + 1) + Chain.Undos(0, k)
            && forall j: nat :: multiset(calls)[Chain.Undone(j)] == (if j < k then 1 else 0)
                                && multiset(calls)[Chain.Sent(j)] == (if j <= k then 1 else 0)
  {
    hide SendNew, Chain.Send, Chain.Refuser, Chain.Sends, Chain.Undos;
    RefuserByReason(s, ref, env);
    ChainLength(ref, env);
    SendNewIsChain(s, ref, env);
    Chain.ChainCalls(OrderChain(ref, env), s, 0);
    var k := Depth(SendNew(s, ref, env).1.value.reason);
    forall j: nat
      ensures multiset(Chain.Sends(0, k + 1) + Chain.Undos(0, k))[Chain.Undone(j)] == (if j < k then 1 else 0)
           && multiset(Chain.Sends(0, k + 1) + Chain.Undos(0, k))[Chain.Sent(j)] == (if j <= k then 1 else 0)
    {
      UndoneOnce(k, j);
    }
  }

  lemma {:induction false} ChainLength(ref: OrderRef, env: Env)
    ensures |OrderChain(ref, env)| == 7
  {
  }

  // ---------- the states a request goes through ----------

  /** The state the stage at depth j meets. */
  ghost function Met(s: State, ref: OrderRef, env: Env, j: nat): State
    requires j <= 7
  {
    ChainLength(ref, env);
    Chain.Forward(OrderChain(ref, env), s, j)
  }

  /** The stages behind the order table change the wash-trade lists at most, and have nothing to take back. */
  lemma {:induction false} InnerStage(x: State, ref: OrderRef, env: Env, j: nat)
    requires Ready(x, ref) && 2 <= j < 7 && |OrderChain(ref, env)| == 7
    ensures var r := OrderChain(ref, env)[j].send(x).0;
            r == x.(lists := r.lists) && ListsKnown(r)
    ensures forall y, rej :: OrderChain(ref, env)[j].undo(y, rej) == y
  {
    hide WtpSendNew, RiskSendNew, ChannelSendNew;
    if j == 2 {} else if j == 3 {} else if j == 4 {} else if j == 5 {} else { assert j == 6; }
  }

  lemma {:induction false} MetStart(s: State, ref: OrderRef, env: Env)
    requires Ready(s, ref)
    ensures Met(s, ref, env, 0) == s && Met(s, ref, env, 1) == CountMsg(s, ref, MsgNew, 1)
    ensures Met(s, ref, env, 2) == OrdersSendNew(CountMsg(s, ref, MsgNew, 1), ref).0
  {
    hide OrdersSendNew, CountMsg;
    ChainLength(ref, env);
    Chain.ForwardNext(OrderChain(ref, env), s, 0);
    Chain.ForwardNext(OrderChain(ref, env), s, 1);
  }

  lemma {:induction false} MetInner(s: State, ref: OrderRef, env: Env, j: nat)
    requires Ready(s, ref) && 2 <= j <= 7
    ensures Met(s, ref, env, j) == Met(s, ref, env, 2).(lists := Met(s, ref, env, j).lists) && Ready(Met(s, ref, env, j), ref)
  {
    hide OrdersSendNew, CountMsg, OrderChain;
    MetStart(s, ref, env);
    ChainLength(ref, env);
    if j > 2 {
      MetInner(s, ref, env, j - 1);
      Chain.ForwardNext(OrderChain(ref, env), s, j - 1);
      InnerStage(Met(s, ref, env, j - 1), ref, env, j - 1);
    }
  }

  // ---------- what a refusal restores ----------

  /** The positions of every owner in every instrument are the same. */
  ghost predicate SameBooks(s: State, r: State) {
    forall w: Owner, i: InstrumentId :: Held(r.ledger, w, i) == Held(s.ledger, w, i)
  }

  /** What is restored at each depth: behind the order table all but the lists; before it all but the order and the lists. */
  ghost predicate Restored(ref: OrderRef, j: nat, x: State, y: State) {
    && |y.orders| == |x.orders| && Known(x, ref) && ListsKnown(y) && y.config == x.config
    && if j >= 2 then y == x.(lists := y.lists)
       else y.orders == x.orders[ref := x.orders[ref].(state := Rejected)] && SameBooks(x, y) && y.table == x.table
  }

  lemma {:induction false} OrdersRestored(s: State, ref: OrderRef, y: State)
    requires Ready(s, ref) && s.orders[ref].state == Unknown && Validate(s, s.orders[ref]).None?
    requires Restored(ref, 2, OrdersSendNew(s, ref).0, y)
    ensures Restored(ref, 1, s, OrdersOnNewRej(y, ref))
  {
    hide OrdersSendNew, OrdersOnNewRej, PostTerms, Held, OpenDelta, Part, Plus;
    var o := s.orders[ref];
    OrdersNewEffect(s, ref);
    OrdersUndoEffect(y, ref);
    TableLaw.ValidIdUnused(s, o);
    var r := OrdersOnNewRej(y, ref);
    assert s.table[o.terms.id := ref] - {o.terms.id} == s.table;
    forall w: Owner, i: InstrumentId ensures Held(r.ledger, w, i) == Held(s.ledger, w, i) {
      HeldPost(s.ledger, o.terms, OpenDelta(o.terms.side, o.Rem()), w, i);
      HeldPost(y.ledger, o.terms, OpenDelta(o.terms.side, -o.Rem()), w, i);
      BackAndForth(Held(s.ledger, w, i), o.terms, o.Rem(), w, i);
    }
  }

  lemma {:induction false} BackAndForth(h: OpenPos, t: Terms, n: int, w: Owner, i: InstrumentId)
    ensures Plus(Plus(h, Part(ForTerms(t, OpenDelta(t.side, n)), w, i)), Part(ForTerms(t, OpenDelta(t.side, -n)), w, i)) == h
  {
    if t.side == Buy {} else if t.side == Sell {} else {}
  }

  /** Each compensation of the order path, for the states a refused valid order goes through. */
  lemma {:induction false} StageRestores(s: State, ref: OrderRef, env: Env, rej: Reject, j: nat, y: State)
    requires Ready(s, ref) && s.orders[ref].state == Unknown && Validate(s, s.orders[ref]).None?
    requires j < 7 && |OrderChain(ref, env)| == 7 && Restored(ref, j + 1, Met(s, ref, env, j + 1), y)
    ensures Restored(ref, j, Met(s, ref, env, j), OrderChain(ref, env)[j].undo(y, rej))
  {
    hide OrdersSendNew, OrdersOnNewRej, CountMsg, UncountMsg, SameBooks, Validate, Met, InnerChain;
    MetStart(s, ref, env);
    if j == 0 {
      MessagingRestored(s, ref, rej, y);
    } else if j == 1 {
      CountKeepsValid(s, ref);
      OrdersRestored(CountMsg(s, ref, MsgNew, 1), ref, y);
    } else {
      MetInner(s, ref, env, j);
      MetInner(s, ref, env, j + 1);
      InnerStage(Met(s, ref, env, j), ref, env, j);
    }
  }

  lemma {:induction false} CountKeepsValid(s: State, ref: OrderRef)
    requires Known(s, ref)
    ensures var m := CountMsg(s, ref, MsgNew, 1);
            Validate(m, m.orders[ref]) == Validate(s, s.orders[ref])
  {
  }

  lemma {:induction false} MessagingRestored(s: State, ref: OrderRef, rej: Reject, y: State)
    requires Ready(s, ref) && Restored(ref, 1, CountMsg(s, ref, MsgNew, 1), y)
    ensures Restored(ref, 0, s, UncountMsg(y, ref, MsgNew, rej))
  {
    hide CountMsg, UncountMsg, Held;
  }

  /**
    A fresh, valid order that any later stage refuses: the order is rejected, and every count, every position and the
    order table are as they were before the call.
   */
  lemma {:induction false} RefusedLeavesNoTrace(s: State, ref: OrderRef, env: Env)
    requires Ready(s, ref) && s.orders[ref].state == Unknown && Validate(s, s.orders[ref]).None?
    requires SendNew(s, ref, env).1.Some?
    ensures var r := SendNew(s, ref, env);
            && r.0.orders == s.orders[ref := s.orders[ref].(state := Rejected)]
            && SameBooks(s, r.0)
            && r.0.table == s.table
  {
    hide SendNew, OrdersSendNew, CountMsg, Validate, SameBooks, Chain.Send, Chain.Refuser, Chain.Forward, OrderChain;
    var c := OrderChain(ref, env);
    ChainLength(ref, env);
    SendNewIsChain(s, ref, env);
    RefusedDepth(s, ref, env);
    var k := Chain.Refuser(c, s);
    var rej := Chain.Send(c, s, 0).rej.value;
    MetInner(s, ref, env, k);
    InnerStage(Met(s, ref, env, k), ref, env, k);
    assert Restored(ref, k, Met(s, ref, env, k), c[k].send(Met(s, ref, env, k)).0);
    forall j, y | 0 <= j < k && Restored(ref, j + 1, Chain.Forward(c, s, j + 1), y)
      ensures Restored(ref, j, Chain.Forward(c, s, j), c[j].undo(y, rej))
    {
      StageRestores(s, ref, env, rej, j, y);
    }
    Chain.ChainRestores(c, s, 0, (j: nat, x: State, y: State) => Restored(ref, j, x, y));
  }

  /** A valid fresh order is refused behind the order table, if at all. */
  lemma {:induction false} RefusedDepth(s: State, ref: OrderRef, env: Env)
    requires Ready(s, ref) && s.orders[ref].state == Unknown && Validate(s, s.orders[ref]).None? && SendNew(s, ref, env).1.Some?
    ensures 2 <= Chain.Refuser(OrderChain(ref, env), s) < 7
  {
    hide SendNew, OrdersSendNew, CountMsg, Validate, Chain.Send, Chain.Refuser, OrderChain, InnerChain;
    SendNewIsChain(s, ref, env);
    RefuserByReason(s, ref, env);
    CountKeepsValid(s, ref);
    OrdersNewEffect(CountMsg(s, ref, MsgNew, 1), ref);
  }

  /**
    The exact condition for a refused fresh order to leave the books alone: it was valid, or it had nothing to remove.
    An order refused by its own validation was never added, and is removed all the same.
   */
  lemma {:induction false} RefusalExact(s: State, ref: OrderRef, env: Env)
    requires Ready(s, ref) && s.orders[ref].state == Unknown && SendNew(s, ref, env).1.Some?
    ensures SameBooks(s, SendNew(s, ref, env).0)
       <==> Validate(s, s.orders[ref]).None? || s.orders[ref].Rem() == 0 || s.orders[ref].terms.side == NoSide
  {
    hide SendNew, Held, Validate, Part, Plus, OpenDelta;
    var o := s.orders[ref];
    var r := SendNew(s, ref, env).0;
    if Validate(s, o).None? {
      RefusedLeavesNoTrace(s, ref, env);
    } else {
      forall w: Owner, i: InstrumentId
        ensures Held(r.ledger, w, i) == Plus(Held(s.ledger, w, i), Part(Removal(o), w, i))
      {
        NewLedger(s, ref, env, w, i);
      }
      var w, i := ByAccount(o.terms.account), o.terms.instrument;
      RemovalMoves(o, Held(s.ledger, w, i));
      if o.Rem() == 0 || o.terms.side == NoSide {
        forall w: Owner, i: InstrumentId ensures Held(r.ledger, w, i) == Held(s.ledger, w, i) {
          RemovalOfNothing(o, Held(s.ledger, w, i), w, i);
        }
      } else {
        assert Held(r.ledger, w, i) != Held(s.ledger, w, i);
      }
    }
  }

  lemma {:induction false} RemovalMoves(o: Order, h: OpenPos)
    ensures o.Rem() != 0 && o.terms.side != NoSide
            ==> Plus(h, Part(Removal(o), ByAccount(o.terms.account), o.terms.instrument)) != h
  {
    if o.terms.side == Buy {} else if o.terms.side == Sell {} else {}
  }

  lemma {:induction false} RemovalOfNothing(o: Order, h: OpenPos, w: Owner, i: InstrumentId)
    requires o.Rem() == 0 || o.terms.side == NoSide
    ensures Plus(h, Part(Removal(o), w, i)) == h
  {
    if o.terms.side == Buy {} else if o.terms.side == Sell {} else {}
  }

  // ---------- message counters ----------

  /** One message more for the order's symbol and account in the field of its kind, if it was sent; all else as it was. */
  function Counted(s: State, t: Terms, kind: MsgKind, sent: bool, k: (string, AccountId)): MsgCounts {
    var c := MsgAt(s.messages, k);
    var n := if sent && t.instrument in s.config.instruments && k == (s.config.instruments[t.instrument], t.account) then 1 else 0;
    MsgCounts(if kind == MsgNew then c.news + n else c.news,
              if kind == MsgMod then c.mods + n else c.mods,
              if kind == MsgCxl then c.cxls + n else c.cxls)
  }

  /** A request counts as sent unless it was refused inside the process. */
  predicate LeftProcess(rej: Option<Reject>) {
    rej.None? || !rej.value.internal
  }

  /** Counting, then taking back an internal refusal, in any states that agree on configuration, terms and counters. */
  lemma {:induction false} CountedThen(s: State, m: State, r: State, ref: OrderRef, kind: MsgKind, rej: Option<Reject>, k: (string, AccountId))
    requires Known(s, ref) && Known(m, ref) && Known(r, ref)
    requires m.config == s.config && r.config == s.config && m.messages == s.messages
    requires m.orders[ref].terms == s.orders[ref].terms && r.orders[ref].terms == s.orders[ref].terms
    requires r.messages == CountMsg(m, ref, kind, 1).messages
    ensures MsgAt((if rej.Some? then UncountMsg(r, ref, kind, rej.value) else r).messages, k)
         == Counted(s, s.orders[ref].terms, kind, LeftProcess(rej), k)
  {
    hide CountMsg, MsgAt;
    CountAt(m, ref, kind, 1, k);
    CountAt(r, ref, kind, -1, k);
    match kind case MsgNew => case MsgMod => case MsgCxl =>
  }

  /** Counting n messages adds n to the field of their kind, for the order's symbol and account alone. */
  lemma {:induction false} CountAt(s: State, ref: OrderRef, kind: MsgKind, n: int, k: (string, AccountId))
    requires Known(s, ref)
    ensures var t, c := s.orders[ref].terms, MsgAt(s.messages, k);
            var d := if t.instrument in s.config.instruments && k == (s.config.instruments[t.instrument], t.account) then n else 0;
            MsgAt(CountMsg(s, ref, kind, n).messages, k)
            == MsgCounts(if kind == MsgNew then c.news + d else c.news, if kind == MsgMod then c.mods + d else c.mods,
                         if kind == MsgCxl then c.cxls + d else c.cxls)
  {
    match kind case MsgNew => case MsgMod => case MsgCxl =>
  }

  /** What the message counters keep at each depth: everything inside the messaging stage, the count at the outside. */
  ghost predicate MessagesKept(ref: OrderRef, rej: Option<Reject>, j: nat, x: State, y: State) {
    && Known(x, ref) && Ready(y, ref) && y.config == x.config && y.orders[ref].terms == x.orders[ref].terms
    && if j >= 1 then y.messages == x.messages
       else forall k :: MsgAt(y.messages, k) == Counted(x, x.orders[ref].terms, MsgNew, LeftProcess(rej), k)
  }

  lemma {:induction false} OrdersKeepMessages(s: State, ref: OrderRef)
    requires Ready(s, ref)
    ensures MessagesKept(ref, None, 1, s, OrdersSendNew(s, ref).0) && MessagesKept(ref, None, 1, s, OrdersOnNewRej(s, ref))
  {
    hide PostTerms, Validate;
  }

  lemma {:induction false} MetMessages(s: State, ref: OrderRef, env: Env, j: nat)
    requires Ready(s, ref) && 1 <= j <= 7
    ensures MessagesKept(ref, None, 1, CountMsg(s, ref, MsgNew, 1), Met(s, ref, env, j))
  {
    hide OrdersSendNew, CountMsg;
    MetStart(s, ref, env);
    OrdersKeepMessages(CountMsg(s, ref, MsgNew, 1), ref);
    if j >= 2 {
      MetInner(s, ref, env, j);
    }
  }

  /** Each stage, send and compensation, keeps what the message counters keep. */
  lemma {:induction false} StageKeepsMessages(s: State, ref: OrderRef, env: Env, rej: Reject, j: nat, y: State)
    requires Ready(s, ref) && j < 7 && |OrderChain(ref, env)| == 7
    requires MessagesKept(ref, Some(rej), j + 1, Met(s, ref, env, j + 1), y)
    ensures MessagesKept(ref, Some(rej), j, Met(s, ref, env, j), OrderChain(ref, env)[j].undo(y, rej))
  {
    hide OrdersSendNew, OrdersOnNewRej, CountMsg, UncountMsg, Met, InnerChain, Counted, MsgAt;
    MetStart(s, ref, env);
    if j == 0 {
      forall k ensures MsgAt(UncountMsg(y, ref, MsgNew, rej).messages, k) == Counted(s, s.orders[ref].terms, MsgNew, LeftProcess(Some(rej)), k) {
        CountedThen(s, s, y, ref, MsgNew, Some(rej), k);
      }
    } else {
      MetMessages(s, ref, env, j);
      MetMessages(s, ref, env, j + 1);
      if j == 1 {
        OrdersKeepMessages(y, ref);
      } else {
        MetInner(s, ref, env, j);
        InnerStage(Met(s, ref, env, j), ref, env, j);
      }
    }
  }

  lemma {:induction false} RefuserKeepsMessages(s: State, ref: OrderRef, env: Env, rej: Reject, k: nat)
    requires Ready(s, ref) && 1 <= k < 7 && |OrderChain(ref, env)| == 7
    ensures MessagesKept(ref, Some(rej), k, Met(s, ref, env, k), OrderChain(ref, env)[k].send(Met(s, ref, env, k)).0)
  {
    hide OrdersSendNew, OrdersOnNewRej, CountMsg, Met, InnerChain, Counted, MsgAt;
    MetStart(s, ref, env);
    if k == 1 {
      OrdersKeepMessages(CountMsg(s, ref, MsgNew, 1), ref);
    } else {
      MetInner(s, ref, env, k);
      InnerStage(Met(s, ref, env, k), ref, env, k);
    }
  }

  /** A new-order request counts one message exactly if it leaves the process. */
  lemma {:induction false} NewMessages(s: State, ref: OrderRef, env: Env, k: (string, AccountId))
    requires Ready(s, ref)
    ensures var r := SendNew(s, ref, env);
            MsgAt(r.0.messages, k) == Counted(s, s.orders[ref].terms, MsgNew, LeftProcess(r.1), k)
  {
    hide SendNew, CountMsg, Counted, MsgAt, LeftProcess, Depth, Chain.Send, Chain.Refuser, Chain.Forward, OrderChain;
    var c := OrderChain(ref, env);
    ChainLength(ref, env);
    SendNewIsChain(s, ref, env);
    RefuserByReason(s, ref, env);
    DepthRange(SendNew(s, ref, env).1);
    var r := Chain.Send(c, s, 0);
    if r.rej.Some? {
      var n, rej := Chain.Refuser(c, s), r.rej.value;
      RefuserKeepsMessages(s, ref, env, rej, n);
      forall j, y | 0 <= j < n && MessagesKept(ref, Some(rej), j + 1, Chain.Forward(c, s, j + 1), y)
        ensures MessagesKept(ref, Some(rej), j, Chain.Forward(c, s, j), c[j].undo(y, rej))
      {
        StageKeepsMessages(s, ref, env, rej, j, y);
      }
      Chain.ChainRestores(c, s, 0, (j: nat, x: State, y: State) => MessagesKept(ref, Some(rej), j, x, y));
    } else {
      Chain.ChainUnwinds(c, s, 0);
      MetMessages(s, ref, env, 7);
      CountedThen(s, s, r.state, ref, MsgNew, None, k);
    }
  }

  /** So does a modify request, whatever its clean-up does to the order. */
  lemma {:induction false} ModMessages(s: State, ref: OrderRef, p: Ticks, env: Env, k: (string, AccountId))
    requires Ready(s, ref)
    ensures var r := SendMod(s, ref, p, env);
            MsgAt(r.0.messages, k) == Counted(s, s.orders[ref].terms, MsgMod, LeftProcess(r.1), k)
  {
    hide SendModFromOrders, UncountMsg, CountMsg, Counted, ByOrders;
    var m := SetOrder(s, ref, s.orders[ref].(newPrice := p));
    var r := SendModFromOrders(CountMsg(m, ref, MsgMod, 1), ref, env);
    ModKeeps(CountMsg(m, ref, MsgMod, 1), ref, env);
    CountedThen(s, m, r.0, ref, MsgMod, r.1, k);
  }

  lemma {:induction false} ModKeeps(s: State, ref: OrderRef, env: Env)
    requires Ready(s, ref)
    ensures var r := SendModFromOrders(s, ref, env).0;
            r.messages == s.messages && r.orders[ref].terms == s.orders[ref].terms
  {
    hide SendModFromThrottle;
  }

  /** And a cancel request, except that a second cancel of a cancelling order is not sent at all. */
  lemma {:induction false} CxlMessages(s: State, ref: OrderRef, env: Env, k: (string, AccountId))
    requires Known(s, ref)
    ensures var r := SendCxl(s, ref, env);
            MsgAt(r.0.messages, k)
            == Counted(s, s.orders[ref].terms, MsgCxl, s.orders[ref].state != Cancelling && LeftProcess(r.1), k)
  {
    hide SendCxlFromOrders, UncountMsg, CountMsg;
    if s.orders[ref].state != Cancelling {
      var m := CountMsg(s, ref, MsgCxl, 1);
      var r := SendCxlFromOrders(m, ref, env);
      CxlKeeps(m, ref, env);
      CountedThen(s, s, r.0, ref, MsgCxl, r.1, k);
    }
  }

  lemma {:induction false} CxlKeeps(s: State, ref: OrderRef, env: Env)
    requires Known(s, ref)
    ensures var r := SendCxlFromOrders(s, ref, env).0;
            r.messages == s.messages && r.orders[ref].terms == s.orders[ref].terms
  {
    hide ChannelSendRequest;
  }

  /** The wash-trade lists keep a refused order only as a dead entry: the live part of every list is as it was. */
  lemma {:induction false} RefusedListsAlive(s: State, ref: OrderRef, env: Env, i: InstrumentId)
    requires Ready(s, ref) && s.orders[ref].state == Unknown && SendNew(s, ref, env).1.Some?
    requires ref !in ListsAt(s, i).buys && ref !in ListsAt(s, i).sells
    ensures var r := SendNew(s, ref, env).0;
            && Alive(r.orders, ListsAt(r, i).buys) == Alive(s.orders, ListsAt(s, i).buys)
            && Alive(r.orders, ListsAt(r, i).sells) == Alive(s.orders, ListsAt(s, i).sells)
  {
    hide SendNew, Alive, Scan;
    NewOrders(s, ref, env);
    var r := SendNew(s, ref, env).0;
    ListsAfter(s, ref, env, i);
    AliveWithout(s.orders, ref, r.orders[ref], ListsAt(s, i).buys);
    AliveWithout(s.orders, ref, r.orders[ref], ListsAt(s, i).sells);
  }

  lemma {:induction false} AliveWithout(orders: seq<Order>, ref: OrderRef, o: Order, refs: seq<OrderRef>)
    requires ref < |orders| && AllKnown(orders, refs) && ref !in refs
    ensures Alive(orders[ref := o], refs) == Alive(orders, refs)
  {
    if refs != [] {
      AliveWithout(orders, ref, o, refs[1..]);
    }
  }

  lemma {:induction false} AliveAppendDead(orders: seq<Order>, refs: seq<OrderRef>, x: OrderRef)
    requires AllKnown(orders, refs) && x < |orders| && Dead(orders[x].state)
    ensures AllKnown(orders, refs + [x]) && Alive(orders, refs + [x]) == Alive(orders, refs)
  {
    if refs == [] {
      assert (refs + [x])[1..] == [];
    } else {
      AliveAppendDead(orders, refs[1..], x);
      assert (refs + [x])[1..] == refs[1..] + [x];
    }
  }

  /** Scanning with the new order pending, then rejecting it, leaves the live part of a list alone. */
  lemma {:induction false} ScanAlive(orders: seq<Order>, ref: OrderRef, o: Order, refs: seq<OrderRef>, side: Side, price: Ticks)
    requires ref < |orders| && AllKnown(orders, refs) && ref !in refs
    ensures var scan := Scan(orders, refs, side, price).0;
            ref !in scan && AllKnown(orders, scan) && Alive(orders[ref := o], scan) == Alive(orders[ref := o], refs)
  {
    var scan := Scan(orders, refs, side, price).0;
    ScanRefinesEager(orders, refs, side, price);
    AliveWithout(orders, ref, o, refs);
    AliveWithout(orders, ref, o, scan);
  }

  lemma {:induction false} ListsAfter(s: State, ref: OrderRef, env: Env, i: InstrumentId)
    requires Ready(s, ref) && s.orders[ref].state == Unknown && SendNew(s, ref, env).1.Some?
    requires ref !in ListsAt(s, i).buys && ref !in ListsAt(s, i).sells
    ensures var r := SendNew(s, ref, env).0;
            && Alive(r.orders, ListsAt(r, i).buys) == Alive(r.orders, ListsAt(s, i).buys)
            && Alive(r.orders, ListsAt(r, i).sells) == Alive(r.orders, ListsAt(s, i).sells)
  {
    hide OrdersSendNew, OrdersOnNewRej, WtpSendNew, CountMsg, UncountMsg, RiskSendNew, ChannelSendNew, Alive, Scan;
    var m := CountMsg(s, ref, MsgNew, 1);
    var a := OrdersSendNew(m, ref);
    OrdersNewEffect(m, ref);
    NewOrders(s, ref, env);
    var o := s.orders[ref].(state := Rejected);
    if a.1.None? && env.throttleOk {
      WtpListsAlive(a.0, ref, env.quote, o, i);
      assert a.0.orders[ref := o] == s.orders[ref := o];
    }
  }

  lemma {:induction false} WtpListsAlive(s: State, ref: OrderRef, q: Quote, o: Order, i: InstrumentId)
    requires Ready(s, ref) && ref !in ListsAt(s, i).buys && ref !in ListsAt(s, i).sells && Dead(o.state)
    ensures var r := WtpSendNew(s, ref, q).0;
            var orders := s.orders[ref := o];
            && AllKnown(orders, ListsAt(r, i).buys) && AllKnown(orders, ListsAt(r, i).sells)
            && Alive(orders, ListsAt(r, i).buys) == Alive(orders, ListsAt(s, i).buys)
            && Alive(orders, ListsAt(r, i).sells) == Alive(orders, ListsAt(s, i).sells)
  {
    hide Alive, Scan, QuoteOverride;
    var t := s.orders[ref].terms;
    var orders := s.orders[ref := o];
    if i == t.instrument {
      var l := ListsAt(s, i);
      ScanAlive(s.orders, ref, o, l.buys, t.side, s.orders[ref].price);
      ScanAlive(s.orders, ref, o, l.sells, t.side, s.orders[ref].price);
      AliveAppendDead(orders, l.buys, ref);
      AliveAppendDead(orders, l.sells, ref);
      AliveAppendDead(orders, Scan(s.orders, l.buys, t.side, s.orders[ref].price).0, ref);
      AliveAppendDead(orders, Scan(s.orders, l.sells, t.side, s.orders[ref].price).0, ref);
    }
  }
}
