/**
  The order path as it runs: one object whose handlers update the order pool, the table, the two position maps,
  the wash-trade lists and the message counters in place. Every handler is proved to take the step of `Pipeline`, and
  the dispatch of an event carries the laws of counts, table, views, limits, lots and states.
 */
module Gateway {
  import opened OrderTypes
  import opened Pipeline
  import opened Effects
  import WashTrade
  import WashTradeVerdict
  import Acceptance
  import Conservation
  import Counts
  import Lifecycle
  import Limits
  import Rollback
  import TableLaw
  import Views

  /** What a fill of n lots (a bust, for negative n) does to the three figures of a position. */
  lemma {:induction false} TradeOf(side: Side, n: int)
    ensures Plus(OpenDelta(side, -n), TradeDelta(side, n))
         == match side case Buy => OpenPos(-n, 0, n) case Sell => OpenPos(0, -n, -n) case NoSide => OpenPos(0, 0, 0)
  {
    if side == Buy {} else if side == Sell {} else {}
  }

  /** A valid order's own account entry is in the map once the table has taken it. */
  lemma {:induction false} EntryExists(s: State, ref: OrderRef)
    requires Known(s, ref) && OrdersSendNew(s, ref).1.None?
    ensures var r := OrdersSendNew(s, ref).0;
            r.orders[ref].terms == s.orders[ref].terms
            && (s.orders[ref].terms.account, s.orders[ref].terms.instrument) in r.ledger.accounts
  {
    hide OpenDelta;
  }

  /** One step of the scan, at position i of a list. */
  lemma {:induction false} ScanAt(orders: seq<Order>, refs: seq<OrderRef>, i: nat, side: Side, price: Ticks)
    requires AllKnown(orders, refs) && i < |refs|
    ensures var o := orders[refs[i]];
            var here := Scan(orders, refs[i..], side, price);
            var rest := Scan(orders, refs[i + 1..], side, price);
            if Dead(o.state) then here == rest
            else if Crossing(o, side, price) then here == (refs[i..], Some(refs[i]))
            else here == ([refs[i]] + rest.0, rest.1)
  {
    hide Crossing, Dead;
    assert refs[i..][0] == refs[i] && refs[i..][1..] == refs[i + 1..];
  }

  lemma {:induction false} ScanEmpty(orders: seq<Order>, side: Side, price: Ticks)
    ensures Scan(orders, [], side, price) == ([], None)
  {
  }

  lemma {:induction false} Shift(refs: seq<OrderRef>, i: nat, rest: seq<OrderRef>)
    requires i < |refs|
    ensures refs[..i] + ([refs[i]] + rest) == refs[..i + 1] + rest
  {
  }

  /** The laws of one event, together. */
  lemma {:induction false} StepLaws(s: State, e: Event)
    requires ListsKnown(s)
    ensures Counts.Exact(s) ==> (Counts.Exact(Step(s, e)) <==> Counts.Tidy(s, e))
    ensures TableLaw.TableExact(s) ==> (TableLaw.TableExact(Step(s, e)) <==> TableLaw.Clean(s, e))
    ensures forall i :: Views.InStep(s.ledger, i) ==> Views.InStep(Step(s, e).ledger, i)
    ensures forall side: Side, i: InstrumentId :: side != NoSide && i in s.config.params ==>
              Exposure(Step(s, e), side, i) <= Limits.Max(Exposure(s, side, i), s.config.params[i].maxPos) + Limits.Overrun(s, e, side, i)
    ensures forall w: Owner, i: InstrumentId ::
              Held(Step(s, e).ledger, w, i).pos - Conservation.TradedSum(Step(s, e).orders, w, i)
              == Held(s.ledger, w, i).pos - Conservation.TradedSum(s.orders, w, i) + Conservation.Outside(s, e, w, i)
    ensures forall k :: 0 <= k < |s.orders| ==> Lifecycle.LegalAt(s, Step(s, e), e, k)
  {
    hide Step, Exposure, Held, Counts.Exact, Counts.Tidy, TableLaw.TableExact, TableLaw.Clean, Views.InStep, Limits.Overrun, Limits.Max,
         Conservation.TradedSum, Conservation.Outside, Lifecycle.LegalAt;
    if Counts.Exact(s) { Counts.TidyStep(s, e); }
    if TableLaw.TableExact(s) { TableLaw.CleanStep(s, e); }
    forall i | Views.InStep(s.ledger, i) ensures Views.InStep(Step(s, e).ledger, i) { Views.StepInStep(s, e, i); }
    forall side: Side, i: InstrumentId | side != NoSide && i in s.config.params
      ensures Exposure(Step(s, e), side, i) <= Limits.Max(Exposure(s, side, i), s.config.params[i].maxPos) + Limits.Overrun(s, e, side, i)
    {
      Limits.LimitStep(s, e, side, i);
    }
    forall w: Owner, i: InstrumentId
      ensures Held(Step(s, e).ledger, w, i).pos - Conservation.TradedSum(Step(s, e).orders, w, i)
           == Held(s.ledger, w, i).pos - Conservation.TradedSum(s.orders, w, i) + Conservation.Outside(s, e, w, i)
    {
      Conservation.LotsConserved(s, e, w, i);
    }
    forall k | 0 <= k < |s.orders| ensures Lifecycle.LegalAt(s, Step(s, e), e, k) { Lifecycle.StepLegal(s, e, k); }
  }

  /** A valid fresh order refused leaves no trace; an untouched one is taken exactly if acceptable. */
  lemma {:induction false} NewLaws(s: State, ref: OrderRef, env: Env)
    requires Known(s, ref) && ListsKnown(s)
    ensures var o, r := s.orders[ref], SendNew(s, ref, env);
            r.1.Some? && o.state == Unknown && Validate(s, o).None?
            ==> r.0.orders == s.orders[ref := o.(state := Rejected)] && r.0.table == s.table && Rollback.SameBooks(s, r.0)
    ensures var o := s.orders[ref];
            o.cumQty == 0 && ref !in WashTradeVerdict.OppositeList(s, o.terms)
            ==> (SendNew(s, ref, env).1.None? <==> Acceptance.Acceptable(s, ref, env))
  {
    hide SendNew, Validate, Rollback.SameBooks, Acceptance.Acceptable, WashTradeVerdict.OppositeList;
    var o := s.orders[ref];
    if SendNew(s, ref, env).1.Some? && o.state == Unknown && Validate(s, o).None? {
      Rollback.RefusedLeavesNoTrace(s, ref, env);
    }
    if o.cumQty == 0 && ref !in WashTradeVerdict.OppositeList(s, o.terms) {
      Acceptance.AcceptedIff(s, ref, env);
    }
  }

  class OrderGateway {
    const config: Config
    var orders: seq<Order>
    var table: map<OrderId, OrderRef>
    var accounts: Positions
    var strategies: Positions
    var lists: map<InstrumentId, SideLists>
    var messages: map<(string, AccountId), MsgCounts>

    ghost function View(): State
      reads this
    {
      State(config, orders, table, Ledger(accounts, strategies), lists, messages)
    }

    /** The wash-trade lists name orders of the pool. */
    ghost predicate Valid()
      reads this
    {
      ListsKnown(View())
    }

    constructor (config: Config)
      ensures Valid() && View() == Initial(config)
    {
      this.config := config;
      orders, table, accounts, strategies, lists, messages := [], map[], map[], map[], map[], map[];
    }

    // ---------- counts ----------

    /** The position entry of an account, created flat on first use. */
    method TouchAccount(account: AccountId, instrument: InstrumentId) returns (p: OpenPos)
      modifies `accounts
      ensures (account, instrument) in accounts && p == accounts[(account, instrument)] == At(old(accounts), (account, instrument))
      ensures accounts == old(accounts)[(account, instrument) := p]
    {
      if (account, instrument) !in accounts {
        accounts := accounts[(account, instrument) := OpenPos(0, 0, 0)];
      }
      p := accounts[(account, instrument)];
    }

    method TouchStrategy(strategy: StrategyId, instrument: InstrumentId) returns (p: OpenPos)
      modifies `strategies
      ensures (strategy, instrument) in strategies && p == strategies[(strategy, instrument)] == At(old(strategies), (strategy, instrument))
      ensures strategies == old(strategies)[(strategy, instrument) := p]
    {
      if (strategy, instrument) !in strategies {
        strategies := strategies[(strategy, instrument) := OpenPos(0, 0, 0)];
      }
      p := strategies[(strategy, instrument)];
    }

    /** Moves both views of a position by the same amounts. */
    method Move(account: AccountId, strategy: StrategyId, instrument: InstrumentId, bids: int, asks: int, pos: int)
      modifies `accounts, `strategies
      ensures Ledger(accounts, strategies) == Post(old(Ledger(accounts, strategies)), account, strategy, instrument, OpenPos(bids, asks, pos))
    {
      hide At;
      var v := TouchAccount(account, instrument);
      var s := TouchStrategy(strategy, instrument);
      accounts := accounts[(account, instrument) := OpenPos(v.bids + bids, v.asks + asks, v.pos + pos)];
      strategies := strategies[(strategy, instrument) := OpenPos(s.bids + bids, s.asks + asks, s.pos + pos)];
      assert accounts == Bump(old(accounts), (account, instrument), OpenPos(bids, asks, pos));
      assert strategies == Bump(old(strategies), (strategy, instrument), OpenPos(bids, asks, pos));
    }

    method ChangeOpenOrdersCounts(ref: OrderRef, add: bool)
      requires Known(View(), ref)
      modifies `accounts, `strategies
      ensures var o := orders[ref];
              View() == PostOrder(old(View()), o.terms, OpenDelta(o.terms.side, if add then o.Rem() else -o.Rem()))
    {
      var o := orders[ref];
      var delta := o.terms.qty - o.cumQty;
      match o.terms.side {
        case Buy => Move(o.terms.account, o.terms.strategy, o.terms.instrument, if add then delta else -delta, 0, 0);
        case Sell => Move(o.terms.account, o.terms.strategy, o.terms.instrument, 0, if add then delta else -delta, 0);
        case NoSide => Move(o.terms.account, o.terms.strategy, o.terms.instrument, 0, 0, 0);
      }
    }

    /** A normal (or busted) fill of an order: the position moves, the open count moves the other way. */
    method ChangePosCounts(ref: OrderRef, q: int, busted: bool)
      requires Known(View(), ref)
      modifies `accounts, `strategies
      ensures var t := orders[ref].terms;
              var n := if busted then -q else q;
              View() == PostOrder(old(View()), t, Plus(OpenDelta(t.side, -n), TradeDelta(t.side, n)))
    {
      hide Post, OpenDelta, TradeDelta, Plus;
      var t := orders[ref].terms;
      TradeOf(t.side, if busted then -q else q);
      match t.side {
        case Buy =>
          if busted { Move(t.account, t.strategy, t.instrument, q, 0, -q); }
          else { Move(t.account, t.strategy, t.instrument, -q, 0, q); }
        case Sell =>
          if busted { Move(t.account, t.strategy, t.instrument, 0, q, q); }
          else { Move(t.account, t.strategy, t.instrument, 0, -q, -q); }
        case NoSide => Move(t.account, t.strategy, t.instrument, 0, 0, 0);
      }
    }

    method RemoveOrder(ref: OrderRef)
      requires Known(View(), ref)
      modifies `accounts, `strategies, `table
      ensures View() == Remove(old(View()), ref)
    {
      ChangeOpenOrdersCounts(ref, false);
      table := table - {orders[ref].terms.id};
    }

    method SetState(ref: OrderRef, st: OrderState)
      requires Known(View(), ref)
      modifies `orders
      ensures View() == SetOrder(old(View()), ref, old(orders)[ref].(state := st))
    {
      orders := orders[ref := orders[ref].(state := st)];
    }

    // ---------- the messaging stage ----------

    method CountMessage(ref: OrderRef, kind: MsgKind, n: int)
      requires Known(View(), ref)
      modifies `messages
      ensures View() == CountMsg(old(View()), ref, kind, n)
    {
      var t := orders[ref].terms;
      if t.instrument in config.instruments {
        var k := (config.instruments[t.instrument], t.account);
        if k !in messages {
          messages := messages[k := MsgCounts(0, 0, 0)];
        }
        var c := messages[k];
        match kind {
          case MsgNew => messages := messages[k := c.(news := c.news + n)];
          case MsgMod => messages := messages[k := c.(mods := c.mods + n)];
          case MsgCxl => messages := messages[k := c.(cxls := c.cxls + n)];
        }
      }
    }

    method UncountMessage(ref: OrderRef, kind: MsgKind, rej: Reject)
      requires Known(View(), ref)
      modifies `messages
      ensures View() == UncountMsg(old(View()), ref, kind, rej)
    {
      if rej.internal {
        CountMessage(ref, kind, -1);
      }
    }

    // ---------- the order-table stage ----------

    method OrdersSendNewOrder(ref: OrderRef) returns (rej: Option<Reject>)
      requires Known(View(), ref)
      modifies `orders, `accounts, `strategies, `table
      ensures (View(), rej) == OrdersSendNew(old(View()), ref)
    {
      hide PostTerms, OpenDelta;
      var o := orders[ref];
      if o.state != Unknown {
        return Some(Reject(true, InvalidState));
      }
      SetState(ref, Pending);
      if o.terms.qty <= 0 {
        rej := Some(Reject(true, InvalidQty));
      } else if o.terms.kind.Limit? && !ValidTicks(o.price) {
        rej := Some(Reject(true, InvalidPrice));
      } else if o.terms.id in table {
        rej := Some(Reject(true, DuplicateId));
      } else {
        table := table[o.terms.id := ref];
        ChangeOpenOrdersCounts(ref, true);
        return None;
      }
      OnNewReject(ref);
    }

    method OnNewReject(ref: OrderRef)
      requires Known(View(), ref)
      modifies `orders, `accounts, `strategies, `table
      ensures View() == OrdersOnNewRej(old(View()), ref)
    {
      if orders[ref].state != Pending && orders[ref].state != Unknown {
        return;
      }
      SetState(ref, Rejected);
      RemoveOrder(ref);
    }

    method OrdersSendModify(ref: OrderRef) returns (rej: Option<Reject>)
      requires Known(View(), ref)
      modifies `orders
      ensures (View(), rej) == OrdersSendMod(old(View()), ref)
    {
      var o := orders[ref];
      if !ValidTicks(o.newPrice) {
        return Some(Reject(true, InvalidPrice));
      }
      if o.newPrice == o.price {
        return Some(Reject(true, SamePrice));
      }
      if MAX_MOD_REJ_COUNTER < o.counters.modRejs {
        return Some(Reject(true, MaxModRejects));
      }
      if o.state != Working && o.state != Modifying {
        return Some(Reject(true, InvalidState));
      }
      SetState(ref, Modifying);
      orders := orders[ref := orders[ref].(counters := o.counters.(mods := o.counters.mods + 1))];
      if MAX_MOD_COUNTER < orders[ref].counters.mods {
        orders := orders[ref := orders[ref].(counters := o.counters)];
        assert orders == old(orders)[ref := o.(state := Modifying)];
        return Some(Reject(true, MaxMods));
      }
      assert orders == old(orders)[ref := o.(state := Modifying, counters := o.counters.(mods := o.counters.mods + 1))];
      rej := None;
    }

    method CountModReject(ref: OrderRef)
      requires Known(View(), ref)
      modifies `orders
      ensures View() == OrdersOnModRej(old(View()), ref)
    {
      var c := orders[ref].counters;
      orders := orders[ref := orders[ref].(counters := c.(modRejs := c.modRejs + 1))];
    }

    method CloseModify(ref: OrderRef, updatePrice: bool)
      requires Known(View(), ref)
      modifies `orders
      ensures View() == OnModPost(old(View()), ref, updatePrice)
    {
      var o := orders[ref];
      if o.state != Modifying {
        return;
      }
      o := o.(counters := o.counters.(mods := Dec32(o.counters.mods)));
      if o.counters.mods == 0 {
        o := o.(state := Working);
      }
      if updatePrice {
        o := o.(price := o.newPrice);
      }
      o := o.(newPrice := INVALID_TICKS);
      orders := orders[ref := o];
    }

    method OrdersSendCancel(ref: OrderRef) returns (rej: Option<Reject>)
      requires Known(View(), ref)
      modifies `orders
      ensures (View(), rej) == OrdersSendCxl(old(View()), ref)
    {
      var o := orders[ref];
      if MAX_CXL_REJ_COUNTER < o.counters.cxlRejs {
        return Some(Reject(true, MaxCxlRejects));
      }
      if o.state == Working || o.state == Modifying {
        SetState(ref, Cancelling);
      } else {
        orders := orders[ref := o.(cancelOnAck := true)];
      }
      rej := None;
    }

    method OnCancelReject(ref: OrderRef)
      requires Known(View(), ref)
      modifies `orders
      ensures View() == OrdersOnCxlRej(old(View()), ref)
    {
      var o := orders[ref];
      o := o.(counters := o.counters.(cxlRejs := o.counters.cxlRejs + 1));
      if o.state == Cancelling {
        o := o.(state := Working);
      }
      orders := orders[ref := o];
    }

    // ---------- the wash-trade stage ----------

    /** Walks a side list for the first order that crosses, erasing the dead orders it meets on the way. */
    method GetCrossingOrder(refs: seq<OrderRef>, side: Side, price: Ticks) returns (kept: seq<OrderRef>, found: Option<OrderRef>)
      requires AllKnown(orders, refs)
      ensures (kept, found) == Scan(orders, refs, side, price)
      ensures AllKnown(orders, kept) && WashTrade.Alive(orders, kept) == WashTrade.Alive(orders, refs)
      ensures found == WashTrade.FirstCrossing(orders, WashTrade.Alive(orders, refs), side, price)
    {
      hide Scan, Meets, WashTrade.Alive, WashTrade.FirstCrossing;
      WashTrade.ScanRefinesEager(orders, refs, side, price);
      kept := refs;
      var i := 0;
      assert kept[0..] == kept && kept[..0] + Scan(orders, kept, side, price).0 == Scan(orders, kept, side, price).0;
      while i < |kept|
        invariant i <= |kept| && AllKnown(orders, kept)
        invariant Scan(orders, refs, side, price)
               == (kept[..i] + Scan(orders, kept[i..], side, price).0, Scan(orders, kept[i..], side, price).1)
        decreases |kept| - i
      {
        ScanAt(orders, kept, i, side, price);
        var o := orders[kept[i]];
        if o.state == Cancelled || o.state == Rejected || o.state == Filled {
          kept := kept[..i] + kept[i + 1..];
        } else if (o.state == Modifying && Meets(side, price, o.newPrice)) || Meets(side, price, o.price) {
          assert kept[..i] + kept[i..] == kept;
          return kept, Some(kept[i]);
        } else {
          Shift(kept, i, Scan(orders, kept[i + 1..], side, price).0);
          i := i + 1;
        }
      }
      ScanEmpty(orders, side, price);
      assert kept[i..] == [] && kept[..i] + [] == kept;
      found := None;
    }

    method CheckCrossing(ref: OrderRef, price: Ticks, q: Quote) returns (rej: Option<Reject>)
      requires Valid() && Known(View(), ref)
      modifies `lists
      ensures Valid() && (View(), rej) == CanSend(old(View()), ref, price, q)
    {
      hide Scan, QuoteOverride;
      var o := orders[ref];
      if o.terms.stopLoss {
        return None;
      }
      var i := o.terms.instrument;
      if i !in lists {
        lists := lists[i := SideLists([], [])];
      }
      ghost var l := ListsAt(old(View()), i);
      assert lists[i] == l;
      var found;
      if o.terms.side == Buy {
        var kept;
        kept, found := GetCrossingOrder(lists[i].sells, o.terms.side, price);
        lists := lists[i := lists[i].(sells := kept)];
        assert lists == old(lists)[i := l.(sells := kept)];
      } else {
        var kept;
        kept, found := GetCrossingOrder(lists[i].buys, o.terms.side, price);
        lists := lists[i := lists[i].(buys := kept)];
        assert lists == old(lists)[i := l.(buys := kept)];
      }
      if found.Some? && !QuoteOverride(config, q, orders[found.value]) {
        return Some(Reject(true, WashTrade));
      }
      rej := None;
    }

    method WtpSendNewOrder(ref: OrderRef, q: Quote) returns (rej: Option<Reject>)
      requires Valid() && Known(View(), ref)
      modifies `lists
      ensures Valid() && (View(), rej) == WtpSendNew(old(View()), ref, q)
    {
      hide CanSend;
      var o := orders[ref];
      rej := CheckCrossing(ref, o.price, q);
      if rej.Some? {
        return;
      }
      var i := o.terms.instrument;
      if i !in lists {
        lists := lists[i := SideLists([], [])];
      }
      ghost var c := CanSend(old(View()), ref, o.price, q).0;
      ghost var l := ListsAt(c, i);
      assert lists[i] == l;
      if o.terms.side == Buy {
        lists := lists[i := lists[i].(buys := lists[i].buys + [ref])];
        assert lists == c.lists[i := l.(buys := l.buys + [ref])];
      } else {
        lists := lists[i := lists[i].(sells := lists[i].sells + [ref])];
        assert lists == c.lists[i := l.(sells := l.sells + [ref])];
      }
    }

    // ---------- the risk stage ----------

    method CheckRisk(ref: OrderRef) returns (rej: Option<Reject>)
      requires Known(View(), ref)
      modifies `accounts
      ensures rej == RiskSendNew(old(View()), ref)
      ensures forall k :: At(accounts, k) == At(old(accounts), k)
      ensures (orders[ref].terms.account, orders[ref].terms.instrument) in old(accounts) ==> accounts == old(accounts)
    {
      var t := orders[ref].terms;
      if t.account != config.account {
        return Some(Reject(true, AccountNotConfigured));
      }
      if !config.tradeEnabled {
        return Some(Reject(true, AccountDisabled));
      }
      if t.instrument !in config.params {
        return Some(Reject(true, SymbolNotConfigured));
      }
      var p := config.params[t.instrument];
      if !p.tradeEnabled {
        return Some(Reject(true, SymbolDisabled));
      }
      if t.qty > p.clipSize {
        return Some(Reject(true, ClipSize));
      }
      var v := TouchAccount(t.account, t.instrument);
      var size := 0;
      match t.side {
        case Buy => size := v.pos + v.bids;
        case Sell => size := -v.pos + v.asks;
        case NoSide => return Some(Reject(true, InvalidSide));
      }
      if size > p.maxPos {
        return Some(Reject(true, MaxPos));
      }
      rej := None;
    }

    // ---------- the exchange channel ----------

    method ChannelCheckNew(ref: OrderRef, env: Env) returns (rej: Option<Reject>)
      requires Known(View(), ref)
      ensures rej == ChannelSendNew(View(), ref, env)
    {
      var t := orders[ref].terms;
      if !t.kind.Limit? || t.side == NoSide {
        return Some(Reject(true, ChannelKind));
      }
      if !env.loggedOn {
        return Some(Reject(true, ConnectionDown));
      }
      if !env.sendOk {
        return Some(Reject(false, ChannelFailure));
      }
      rej := None;
    }

    method ChannelCheckRequest(ref: OrderRef, mod: bool, env: Env) returns (rej: Option<Reject>)
      requires Known(View(), ref)
      ensures rej == ChannelSendRequest(View(), ref, mod, env)
    {
      var o := orders[ref];
      if !env.loggedOn {
        return Some(Reject(true, ConnectionDown));
      }
      if !mod && o.cancelOnAck {
        return None;
      }
      if (mod && !o.terms.kind.Limit?) || o.terms.side == NoSide {
        return Some(Reject(true, ChannelKind));
      }
      if !env.sendOk {
        return Some(Reject(false, ChannelFailure));
      }
      rej := None;
    }

    // ---------- the chain ----------

    /** The chain behind the order table; the account's entry exists because the table has just posted to it. */
    method SendNewInner(ref: OrderRef, env: Env) returns (rej: Option<Reject>)
      requires Valid() && Known(View(), ref)
      requires (orders[ref].terms.account, orders[ref].terms.instrument) in accounts
      modifies `lists, `accounts
      ensures Valid() && (View(), rej) == SendNewFromThrottle(old(View()), ref, env)
    {
      hide WtpSendNew, RiskSendNew, ChannelSendNew, At;
      if !env.throttleOk {
        return Some(Reject(true, Throttled));
      }
      rej := WtpSendNewOrder(ref, env.quote);
      if rej.Some? {
        return;
      }
      rej := CheckRisk(ref);
      if rej.Some? {
        return;
      }
      if !env.pnlOk {
        return Some(Reject(true, LossLimit));
      }
      rej := ChannelCheckNew(ref, env);
    }

    method SendNewOrder(ref: OrderRef, env: Env) returns (rej: Option<Reject>)
      requires Valid() && Known(View(), ref)
      modifies this
      ensures Valid() && (View(), rej) == SendNew(old(View()), ref, env)
      ensures var o := old(orders)[ref];
              rej.Some? && o.state == Unknown && Validate(old(View()), o).None?
              ==> orders == old(orders)[ref := o.(state := Rejected)] && table == old(table) && Rollback.SameBooks(old(View()), View())
      ensures var o := old(orders)[ref];
              o.cumQty == 0 && ref !in WashTradeVerdict.OppositeList(old(View()), o.terms)
              ==> (rej.None? <==> Acceptance.Acceptable(old(View()), ref, env))
    {
      hide OrdersSendNew, OrdersOnNewRej, SendNewFromThrottle, CountMsg, UncountMsg, Validate, Rollback.SameBooks,
           Acceptance.Acceptable, WashTradeVerdict.OppositeList;
      NewLaws(View(), ref, env);
      CountMessage(ref, MsgNew, 1);
      ghost var m := View();
      rej := OrdersSendNewOrder(ref);
      if rej.None? {
        EntryExists(m, ref);
        rej := SendNewInner(ref, env);
        if rej.Some? {
          OnNewReject(ref);
        }
      }
      if rej.Some? {
        UncountMessage(ref, MsgNew, rej.value);
      }
    }

    method SendModInner(ref: OrderRef, env: Env) returns (rej: Option<Reject>)
      requires Valid() && Known(View(), ref)
      modifies `lists
      ensures Valid() && (View(), rej) == SendModFromThrottle(old(View()), ref, env)
    {
      hide CanSend, ChannelSendRequest;
      if !env.throttleOk {
        return Some(Reject(true, Throttled));
      }
      rej := CheckCrossing(ref, orders[ref].newPrice, env.quote);
      if rej.Some? {
        return;
      }
      rej := ChannelCheckRequest(ref, true, env);
    }

    method SendModify(ref: OrderRef, newPrice: Ticks, env: Env) returns (rej: Option<Reject>)
      requires Valid() && Known(View(), ref)
      modifies this
      ensures Valid() && (View(), rej) == SendMod(old(View()), ref, newPrice, env)
    {
      hide OrdersSendMod, OrdersOnModRej, SendModFromThrottle, CountMsg, UncountMsg, OnModPost, ByOrders;
      orders := orders[ref := orders[ref].(newPrice := newPrice)];
      CountMessage(ref, MsgMod, 1);
      rej := OrdersSendModify(ref);
      if rej.None? {
        rej := SendModInner(ref, env);
        if rej.Some? {
          CountModReject(ref);
        }
      }
      if rej.Some? {
        UncountMessage(ref, MsgMod, rej.value);
        if ByOrders(rej.value) {
          CountModReject(ref);
          orders := orders[ref := orders[ref].(newPrice := INVALID_TICKS)];
        } else {
          CloseModify(ref, false);
        }
      }
    }

    method SendCancel(ref: OrderRef, env: Env) returns (rej: Option<Reject>)
      requires Known(View(), ref)
      modifies `orders, `messages
      ensures (View(), rej) == SendCxl(old(View()), ref, env)
    {
      hide OrdersSendCxl, OrdersOnCxlRej, ChannelSendRequest, CountMsg, UncountMsg;
      if orders[ref].state == Cancelling {
        return None;
      }
      CountMessage(ref, MsgCxl, 1);
      rej := OrdersSendCancel(ref);
      if rej.None? {
        if !env.throttleOk {
          rej := Some(Reject(true, Throttled));
        } else {
          rej := ChannelCheckRequest(ref, false, env);
        }
        if rej.Some? {
          OnCancelReject(ref);
        }
      }
      if rej.Some? {
        UncountMessage(ref, MsgCxl, rej.value);
      }
    }

    // ---------- responses ----------

    method CheckCancelOnAck(ref: OrderRef, env: Env)
      requires Known(View(), ref)
      modifies `orders, `messages
      ensures View() == CancelOnAck(old(View()), ref, env)
    {
      hide SendCxl;
      if orders[ref].cancelOnAck {
        orders := orders[ref := orders[ref].(cancelOnAck := false)];
        var _ := SendCancel(ref, env);
      }
    }

    method OnNewAcknowledged(ref: OrderRef, env: Env)
      requires Known(View(), ref)
      modifies `orders, `messages
      ensures View() == OnNewAck(old(View()), ref, env)
    {
      hide CancelOnAck;
      if orders[ref].state == Pending {
        SetState(ref, Working);
      }
      CheckCancelOnAck(ref, env);
    }

    method OnModAcknowledged(ref: OrderRef, price: Ticks, env: Env)
      requires Known(View(), ref)
      modifies `orders, `messages
      ensures View() == OnModAck(old(View()), ref, price, env)
    {
      hide CancelOnAck, OnModPost;
      orders := orders[ref := orders[ref].(newPrice := price, counters := orders[ref].counters.(modRejs := 0))];
      CloseModify(ref, true);
      CheckCancelOnAck(ref, env);
    }

    method OnModRejected(ref: OrderRef, env: Env)
      requires Known(View(), ref)
      modifies `orders, `messages
      ensures View() == OnModRej(old(View()), ref, env)
    {
      hide CancelOnAck, OnModPost, OrdersOnModRej;
      CountModReject(ref);
      CloseModify(ref, false);
      CheckCancelOnAck(ref, env);
    }

    method OnCancelled(ref: OrderRef)
      requires Known(View(), ref)
      modifies `orders, `accounts, `strategies, `table
      ensures View() == OnCxlAck(old(View()), ref)
    {
      hide Remove;
      SetState(ref, Cancelled);
      RemoveOrder(ref);
    }

    method OnFilled(ref: OrderRef, q: int)
      requires Known(View(), ref)
      modifies `orders, `accounts, `strategies, `table
      ensures View() == OnFill(old(View()), ref, q)
    {
      hide Remove, PostTerms, OpenDelta, TradeDelta, Plus;
      var o := orders[ref];
      if o.state == Filled {
        return;
      }
      orders := orders[ref := o.(cumQty := o.cumQty + q)];
      if o.terms.qty <= orders[ref].cumQty {
        SetState(ref, Filled);
        assert View() == SetOrder(old(View()), ref, o.(cumQty := o.cumQty + q, state := Filled));
        RemoveOrder(ref);
      }
      ChangePosCounts(ref, q, false);
    }

    method OnBusted(ref: OrderRef, q: int)
      requires Known(View(), ref)
      modifies `orders, `accounts, `strategies
      ensures View() == OnBust(old(View()), ref, q)
    {
      hide PostTerms, OpenDelta, TradeDelta, Plus;
      var o := orders[ref];
      orders := orders[ref := o.(cumQty := o.cumQty - q)];
      if o.state == Filled {
        SetState(ref, Working);
      }
      assert View() == SetOrder(old(View()), ref, o.(cumQty := o.cumQty - q, state := if o.state == Filled then Working else o.state));
      ChangePosCounts(ref, q, true);
    }

    method CreateOrder(terms: Terms, price: Ticks) returns (ref: OrderRef)
      modifies `orders
      ensures View() == old(View()).(orders := old(orders) + [Fresh(terms, price)]) && ref == |old(orders)|
    {
      ref := |orders|;
      orders := orders + [Fresh(terms, price)];
    }

    method RecordExternalFill(account: AccountId, strategy: StrategyId, instrument: InstrumentId, side: Side, q: int)
      modifies `accounts, `strategies
      ensures View() == old(View()).(ledger := Post(old(View()).ledger, account, strategy, instrument, TradeDelta(side, q)))
    {
      hide Post;
      match side {
        case Buy => Move(account, strategy, instrument, 0, 0, q);
        case Sell => Move(account, strategy, instrument, 0, 0, -q);
        case NoSide => Move(account, strategy, instrument, 0, 0, 0);
      }
    }

    method RebuildPosition(account: AccountId, strategy: StrategyId, instrument: InstrumentId, n: int)
      modifies `accounts, `strategies
      ensures View() == if instrument in config.instruments
                        then old(View()).(ledger := Post(old(View()).ledger, account, strategy, instrument, OpenPos(0, 0, n)))
                        else old(View())
    {
      if instrument in config.instruments {
        Move(account, strategy, instrument, 0, 0, n);
      }
    }

    /** The rebuilt order enters table and counts; the channel then refuses what is not live, and the table step is undone. */
    method RebuildStoredOrder(o: Order)
      modifies `orders, `table, `accounts, `strategies
      ensures View() == RebuildOrder(old(View()), o)
    {
      hide PostTerms, OpenDelta;
      if o.terms.id in table {
        return;
      }
      ghost var before := View();
      var ref := |orders|;
      orders := orders + [o];
      table := table[o.terms.id := ref];
      if o.terms.instrument !in config.instruments {
        return;
      }
      ChangeOpenOrdersCounts(ref, true);
      if !Live(o.state) {
        RemoveOrder(ref);
        orders := orders[..ref];
        assert orders == before.orders && table == before.table;
      }
    }

    /** One event, dispatched as the strategy container does. */
    method Dispatch(e: Event)
      requires Valid()
      modifies this
      ensures Valid() && View() == Step(old(View()), e)
    {
      hide SendNew, SendMod, SendCxl, OnNewAck, OnModAck, OnModRej, OrdersOnCxlRej, OrdersOnNewRej, OnCxlAck,
           OnFill, OnBust, RebuildOrder, Post, TradeDelta;
      if !(e.Create? || e.ExternalFill? || e.Rebuild? || e.RebuildPos?) && e.ref >= |orders| {
        return;
      }
      match e {
        case Create(terms, price) => var _ := CreateOrder(terms, price);
        case New(ref, env) => var _ := SendNewOrder(ref, env);
        case Mod(ref, p, env) => var _ := SendModify(ref, p, env);
        case Cxl(ref, env) => var _ := SendCancel(ref, env);
        case NewAck(ref, env) => OnNewAcknowledged(ref, env);
        case NewRej(ref) => OnNewReject(ref);
        case ModAck(ref, p, env) => OnModAcknowledged(ref, p, env);
        case ModRej(ref, env) => OnModRejected(ref, env);
        case CxlAck(ref) => OnCancelled(ref);
        case CxlRej(ref) => OnCancelReject(ref);
        case Fill(ref, q) => OnFilled(ref, q);
        case Bust(ref, q) => OnBusted(ref, q);
        case ExternalFill(a, st, i, side, q) => RecordExternalFill(a, st, i, side, q);
        case Rebuild(o) => RebuildStoredOrder(o);
        case RebuildPos(a, st, i, n) => RebuildPosition(a, st, i, n);
      }
    }

    /**
      One event and what it keeps: counts and table exact iff it is tidy and clean, account and strategy totals in step,
      exposure within the limit or where it was plus the overrun, lots conserved, every order on its way through the states.
     */
    method Handle(e: Event)
      requires Valid()
      modifies this
      ensures Valid() && View() == Step(old(View()), e)
      ensures Counts.Exact(old(View())) ==> (Counts.Exact(View()) <==> Counts.Tidy(old(View()), e))
      ensures TableLaw.TableExact(old(View())) ==> (TableLaw.TableExact(View()) <==> TableLaw.Clean(old(View()), e))
      ensures forall i :: Views.InStep(old(View()).ledger, i) ==> Views.InStep(View().ledger, i)
      ensures forall side: Side, i: InstrumentId :: side != NoSide && i in config.params ==>
                Exposure(View(), side, i)
                <= Limits.Max(Exposure(old(View()), side, i), config.params[i].maxPos) + Limits.Overrun(old(View()), e, side, i)
      ensures forall w: Owner, i: InstrumentId ::
                Held(View().ledger, w, i).pos - Conservation.TradedSum(orders, w, i)
                == Held(old(View()).ledger, w, i).pos - Conservation.TradedSum(old(orders), w, i) + Conservation.Outside(old(View()), e, w, i)
      ensures forall k :: 0 <= k < |old(orders)| ==> k < |orders| && Lifecycle.LegalAt(old(View()), View(), e, k)
    {
      hide Step, Exposure, Held, Counts.Exact, Counts.Tidy, TableLaw.TableExact, TableLaw.Clean, Views.InStep, Limits.Overrun, Limits.Max,
           Conservation.TradedSum, Conservation.Outside, Lifecycle.LegalAt;
      StepLaws(View(), e);
      Dispatch(e);
    }
  }
}
