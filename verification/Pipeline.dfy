/**
  The order path as a state machine: the stages of the outbound chain
  (messaging counters, order table, throttle, wash-trade prevention, risk, PnL, exchange channel),
  the handlers of exchange responses, and one step per event.
 */
module Pipeline {
  import opened OrderTypes

  // ---------- configuration and state ----------

  datatype RiskParams = RiskParams(tradeEnabled: bool, clipSize: int, maxPos: int)

  datatype Config = Config(
    account: AccountId, tradeEnabled: bool, params: map<InstrumentId, RiskParams>,
    instruments: map<InstrumentId, string>, useQuotes: bool)

  /** Messages sent for one (symbol, account), the exchange's messaging-policy counters. */
  datatype MsgCounts = MsgCounts(news: int, mods: int, cxls: int)
  datatype MsgKind = MsgNew | MsgMod | MsgCxl

  /** The wash-trade lists of one instrument, in arrival order. */
  datatype SideLists = SideLists(buys: seq<OrderRef>, sells: seq<OrderRef>)

  datatype State = State(
    config: Config,
    orders: seq<Order>,
    table: map<OrderId, OrderRef>,
    ledger: Ledger,
    lists: map<InstrumentId, SideLists>,
    messages: map<(string, AccountId), MsgCounts>)

  function Initial(config: Config): State {
    State(config, [], map[], Ledger(map[], map[]), map[], map[])
  }

  datatype Reject = Reject(internal: bool, reason: Reason)
  datatype Reason =
    InvalidState | InvalidQty | InvalidPrice | DuplicateId | SamePrice | MaxModRejects | MaxMods | MaxCxlRejects
    | WashTrade | AccountNotConfigured | AccountDisabled | SymbolNotConfigured | SymbolDisabled | ClipSize
    | InvalidSide | MaxPos | Throttled | LossLimit | ConnectionDown | ChannelKind | ChannelFailure | Exchange

  /** The rejects that carry the order table's own sub-type. */
  predicate ByOrders(r: Reject) {
    r.internal && (r.reason in {InvalidState, InvalidQty, InvalidPrice, DuplicateId, SamePrice,
                                MaxModRejects, MaxMods, MaxCxlRejects})
  }

  datatype Quote = Quote(trade: Ticks, bid: Ticks, ask: Ticks)

  /** Answers of the parts outside the model to one outbound request. */
  datatype Env = Env(throttleOk: bool, quote: Quote, pnlOk: bool, loggedOn: bool, sendOk: bool)

  type Outcome = (State, Option<Reject>)

  // ---------- small state updates ----------

  predicate Known(s: State, ref: OrderRef) {
    ref < |s.orders|
  }

  /** The configuration and the wash-trade lists are as they were, and no order has gone. */
  predicate Framed(s: State, r: State) {
    r.config == s.config && r.lists == s.lists && |s.orders| <= |r.orders|
  }

  function SetOrder(s: State, ref: OrderRef, o: Order): (r: State)
    requires Known(s, ref)
    ensures Framed(s, r) && |r.orders| == |s.orders|
  {
    s.(orders := s.orders[ref := o])
  }

  function PostOrder(s: State, t: Terms, d: OpenPos): (r: State)
    ensures r == s.(ledger := r.ledger)
  {
    s.(ledger := PostTerms(s.ledger, t, d))
  }

  /** Takes an order out of the open counts and out of the table. */
  function Remove(s: State, ref: OrderRef): (r: State)
    requires Known(s, ref)
    ensures Framed(s, r) && r.orders == s.orders
  {
    var o := s.orders[ref];
    PostOrder(s, o.terms, OpenDelta(o.terms.side, -o.Rem())).(table := s.table - {o.terms.id})
  }

  // ---------- messaging counters ----------

  function MsgDelta(c: MsgCounts, kind: MsgKind, n: int): MsgCounts {
    match kind
    case MsgNew => c.(news := c.news + n)
    case MsgMod => c.(mods := c.mods + n)
    case MsgCxl => c.(cxls := c.cxls + n)
  }

  function MsgAt(m: map<(string, AccountId), MsgCounts>, k: (string, AccountId)): MsgCounts {
    if k in m then m[k] else MsgCounts(0, 0, 0)
  }

  function CountMsg(s: State, ref: OrderRef, kind: MsgKind, n: int): (r: State)
    requires Known(s, ref)
    ensures r == s.(messages := r.messages)
  {
    var o := s.orders[ref];
    if o.terms.instrument !in s.config.instruments then s else
    var k := (s.config.instruments[o.terms.instrument], o.terms.account);
    s.(messages := s.messages[k := MsgDelta(MsgAt(s.messages, k), kind, n)])
  }

  /** The counter goes back only when the request never left the process. */
  function UncountMsg(s: State, ref: OrderRef, kind: MsgKind, rej: Reject): (r: State)
    requires Known(s, ref)
    ensures r == s.(messages := r.messages)
  {
    if rej.internal then CountMsg(s, ref, kind, -1) else s
  }

  // ---------- the order-table stage ----------

  const MAX_MOD_COUNTER := 5
  const MAX_MOD_REJ_COUNTER := 5
  const MAX_CXL_REJ_COUNTER := 5

  /** Why a fresh order is refused before it enters the table. */
  function Validate(s: State, o: Order): Option<Reject> {
    if o.terms.qty <= 0 then Some(Reject(true, InvalidQty))
    else if o.terms.kind.Limit? && !ValidTicks(o.price) then Some(Reject(true, InvalidPrice))
    else if o.terms.id in s.table then Some(Reject(true, DuplicateId))
    else None
  }

  function OrdersSendNew(s: State, ref: OrderRef): (r: Outcome)
    requires Known(s, ref)
    ensures Framed(s, r.0) && |r.0.orders| == |s.orders|
  {
    var o := s.orders[ref];
    if o.state != Unknown then (s, Some(Reject(true, InvalidState))) else
    var p := SetOrder(s, ref, o.(state := Pending));
    match Validate(s, o)
    case Some(rej) => (OrdersOnNewRej(p, ref), Some(rej))
    case None =>
      (PostOrder(p, o.terms, OpenDelta(o.terms.side, o.Rem())).(table := s.table[o.terms.id := ref]), None)
  }

  function OrdersOnNewRej(s: State, ref: OrderRef): (r: State)
    requires Known(s, ref)
    ensures Framed(s, r) && |r.orders| == |s.orders|
  {
    var o := s.orders[ref];
    if o.state != Pending && o.state != Unknown then s
    else Remove(SetOrder(s, ref, o.(state := Rejected)), ref)
  }

  function OrdersSendMod(s: State, ref: OrderRef): (r: Outcome)
    requires Known(s, ref)
    ensures Framed(s, r.0) && |r.0.orders| == |s.orders|
  {
    var o := s.orders[ref];
    if !ValidTicks(o.newPrice) then (s, Some(Reject(true, InvalidPrice)))
    else if o.newPrice == o.price then (s, Some(Reject(true, SamePrice)))
    else if MAX_MOD_REJ_COUNTER < o.counters.modRejs then (s, Some(Reject(true, MaxModRejects)))
    else if o.state == Working || o.state == Modifying then
      // the state changes before the counter is checked
      if MAX_MOD_COUNTER < o.counters.mods + 1
      then (SetOrder(s, ref, o.(state := Modifying)), Some(Reject(true, MaxMods)))
      else (SetOrder(s, ref, o.(state := Modifying, counters := o.counters.(mods := o.counters.mods + 1))), None)
    else (s, Some(Reject(true, InvalidState)))
  }

  function OrdersOnModRej(s: State, ref: OrderRef): (r: State)
    requires Known(s, ref)
    ensures Framed(s, r) && |r.orders| == |s.orders|
  {
    var o := s.orders[ref];
    SetOrder(s, ref, o.(counters := o.counters.(modRejs := o.counters.modRejs + 1)))
  }

  /** Unsigned 32-bit decrement. */
  function Dec32(n: nat): nat {
    if n == 0 then 0xFFFF_FFFF else n - 1
  }

  /** Closes one modify request; a modify answered in another state is ignored. */
  function OnModPost(s: State, ref: OrderRef, updatePrice: bool): (r: State)
    requires Known(s, ref)
    ensures Framed(s, r) && |r.orders| == |s.orders|
  {
    var o := s.orders[ref];
    if o.state != Modifying then s else
    SetOrder(s, ref, o.(counters := o.counters.(mods := Dec32(o.counters.mods)),
                        state := if Dec32(o.counters.mods) == 0 then Working else Modifying,
                        price := if updatePrice then o.newPrice else o.price,
                        newPrice := INVALID_TICKS))
  }

  function OrdersSendCxl(s: State, ref: OrderRef): (r: Outcome)
    requires Known(s, ref)
    ensures Framed(s, r.0) && |r.0.orders| == |s.orders|
  {
    var o := s.orders[ref];
    if MAX_CXL_REJ_COUNTER < o.counters.cxlRejs then (s, Some(Reject(true, MaxCxlRejects)))
    else if o.state == Working || o.state == Modifying then (SetOrder(s, ref, o.(state := Cancelling)), None)
    else (SetOrder(s, ref, o.(cancelOnAck := true)), None)
  }

  function OrdersOnCxlRej(s: State, ref: OrderRef): (r: State)
    requires Known(s, ref)
    ensures Framed(s, r) && |r.orders| == |s.orders|
  {
    var o := s.orders[ref];
    SetOrder(s, ref, o.(counters := o.counters.(cxlRejs := o.counters.cxlRejs + 1),
                        state := if o.state == Cancelling then Working else o.state))
  }

  // ---------- wash-trade prevention ----------

  /** Would a taker on `side` at `price` trade with a maker resting at `maker`? */
  predicate Meets(side: Side, price: Ticks, maker: Ticks) {
    ValidTicks(maker) && if side == Buy then price >= maker else price <= maker
  }

  /** The prices wash-trade prevention holds against an order: its price, and the requested one while modifying. */
  predicate Crossing(o: Order, side: Side, price: Ticks) {
    (o.state == Modifying && Meets(side, price, o.newPrice)) || Meets(side, price, o.price)
  }

  predicate Dead(st: OrderState) {
    st.Cancelled? || st.Rejected? || st.Filled?
  }

  predicate AllKnown(orders: seq<Order>, refs: seq<OrderRef>) {
    forall i :: 0 <= i < |refs| ==> refs[i] < |orders|
  }

  /** The scan of one side list: drops the dead orders it passes, stops at the first order that crosses. */
  function Scan(orders: seq<Order>, refs: seq<OrderRef>, side: Side, price: Ticks): (r: (seq<OrderRef>, Option<OrderRef>))
    requires AllKnown(orders, refs)
    ensures AllKnown(orders, r.0)
    ensures forall x :: x in r.0 ==> x in refs
    ensures r.1.Some? ==> r.1.value in refs
  {
    if refs == [] then ([], None)
    else if Dead(orders[refs[0]].state) then Scan(orders, refs[1..], side, price)
    else if Crossing(orders[refs[0]], side, price) then (refs, Some(refs[0]))
    else
      var rest := Scan(orders, refs[1..], side, price);
      ([refs[0]] + rest.0, rest.1)
  }

  predicate AtBestPrice(quote: Ticks, price: Ticks, side: Side) {
    !ValidTicks(quote) || !ValidTicks(price) || side == NoSide
    || !((side == Buy && price < quote) || (side == Sell && price > quote))
  }

  /** With quotes in use, a crossing order away from both the last trade and the best quote is let through. */
  predicate QuoteOverride(config: Config, q: Quote, o: Order) {
    var p := if o.state == Modifying && ((o.terms.side == Buy && o.newPrice > o.price) || (o.terms.side == Sell && o.newPrice < o.price))
             then o.newPrice else o.price;
    config.useQuotes && !AtBestPrice(q.trade, p, o.terms.side) && !AtBestPrice(if o.terms.side == Buy then q.bid else q.ask, p, o.terms.side)
  }

  function ListsAt(s: State, i: InstrumentId): SideLists {
    if i in s.lists then s.lists[i] else SideLists([], [])
  }

  /** Every list entry is an order of the pool. */
  ghost predicate ListsKnown(s: State) {
    forall i :: i in s.lists ==> AllKnown(s.orders, s.lists[i].buys) && AllKnown(s.orders, s.lists[i].sells)
  }

  function CanSend(s: State, ref: OrderRef, price: Ticks, q: Quote): (r: Outcome)
    requires Known(s, ref) && ListsKnown(s)
    ensures r.0 == s.(lists := r.0.lists) && ListsKnown(r.0)
  {
    var o := s.orders[ref];
    if o.terms.stopLoss then (s, None) else
    var l := ListsAt(s, o.terms.instrument);
    var scan := Scan(s.orders, if o.terms.side == Buy then l.sells else l.buys, o.terms.side, price);
    var l' := if o.terms.side == Buy then l.(sells := scan.0) else l.(buys := scan.0);
    (s.(lists := s.lists[o.terms.instrument := l']),
     if scan.1.Some? && !QuoteOverride(s.config, q, s.orders[scan.1.value]) then Some(Reject(true, WashTrade)) else None)
  }

  function WtpSendNew(s: State, ref: OrderRef, q: Quote): (r: Outcome)
    requires Known(s, ref) && ListsKnown(s)
    ensures r.0 == s.(lists := r.0.lists) && ListsKnown(r.0)
  {
    var o := s.orders[ref];
    var c := CanSend(s, ref, o.price, q);
    if c.1.Some? then c else
    var l := ListsAt(c.0, o.terms.instrument);
    var l' := if o.terms.side == Buy then l.(buys := l.buys + [ref]) else l.(sells := l.sells + [ref]);
    (c.0.(lists := c.0.lists[o.terms.instrument := l']), None)
  }

  // ---------- risk ----------

  function RiskSendNew(s: State, ref: OrderRef): Option<Reject>
    requires Known(s, ref)
  {
    var o := s.orders[ref];
    if o.terms.account != s.config.account then Some(Reject(true, AccountNotConfigured))
    else if !s.config.tradeEnabled then Some(Reject(true, AccountDisabled))
    else if o.terms.instrument !in s.config.params then Some(Reject(true, SymbolNotConfigured))
    else
      var p := s.config.params[o.terms.instrument];
      if !p.tradeEnabled then Some(Reject(true, SymbolDisabled))
      else if o.terms.qty > p.clipSize then Some(Reject(true, ClipSize))
      else if o.terms.side == NoSide then Some(Reject(true, InvalidSide))
      else if Exposure(s, o.terms.side, o.terms.instrument) > p.maxPos then Some(Reject(true, MaxPos))
      else None
  }

  /** The position the account would reach if every open order of one side were filled. */
  function Exposure(s: State, side: Side, i: InstrumentId): int {
    var p := At(s.ledger.accounts, (s.config.account, i));
    if side == Buy then p.pos + p.bids else -p.pos + p.asks
  }

  /** The pre-trade query a strategy may ask before it sends. */
  predicate CanSendRisk(s: State, account: AccountId, i: InstrumentId, qty: int, side: Side) {
    && account == s.config.account && s.config.tradeEnabled
    && i in s.config.params && s.config.params[i].tradeEnabled
    && qty <= s.config.params[i].clipSize && side != NoSide
    && Exposure(s, side, i) + qty <= s.config.params[i].maxPos
  }

  // ---------- the exchange channel ----------

  function ChannelSendNew(s: State, ref: OrderRef, env: Env): Option<Reject>
    requires Known(s, ref)
  {
    var o := s.orders[ref];
    if !o.terms.kind.Limit? || o.terms.side == NoSide then Some(Reject(true, ChannelKind))
    else if !env.loggedOn then Some(Reject(true, ConnectionDown))
    else if !env.sendOk then Some(Reject(false, ChannelFailure))
    else None
  }

  /** Modify and cancel requests check the session before they translate the order. */
  function ChannelSendRequest(s: State, ref: OrderRef, mod: bool, env: Env): Option<Reject>
    requires Known(s, ref)
  {
    var o := s.orders[ref];
    if !env.loggedOn then Some(Reject(true, ConnectionDown))
    else if !mod && o.cancelOnAck then None
    else if (mod && !o.terms.kind.Limit?) || o.terms.side == NoSide then Some(Reject(true, ChannelKind))
    else if !env.sendOk then Some(Reject(false, ChannelFailure))
    else None
  }

  // ---------- the outbound chain, outermost stage first ----------

  function SendNew(s: State, ref: OrderRef, env: Env): (r: Outcome)
    requires Known(s, ref) && ListsKnown(s)
    ensures |r.0.orders| == |s.orders| && r.0.config == s.config && ListsKnown(r.0)
  {
    var r := SendNewFromOrders(CountMsg(s, ref, MsgNew, 1), ref, env);
    match r.1
    case None => r
    case Some(rej) => (UncountMsg(r.0, ref, MsgNew, rej), r.1)
  }

  function SendNewFromOrders(s: State, ref: OrderRef, env: Env): (r: Outcome)
    requires Known(s, ref) && ListsKnown(s)
    ensures |r.0.orders| == |s.orders| && r.0.config == s.config && ListsKnown(r.0)
  {
    var a := OrdersSendNew(s, ref);
    if a.1.Some? then a else
    var r := SendNewFromThrottle(a.0, ref, env);
    if r.1.Some? then (OrdersOnNewRej(r.0, ref), r.1) else r
  }

  /** From the throttle on, only the wash-trade lists change; a reject there has nothing to undo. */
  function SendNewFromThrottle(s: State, ref: OrderRef, env: Env): (r: Outcome)
    requires Known(s, ref) && ListsKnown(s)
    ensures r.0 == s.(lists := r.0.lists) && ListsKnown(r.0)
  {
    if !env.throttleOk then (s, Some(Reject(true, Throttled))) else
    var w := WtpSendNew(s, ref, env.quote);
    if w.1.Some? then w
    else if RiskSendNew(w.0, ref).Some? then (w.0, RiskSendNew(w.0, ref))
    else if !env.pnlOk then (w.0, Some(Reject(true, LossLimit)))
    else (w.0, ChannelSendNew(w.0, ref, env))
  }

  function SendModFromOrders(s: State, ref: OrderRef, env: Env): (r: Outcome)
    requires Known(s, ref) && ListsKnown(s)
    ensures |r.0.orders| == |s.orders| && r.0.config == s.config && ListsKnown(r.0)
  {
    var a := OrdersSendMod(s, ref);
    if a.1.Some? then a else
    var r := SendModFromThrottle(a.0, ref, env);
    if r.1.Some? then (OrdersOnModRej(r.0, ref), r.1) else r
  }

  /** Risk and PnL let every modify through. */
  function SendModFromThrottle(s: State, ref: OrderRef, env: Env): (r: Outcome)
    requires Known(s, ref) && ListsKnown(s)
    ensures r.0 == s.(lists := r.0.lists) && ListsKnown(r.0)
  {
    if !env.throttleOk then (s, Some(Reject(true, Throttled))) else
    var w := CanSend(s, ref, s.orders[ref].newPrice, env.quote);
    if w.1.Some? then w else (w.0, ChannelSendRequest(w.0, ref, true, env))
  }

  /** The client writes the requested price into the order, then sends; a refusal is closed at once. */
  function SendMod(s: State, ref: OrderRef, newPrice: Ticks, env: Env): (r: Outcome)
    requires Known(s, ref) && ListsKnown(s)
    ensures |r.0.orders| == |s.orders| && r.0.config == s.config && ListsKnown(r.0)
  {
    var p := SetOrder(s, ref, s.orders[ref].(newPrice := newPrice));
    var r := SendModFromOrders(CountMsg(p, ref, MsgMod, 1), ref, env);
    match r.1
    case None => r
    case Some(rej) =>
      var u := UncountMsg(r.0, ref, MsgMod, rej);
      (OnModRejPost(if ByOrders(rej) then OrdersOnModRej(u, ref) else u, ref, rej), r.1)
  }

  function OnModRejPost(s: State, ref: OrderRef, rej: Reject): (r: State)
    requires Known(s, ref)
    ensures Framed(s, r) && |r.orders| == |s.orders|
  {
    if ByOrders(rej) then SetOrder(s, ref, s.orders[ref].(newPrice := INVALID_TICKS))
    else OnModPost(s, ref, false)
  }

  function SendCxl(s: State, ref: OrderRef, env: Env): (r: Outcome)
    requires Known(s, ref)
    ensures Framed(s, r.0) && |r.0.orders| == |s.orders|
  {
    if s.orders[ref].state == Cancelling then (s, None) else
    var r := SendCxlFromOrders(CountMsg(s, ref, MsgCxl, 1), ref, env);
    match r.1
    case None => r
    case Some(rej) => (UncountMsg(r.0, ref, MsgCxl, rej), r.1)
  }

  function SendCxlFromOrders(s: State, ref: OrderRef, env: Env): (r: Outcome)
    requires Known(s, ref)
    ensures Framed(s, r.0) && |r.0.orders| == |s.orders|
  {
    var a := OrdersSendCxl(s, ref);
    if a.1.Some? then a else
    var rej := if !env.throttleOk then Some(Reject(true, Throttled)) else ChannelSendRequest(a.0, ref, false, env);
    if rej.Some? then (OrdersOnCxlRej(a.0, ref), rej) else (a.0, None)
  }

  // ---------- responses ----------

  /** A cancel asked for too early goes out with the next answer to the order. */
  function CancelOnAck(s: State, ref: OrderRef, env: Env): (r: State)
    requires Known(s, ref)
    ensures Framed(s, r) && |r.orders| == |s.orders|
  {
    if s.orders[ref].cancelOnAck
    then SendCxl(SetOrder(s, ref, s.orders[ref].(cancelOnAck := false)), ref, env).0
    else s
  }

  function OnNewAck(s: State, ref: OrderRef, env: Env): (r: State)
    requires Known(s, ref)
    ensures Framed(s, r) && |r.orders| == |s.orders|
  {
    var o := s.orders[ref];
    CancelOnAck(if o.state == Pending then SetOrder(s, ref, o.(state := Working)) else s, ref, env)
  }

  function OnModAck(s: State, ref: OrderRef, price: Ticks, env: Env): (r: State)
    requires Known(s, ref)
    ensures Framed(s, r) && |r.orders| == |s.orders|
  {
    var o := s.orders[ref];
    var t := SetOrder(s, ref, o.(newPrice := price, counters := o.counters.(modRejs := 0)));
    CancelOnAck(OnModPost(t, ref, true), ref, env)
  }

  function OnModRej(s: State, ref: OrderRef, env: Env): (r: State)
    requires Known(s, ref)
    ensures Framed(s, r) && |r.orders| == |s.orders|
  {
    CancelOnAck(OnModPost(OrdersOnModRej(s, ref), ref, false), ref, env)
  }

  function OnCxlAck(s: State, ref: OrderRef): (r: State)
    requires Known(s, ref)
    ensures Framed(s, r) && |r.orders| == |s.orders|
  {
    Remove(SetOrder(s, ref, s.orders[ref].(state := Cancelled)), ref)
  }

  /** A normal fill of q lots; ignored on an order that is already filled. */
  function OnFill(s: State, ref: OrderRef, q: int): (r: State)
    requires Known(s, ref)
    ensures Framed(s, r) && |r.orders| == |s.orders|
  {
    var o := s.orders[ref];
    if o.state == Filled then s else
    var c := o.(cumQty := o.cumQty + q);
    var t := if o.terms.qty <= o.cumQty + q then Remove(SetOrder(s, ref, c.(state := Filled)), ref)
             else SetOrder(s, ref, c);
    PostOrder(t, o.terms, Plus(OpenDelta(o.terms.side, -q), TradeDelta(o.terms.side, q)))
  }

  /** A busted fill of q lots: the order gets its quantity back, a filled order works again. */
  function OnBust(s: State, ref: OrderRef, q: int): (r: State)
    requires Known(s, ref)
    ensures Framed(s, r) && |r.orders| == |s.orders|
  {
    var o := s.orders[ref];
    var t := SetOrder(s, ref, o.(cumQty := o.cumQty - q, state := if o.state == Filled then Working else o.state));
    PostOrder(t, o.terms, Plus(OpenDelta(o.terms.side, q), TradeDelta(o.terms.side, -q)))
  }

  /** An order read back at start-up: table, counts and channel accept it, or it is dropped again. */
  function RebuildOrder(s: State, o: Order): (r: State)
    ensures Framed(s, r)
  {
    if o.terms.id in s.table then s
    else if o.terms.instrument !in s.config.instruments
      then s.(orders := s.orders + [o], table := s.table[o.terms.id := |s.orders|])
    else
      var t := PostOrder(s, o.terms, OpenDelta(o.terms.side, o.Rem()));
      if Live(o.state) then t.(orders := s.orders + [o], table := s.table[o.terms.id := |s.orders|])
      else PostOrder(t, o.terms, OpenDelta(o.terms.side, -o.Rem()))
  }

  // ---------- events and runs ----------

  datatype Event =
    | Create(terms: Terms, price: Ticks)
    | New(ref: OrderRef, env: Env)
    | Mod(ref: OrderRef, newPrice: Ticks, env: Env)
    | Cxl(ref: OrderRef, env: Env)
    | NewAck(ref: OrderRef, env: Env)
    | NewRej(ref: OrderRef)
    | ModAck(ref: OrderRef, price: Ticks, env: Env)
    | ModRej(ref: OrderRef, env: Env)
    | CxlAck(ref: OrderRef)
    | CxlRej(ref: OrderRef)
    | Fill(ref: OrderRef, qty: int)
    | Bust(ref: OrderRef, qty: int)
    | ExternalFill(account: AccountId, strategy: StrategyId, instrument: InstrumentId, side: Side, qty: int)
    | Rebuild(order: Order)
    | RebuildPos(account: AccountId, strategy: StrategyId, instrument: InstrumentId, pos: int)

  /** An event that names an order that does not exist is reported and dropped. */
  predicate Addressed(s: State, e: Event) {
    e.Create? || e.ExternalFill? || e.Rebuild? || e.RebuildPos? || Known(s, e.ref)
  }

  function Step(s: State, e: Event): (r: State)
    requires ListsKnown(s)
    ensures ListsKnown(r) && r.config == s.config && |s.orders| <= |r.orders|
  {
    if !Addressed(s, e) then s else
    match e
    case New(ref, env) => SendNew(s, ref, env).0
    case Mod(ref, p, env) => SendMod(s, ref, p, env).0
    case _ => StepOther(s, e)
  }

  /** The events that do not consult the wash-trade lists. */
  function StepOther(s: State, e: Event): (r: State)
    requires Addressed(s, e) && !e.New? && !e.Mod?
    ensures Framed(s, r)
  {
    match e
    case Create(terms, p) => s.(orders := s.orders + [Fresh(terms, p)])
    case Cxl(ref, env) => SendCxl(s, ref, env).0
    case NewAck(ref, env) => OnNewAck(s, ref, env)
    case NewRej(ref) => OrdersOnNewRej(s, ref)
    case ModAck(ref, p, env) => OnModAck(s, ref, p, env)
    case ModRej(ref, env) => OnModRej(s, ref, env)
    case CxlAck(ref) => OnCxlAck(s, ref)
    case CxlRej(ref) => OrdersOnCxlRej(s, ref)
    case Fill(ref, q) => OnFill(s, ref, q)
    case Bust(ref, q) => OnBust(s, ref, q)
    case ExternalFill(a, st, i, side, q) => s.(ledger := Post(s.ledger, a, st, i, TradeDelta(side, q)))
    case Rebuild(o) => RebuildOrder(s, o)
    case RebuildPos(a, st, i, n) => if i in s.config.instruments then s.(ledger := Post(s.ledger, a, st, i, OpenPos(0, 0, n))) else s
  }

  function Run(s: State, es: seq<Event>): (r: State)
    requires ListsKnown(s)
    ensures ListsKnown(r) && r.config == s.config && |s.orders| <= |r.orders|
    decreases |es|
  {
    if es == [] then s else Run(Step(s, es[0]), es[1..])
  }
}
