/**
  The position limit over whole runs. Every event moves the account's exposure by an exact amount;
  the only way past the configured limit is an event that the exchange or an operator forces on the
  account (an overfill, a bust, an external fill, ...), and then by no more than the sum of those amounts.
 */
module Limits {
  import opened OrderTypes
  import opened Pipeline
  import opened Effects
  import opened Counts

  function Max(a: int, b: int): int {
    if a < b then b else a
  }

  /** The exposure a position contributes on one side (long for Buy, short for Sell). */
  function ExposureOf(p: OpenPos, side: Side): int {
    if side == Buy then p.pos + p.bids else -p.pos + p.asks
  }

  function Mine(s: State): Owner {
    ByAccount(s.config.account)
  }

  /** The exposure a risk check reads is the one the ledger holds. */
  lemma ExposureIsHeld(s: State, side: Side, i: InstrumentId)
    ensures Exposure(s, side, i) == ExposureOf(Held(s.ledger, Mine(s), i), side)
  {
  }

  lemma {:induction false} ExposurePlus(a: OpenPos, b: OpenPos, side: Side)
    ensures ExposureOf(Plus(a, b), side) == ExposureOf(a, side) + ExposureOf(b, side)
  {
  }

  /** By how much an order's event may raise the exposure on `side`: `same` if the order is on that side, else `other`. */
  function Own(s: State, t: Terms, i: InstrumentId, side: Side, same: int, other: int): nat {
    if t.account != s.config.account || t.instrument != i || t.side == NoSide then 0
    else Max(0, if t.side == side then same else other)
  }

  /** The most an event other than an accepted order can add to the exposure. */
  function Overrun(s: State, e: Event, side: Side, i: InstrumentId): nat {
    if !Addressed(s, e) then 0 else
    match e
    case New(ref, _) =>
      var o := s.orders[ref];
      if o.state == Unknown && Validate(s, o).Some? then Own(s, o.terms, i, side, -o.Rem(), 0) else 0
    case NewRej(ref) =>
      var o := s.orders[ref];
      if o.state == Pending || o.state == Unknown then Own(s, o.terms, i, side, -o.Rem(), 0) else 0
    case CxlAck(ref) => Own(s, s.orders[ref].terms, i, side, -s.orders[ref].Rem(), 0)
    case Fill(ref, q) =>
      var o := s.orders[ref];
      if o.state == Filled then 0 else Own(s, o.terms, i, side, q - o.Rem(), -q)
    case Bust(ref, q) => Own(s, s.orders[ref].terms, i, side, 0, q)
    case ExternalFill(a, _, j, d, q) =>
      if a != s.config.account || j != i || d == NoSide then 0 else Max(0, if d == side then q else -q)
    case Rebuild(o) => if Live(o.state) then Own(s, o.terms, i, side, o.Rem(), 0) else 0
    case RebuildPos(a, _, j, n) => if a != s.config.account || j != i then 0 else Max(0, if side == Buy then n else -n)
    case _ => 0
  }

  /** The fields of the deltas and of a sum. */
  lemma {:induction false} DeltaParts(d: Side, n: int, q: int)
    ensures var o := OpenDelta(d, n);
            o.pos == 0 && o.bids == (if d == Buy then n else 0) && o.asks == if d == Sell then n else 0
    ensures var t := TradeDelta(d, q);
            t.bids == 0 && t.asks == 0 && t.pos == if d == Buy then q else if d == Sell then -q else 0
    ensures forall a, b {:trigger Plus(a, b)} ::
              Plus(a, b).bids == a.bids + b.bids && Plus(a, b).asks == a.asks + b.asks && Plus(a, b).pos == a.pos + b.pos
  {
  }

  lemma {:induction false} ExposureOfDelta(d: Side, n: int, q: int, side: Side)
    requires side != NoSide
    ensures ExposureOf(Plus(OpenDelta(d, n), TradeDelta(d, q)), side)
         == if d == NoSide then 0 else if d == side then n + q else -q
  {
    hide OpenDelta, TradeDelta, Plus;
    DeltaParts(d, n, q);
  }

  /** The exposure an order's posting adds to the configured account. */
  lemma {:induction false} OwnPart(s: State, t: Terms, n: int, q: int, side: Side, i: InstrumentId)
    requires side != NoSide
    ensures ExposureOf(Part(ForTerms(t, Plus(OpenDelta(t.side, n), TradeDelta(t.side, q))), Mine(s), i), side)
         == if t.account != s.config.account || t.instrument != i || t.side == NoSide then 0
            else if t.side == side then n + q else -q
  {
    hide OpenDelta, TradeDelta, Plus;
    ExposureOfDelta(t.side, n, q, side);
  }

  lemma {:induction false} OwnPartOpen(s: State, t: Terms, n: int, side: Side, i: InstrumentId)
    requires side != NoSide
    ensures ExposureOf(Part(ForTerms(t, OpenDelta(t.side, n)), Mine(s), i), side)
         == if t.account != s.config.account || t.instrument != i || t.side == NoSide then 0
            else if t.side == side then n else 0
    ensures ExposureOf(Part(ForTerms(t, FLAT), Mine(s), i), side) == 0
    ensures ExposureOf(Part(NoPosting, Mine(s), i), side) == 0
  {
    if t.side == Buy {} else if t.side == Sell {} else {}
  }

  /** Unless it takes a new order, an event adds at most its overrun to the exposure. */
  lemma {:induction false} GrowthBound(s: State, e: Event, side: Side, i: InstrumentId)
    requires ListsKnown(s) && side != NoSide && !Accepted(s, e)
    ensures ExposureOf(Part(PostingOf(s, e, false), Mine(s), i), side) <= Overrun(s, e, side, i)
  {
    hide SendNew, Part, ForTerms, OpenDelta, TradeDelta, Plus, Validate, ExposureOf, Mine;
    OwnPartOpen(s, Terms(0, 0, 0, 0, NoSide, Limit, false, 0), 0, side, i);
    if Addressed(s, e) {
      match e
      case New(ref, _) => OwnPartOpen(s, s.orders[ref].terms, -s.orders[ref].Rem(), side, i);
      case NewRej(ref) => OwnPartOpen(s, s.orders[ref].terms, -s.orders[ref].Rem(), side, i);
      case CxlAck(ref) => OwnPartOpen(s, s.orders[ref].terms, -s.orders[ref].Rem(), side, i);
      case Fill(ref, q) =>
        var o := s.orders[ref];
        OwnPart(s, o.terms, if o.Rem() <= q then -o.Rem() else -q, q, side, i);
      case Bust(ref, q) => OwnPart(s, s.orders[ref].terms, q, -q, side, i);
      case Rebuild(o) => OwnPartOpen(s, o.terms, o.Rem(), side, i);
      case ExternalFill(a, st, j, d, q) => OwnTrade(s, a, st, j, d, q, side, i);
      case RebuildPos(a, st, j, n) => OwnPos(s, a, st, j, n, side, i);
      case _ =>
    }
  }

  lemma {:induction false} OwnTrade(s: State, a: AccountId, st: StrategyId, j: InstrumentId, d: Side, q: int, side: Side, i: InstrumentId)
    requires side != NoSide
    ensures ExposureOf(Part(Posting(a, st, j, TradeDelta(d, q)), Mine(s), i), side)
         == if a != s.config.account || j != i || d == NoSide then 0 else if d == side then q else -q
  {
    if d == Buy {} else if d == Sell {} else {}
  }

  lemma {:induction false} OwnPos(s: State, a: AccountId, st: StrategyId, j: InstrumentId, n: int, side: Side, i: InstrumentId)
    requires side != NoSide
    ensures ExposureOf(Part(Posting(a, st, j, OpenPos(0, 0, n)), Mine(s), i), side)
         == if a != s.config.account || j != i then 0 else if side == Buy then n else -n
  {
  }

  /** An order the chain took passed the risk check with its own quantity already counted. */
  lemma {:induction false} AcceptedPassedRisk(s: State, ref: OrderRef, env: Env)
    requires Known(s, ref) && ListsKnown(s) && SendNew(s, ref, env).1.None?
    ensures var r := SendNew(s, ref, env).0;
            var t := s.orders[ref].terms;
            && s.orders[ref].state == Unknown && Validate(s, s.orders[ref]).None?
            && t.account == s.config.account && t.side != NoSide && t.instrument in s.config.params
            && Exposure(r, t.side, t.instrument) <= s.config.params[t.instrument].maxPos
  {
    hide OrdersSendNew, WtpSendNew, CountMsg, UncountMsg;
    var m := CountMsg(s, ref, MsgNew, 1);
    OrdersNewEffect(m, ref);
    var a := OrdersSendNew(m, ref);
    var w := WtpSendNew(a.0, ref, env.quote);
    assert RiskSendNew(w.0, ref).None?;
    assert w.0.orders[ref].terms == s.orders[ref].terms;
  }

  /** One event: the exposure stays below the limit or where it was, plus the event's overrun. */
  lemma {:induction false} LimitStep(s: State, e: Event, side: Side, i: InstrumentId)
    requires ListsKnown(s) && side != NoSide && i in s.config.params
    ensures Exposure(Step(s, e), side, i) <= Max(Exposure(s, side, i), s.config.params[i].maxPos) + Overrun(s, e, side, i)
  {
    hide Step, Part, PostingOf, Overrun, ExposureOf, Exposure;
    GrowthExact(s, e, side, i, 0);
    if Accepted(s, e) {
      LimitAccepted(s, e, side, i);
    } else {
      GrowthBound(s, e, side, i);
    }
  }

  lemma {:induction false} LimitAccepted(s: State, e: Event, side: Side, i: InstrumentId)
    requires ListsKnown(s) && side != NoSide && i in s.config.params && Accepted(s, e)
    ensures Exposure(Step(s, e), side, i) <= s.config.params[i].maxPos
         || ExposureOf(Part(PostingOf(s, e, true), Mine(s), i), side) == 0
  {
    hide SendNew, Part, ForTerms, OpenDelta, Validate, ExposureOf, Exposure, Mine;
    AcceptedPassedRisk(s, e.ref, e.env);
    OwnPartOpen(s, s.orders[e.ref].terms, s.orders[e.ref].Rem(), side, i);
  }

  function TotalOverrun(s: State, es: seq<Event>, side: Side, i: InstrumentId): nat
    requires ListsKnown(s)
    decreases |es|
  {
    if es == [] then 0 else Overrun(s, es[0], side, i) + TotalOverrun(Step(s, es[0]), es[1..], side, i)
  }

  /** Every run, no assumption on its events: the exposure exceeds the limit by at most the overruns of the run. */
  lemma {:induction false} LimitRun(s: State, es: seq<Event>, side: Side, i: InstrumentId)
    requires ListsKnown(s) && side != NoSide && i in s.config.params
    ensures Exposure(Run(s, es), side, i)
         <= Max(Exposure(s, side, i), s.config.params[i].maxPos) + TotalOverrun(s, es, side, i)
    decreases |es|
  {
    hide Step, Exposure, Overrun;
    if es != [] {
      LimitStep(s, es[0], side, i);
      LimitRun(Step(s, es[0]), es[1..], side, i);
    }
  }

  // ---------- orderly runs ----------

  /** The events of a trading day without accidents. */
  predicate Orderly(s: State, e: Event) {
    Addressed(s, e) ==>
      match e
      case New(ref, _) => s.orders[ref].state == Unknown ==> Validate(s, s.orders[ref]).None?
      case NewRej(ref) => s.orders[ref].state != Unknown
      case CxlAck(ref) => Live(s.orders[ref].state)
      case Fill(ref, q) => s.orders[ref].state == Filled || (Live(s.orders[ref].state) && 0 <= q <= s.orders[ref].Rem())
      case Bust(_, _) => false
      case ExternalFill(_, _, _, _, _) => false
      case Rebuild(_) => false
      case RebuildPos(_, _, _, _) => false
      case _ => true
  }

  predicate OrderlyRun(s: State, es: seq<Event>)
    requires ListsKnown(s)
    decreases |es|
  {
    es == [] || (Orderly(s, es[0]) && OrderlyRun(Step(s, es[0]), es[1..]))
  }

  /** A live order always has something left; an unsent one is untouched. */
  predicate OpenWell(o: Order) {
    (Live(o.state) ==> o.Rem() > 0) && (o.state == Unknown ==> o.cumQty == 0)
  }

  ghost predicate AllOpenWell(s: State) {
    forall k :: 0 <= k < |s.orders| ==> OpenWell(s.orders[k])
  }

  lemma {:induction false} OpenWellStep(s: State, e: Event)
    requires ListsKnown(s) && AllOpenWell(s) && Orderly(s, e)
    ensures AllOpenWell(Step(s, e))
  {
    hide SendNew, SendMod, SendCxl, OnNewAck, OnModAck, OnModRej, OrdersOnCxlRej, Post, PostTerms, OnFill;
    if Addressed(s, e) {
      if IsQuiet(e) {
        OpenWellQuiet(s, e);
      } else {
        match e
        case New(ref, env) => NewOrders(s, ref, env); if SendNew(s, ref, env).1.None? { AcceptedPassedRisk(s, ref, env); }
        case Fill(ref, q) => FillOrders(s, ref, q);
        case _ =>
      }
    }
  }

  lemma {:induction false} OpenWellQuiet(s: State, e: Event)
    requires ListsKnown(s) && AllOpenWell(s) && Addressed(s, e) && IsQuiet(e)
    ensures AllOpenWell(Step(s, e))
  {
    hide Step;
    QuietStep(s, e);
  }

  /** Orderly events neither drift nor overrun. */
  lemma {:induction false} OrderlyExact(s: State, e: Event, c: Slot, side: Side, i: InstrumentId)
    requires ListsKnown(s) && AllOpenWell(s) && Orderly(s, e)
    ensures Drift(s, e, c) == 0 && Overrun(s, e, side, i) == 0
  {
  }

  lemma {:induction false} OrderlyRunExact(s: State, es: seq<Event>, c: Slot, side: Side, i: InstrumentId)
    requires ListsKnown(s) && AllOpenWell(s) && OrderlyRun(s, es)
    ensures TotalDrift(s, es, c) == 0 && TotalOverrun(s, es, side, i) == 0 && AllOpenWell(Run(s, es))
    decreases |es|
  {
    hide Step, Drift, Overrun, Orderly, AllOpenWell;
    if es != [] {
      OrderlyExact(s, es[0], c, side, i);
      OpenWellStep(s, es[0]);
      OrderlyRunExact(Step(s, es[0]), es[1..], c, side, i);
    }
  }

  lemma {:induction false} OpenSumNonNegative(orders: seq<Order>, c: Slot)
    requires forall k :: 0 <= k < |orders| ==> OpenWell(orders[k])
    ensures OpenSum(orders, c) >= 0
  {
    if orders != [] {
      OpenSumNonNegative(orders[..|orders| - 1], c);
    }
  }

  /**
    Every orderly run from a fresh start: the long and the short exposure of every configured instrument
    stay within the limit, so the position itself stays between minus and plus the limit.
   */
  lemma {:induction false} PositionWithinLimit(config: Config, es: seq<Event>, i: InstrumentId)
    requires i in config.params && config.params[i].maxPos >= 0
    requires OrderlyRun(Initial(config), es)
    ensures var s := Run(Initial(config), es);
            var p := At(s.ledger.accounts, (config.account, i));
            && p.pos + p.bids <= config.params[i].maxPos
            && -p.pos + p.asks <= config.params[i].maxPos
            && -config.params[i].maxPos <= p.pos <= config.params[i].maxPos
  {
    hide Run, OrderlyRun, OpenSum, TotalDrift, TotalOverrun;
    var s0 := Initial(config);
    var s := Run(s0, es);
    var bids, asks := Slot(Mine(s0), i, Buy), Slot(Mine(s0), i, Sell);
    OrderlyRunExact(s0, es, bids, Buy, i);
    OrderlyRunExact(s0, es, asks, Sell, i);
    LimitRun(s0, es, Buy, i);
    LimitRun(s0, es, Sell, i);
    CountsOfRun(config, es, bids);
    CountsOfRun(config, es, asks);
    OpenSumNonNegative(s.orders, bids);
    OpenSumNonNegative(s.orders, asks);
  }

  // ---------- why the orderly conditions are needed ----------

  /** An event's posting, as far as it raises the configured account's exposure on one side. */
  function Growth(s: State, e: Event, side: Side, i: InstrumentId): int
    requires ListsKnown(s)
  {
    ExposureOf(Part(PostingOf(s, e, Accepted(s, e)), Mine(s), i), side)
  }

  /** Every event moves the exposure by exactly its posting: it ends within a limit iff exposure plus posting does. */
  lemma {:induction false} GrowthExact(s: State, e: Event, side: Side, i: InstrumentId, limit: int)
    requires ListsKnown(s)
    ensures Exposure(Step(s, e), side, i) == Exposure(s, side, i) + Growth(s, e, side, i)
    ensures Exposure(Step(s, e), side, i) <= limit <==> Exposure(s, side, i) + Growth(s, e, side, i) <= limit
  {
    hide Step, Held, Part, PostingOf, ExposureOf, Exposure, Plus, Accepted;
    StepLedger(s, e, Mine(s), i);
    ExposureIsHeld(s, side, i);
    ExposureIsHeld(Step(s, e), side, i);
    ExposurePlus(Held(s.ledger, Mine(s), i), Part(PostingOf(s, e, Accepted(s, e)), Mine(s), i), side);
  }

  /** A fill larger than the open quantity lifts the exposure on the order's side by the excess, whatever the limit. */
  lemma {:induction false} OverfillExceeds(s: State, ref: OrderRef, q: int)
    requires ListsKnown(s) && Known(s, ref)
    requires var o := s.orders[ref];
             Live(o.state) && o.terms.side != NoSide && o.terms.account == s.config.account && q > o.Rem()
    ensures var o := s.orders[ref];
            Exposure(Step(s, Fill(ref, q)), o.terms.side, o.terms.instrument)
            == Exposure(s, o.terms.side, o.terms.instrument) + (q - o.Rem())
  {
    hide Step, Part, Plus, ExposureOf, Exposure, OpenDelta, TradeDelta, ForTerms;
    var o := s.orders[ref];
    GrowthExact(s, Fill(ref, q), o.terms.side, o.terms.instrument, 0);
    OwnPart(s, o.terms, -o.Rem(), q, o.terms.side, o.terms.instrument);
  }

  /** A busted fill gives the account back what it had traded: the exposure on the other side grows by the whole bust. */
  lemma {:induction false} BustExceeds(s: State, ref: OrderRef, q: int)
    requires ListsKnown(s) && Known(s, ref)
    requires s.orders[ref].terms.side != NoSide && s.orders[ref].terms.account == s.config.account
    ensures var t := s.orders[ref].terms;
            var other := if t.side == Buy then Sell else Buy;
            && Exposure(Step(s, Bust(ref, q)), other, t.instrument) == Exposure(s, other, t.instrument) + q
            && Exposure(Step(s, Bust(ref, q)), t.side, t.instrument) == Exposure(s, t.side, t.instrument)
  {
    hide Step, Part, Plus, ExposureOf, Exposure, OpenDelta, TradeDelta, ForTerms;
    var t := s.orders[ref].terms;
    var other := if t.side == Buy then Sell else Buy;
    GrowthExact(s, Bust(ref, q), other, t.instrument, 0);
    GrowthExact(s, Bust(ref, q), t.side, t.instrument, 0);
    OwnPart(s, t, q, -q, other, t.instrument);
    OwnPart(s, t, q, -q, t.side, t.instrument);
  }

  /** The pre-trade query agrees with the check inside the chain: it foretells the risk verdict on a fresh valid order. */
  lemma {:induction false} QueryForetellsRisk(s: State, ref: OrderRef)
    requires Known(s, ref) && s.orders[ref].state == Unknown && s.orders[ref].cumQty == 0 && Validate(s, s.orders[ref]).None?
    ensures var t := s.orders[ref].terms;
            CanSendRisk(s, t.account, t.instrument, t.qty, t.side) <==> RiskSendNew(OrdersSendNew(s, ref).0, ref).None?
  {
    hide OrdersSendNew, Held, PostTerms, OpenDelta, Validate;
    var o := s.orders[ref];
    OrdersNewEffect(s, ref);
    var r := OrdersSendNew(s, ref).0;
    if o.terms.account == s.config.account && o.terms.side != NoSide {
      ExposureIsHeld(s, o.terms.side, o.terms.instrument);
      ExposureIsHeld(r, o.terms.side, o.terms.instrument);
      HeldPost(s.ledger, o.terms, OpenDelta(o.terms.side, o.Rem()), Mine(s), o.terms.instrument);
      ExposurePlus(Held(s.ledger, Mine(s), o.terms.instrument), OpenDelta(o.terms.side, o.Rem()), o.terms.side);
      OwnPartOpen(s, o.terms, o.Rem(), o.terms.side, o.terms.instrument);
    }
  }
}
