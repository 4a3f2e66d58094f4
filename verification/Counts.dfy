/**
  The incrementally kept open counts against the plain sum over live orders.
  The law holds for every event in every state; the events that make the two drift apart are
  accounted for exactly, so a run is exact when, and only when, its drifts cancel.
 */
module Counts {
  import opened OrderTypes
  import opened Pipeline
  import opened Effects

  /** One count: whose, in which instrument, on which side. */
  datatype Slot = Slot(owner: Owner, instrument: InstrumentId, side: Side)

  predicate InSlot(t: Terms, c: Slot) {
    Owns(c.owner, t.account, t.strategy) && t.instrument == c.instrument && t.side == c.side && c.side != NoSide
  }

  function SideOf(p: OpenPos, side: Side): int {
    match side case Buy => p.bids case Sell => p.asks case NoSide => 0
  }

  /** The incrementally kept count. */
  function Count(s: State, c: Slot): int {
    SideOf(Held(s.ledger, c.owner, c.instrument), c.side)
  }

  /** n lots of an order, as far as they fall into a slot. */
  function Share(t: Terms, n: int, c: Slot): int {
    if InSlot(t, c) then n else 0
  }

  /** What one order contributes to a slot while it is live. */
  function Open(o: Order, c: Slot): int {
    if Live(o.state) then Share(o.terms, o.Rem(), c) else 0
  }

  /** The plain sum over all live orders. */
  function OpenSum(orders: seq<Order>, c: Slot): int {
    if orders == [] then 0 else OpenSum(orders[..|orders| - 1], c) + Open(orders[|orders| - 1], c)
  }

  lemma {:induction false} OpenSumUpdate(orders: seq<Order>, ref: nat, o: Order, c: Slot)
    requires ref < |orders|
    ensures OpenSum(orders[ref := o], c) == OpenSum(orders, c) - Open(orders[ref], c) + Open(o, c)
  {
    var n := |orders| - 1;
    if ref == n {
      assert orders[ref := o][..n] == orders[..n];
    } else {
      OpenSumUpdate(orders[..n], ref, o, c);
      assert orders[ref := o][..n] == orders[..n][ref := o];
    }
  }

  lemma OpenSumAppend(orders: seq<Order>, o: Order, c: Slot)
    ensures OpenSum(orders + [o], c) == OpenSum(orders, c) + Open(o, c)
  {
    assert (orders + [o])[..|orders|] == orders;
  }

  // ---------- the change of the sum ----------

  /** The change of the sum over live orders, event by event. */
  function OpenChange(s: State, e: Event, accepted: bool, c: Slot): int {
    if !Addressed(s, e) then 0 else
    match e
    case New(ref, _) => if s.orders[ref].state == Unknown && accepted then Share(s.orders[ref].terms, s.orders[ref].Rem(), c) else 0
    case NewRej(ref) => if s.orders[ref].state == Pending then -Open(s.orders[ref], c) else 0
    case CxlAck(ref) => -Open(s.orders[ref], c)
    case Fill(ref, q) => FillChange(s.orders[ref], q, c)
    case Bust(ref, q) => BustChange(s.orders[ref], q, c)
    case Rebuild(o) => if o.terms.id !in s.table then Open(o, c) else 0
    case _ => 0
  }

  function FillChange(o: Order, q: int, c: Slot): int {
    if !Live(o.state) then 0 else Share(o.terms, if o.Rem() <= q then -o.Rem() else -q, c)
  }

  function BustChange(o: Order, q: int, c: Slot): int {
    if Live(o.state) then Share(o.terms, q, c)
    else if o.state == Filled then Share(o.terms, o.Rem() + q, c)
    else 0
  }

  lemma {:induction false} OpenFill(s: State, ref: OrderRef, q: int, c: Slot)
    requires Known(s, ref)
    ensures OpenSum(OnFill(s, ref, q).orders, c) == OpenSum(s.orders, c) + FillChange(s.orders[ref], q, c)
  {
    hide OnFill, InSlot, OpenSum;
    FillOrders(s, ref, q);
    var o := s.orders[ref];
    OpenSumUpdate(s.orders, ref, o.(cumQty := o.cumQty + q, state := if o.Rem() <= q then Filled else o.state), c);
  }

  lemma {:induction false} OpenBust(s: State, ref: OrderRef, q: int, c: Slot)
    requires Known(s, ref)
    ensures OpenSum(OnBust(s, ref, q).orders, c) == OpenSum(s.orders, c) + BustChange(s.orders[ref], q, c)
  {
    hide OnBust, InSlot, OpenSum;
    BustOrders(s, ref, q);
    var o := s.orders[ref];
    OpenSumUpdate(s.orders, ref, o.(cumQty := o.cumQty - q, state := if o.state == Filled then Working else o.state), c);
  }

  lemma {:induction false} OpenNew(s: State, ref: OrderRef, env: Env, c: Slot)
    requires Known(s, ref) && ListsKnown(s)
    ensures var r := SendNew(s, ref, env);
            OpenSum(r.0.orders, c) == OpenSum(s.orders, c)
              + if s.orders[ref].state == Unknown && r.1.None? then Share(s.orders[ref].terms, s.orders[ref].Rem(), c) else 0
  {
    hide SendNew, InSlot, OpenSum;
    NewOrders(s, ref, env);
    var o := s.orders[ref];
    OpenSumUpdate(s.orders, ref, o.(state := if SendNew(s, ref, env).1.None? then Pending else Rejected), c);
  }

  lemma {:induction false} OpenRemovals(s: State, ref: OrderRef, c: Slot)
    requires Known(s, ref)
    ensures OpenSum(OnCxlAck(s, ref).orders, c) == OpenSum(s.orders, c) - Open(s.orders[ref], c)
    ensures OpenSum(OrdersOnNewRej(s, ref).orders, c)
         == OpenSum(s.orders, c) - if s.orders[ref].state == Pending then Open(s.orders[ref], c) else 0
  {
    hide InSlot, OpenSum, PostTerms;
    OpenSumUpdate(s.orders, ref, s.orders[ref].(state := Cancelled), c);
    OpenSumUpdate(s.orders, ref, s.orders[ref].(state := Rejected), c);
  }

  lemma {:induction false} OpenQuiet(s: State, e: Event, c: Slot)
    requires ListsKnown(s) && Addressed(s, e) && IsQuiet(e)
    ensures OpenSum(Step(s, e).orders, c) == OpenSum(s.orders, c)
  {
    hide Step, InSlot, OpenSum;
    QuietStep(s, e);
    OpenSumUpdate(s.orders, e.ref, Step(s, e).orders[e.ref], c);
  }

  lemma {:induction false} OpenRebuild(s: State, o: Order, c: Slot)
    ensures OpenSum(RebuildOrder(s, o).orders, c) == OpenSum(s.orders, c) + if o.terms.id !in s.table then Open(o, c) else 0
  {
    hide InSlot, OpenSum, PostTerms;
    OpenSumAppend(s.orders, o, c);
  }

  lemma {:induction false} StepOpen(s: State, e: Event, c: Slot)
    requires ListsKnown(s)
    ensures OpenSum(Step(s, e).orders, c) == OpenSum(s.orders, c) + OpenChange(s, e, Accepted(s, e), c)
  {
    hide SendNew, SendMod, SendCxl, OnNewAck, OnModAck, OnModRej, OrdersOnCxlRej, OrdersOnNewRej, OnCxlAck,
         OnFill, OnBust, RebuildOrder, Post, OpenSum, Share, InSlot, FillChange, BustChange;
    if Addressed(s, e) {
      if IsQuiet(e) {
        OpenQuiet(s, e, c);
      } else {
        match e
        case Create(terms, p) => OpenSumAppend(s.orders, Fresh(terms, p), c);
        case New(ref, env) => OpenNew(s, ref, env, c);
        case NewRej(ref) => OpenRemovals(s, ref, c);
        case CxlAck(ref) => OpenRemovals(s, ref, c);
        case Fill(ref, q) => OpenFill(s, ref, q, c);
        case Bust(ref, q) => OpenBust(s, ref, q, c);
        case ExternalFill(_, _, _, _, _) =>
        case Rebuild(o) => OpenRebuild(s, o, c);
        case RebuildPos(_, _, _, _) =>
      }
    }
  }

  // ---------- drift ----------

  /**
    What an event adds to Count - OpenSum. Non-zero only for: a refused fresh order (never added, yet removed),
    a cancel or reject answer to an order that is not live, a fill or bust on a dead order, the bust of an
    overfilled order, and an order rebuilt for an unknown instrument.
   */
  function Drift(s: State, e: Event, c: Slot): int {
    if !Addressed(s, e) then 0 else
    match e
    case New(ref, _) =>
      var o := s.orders[ref];
      if o.state == Unknown && Validate(s, o).Some? then Share(o.terms, -o.Rem(), c) else 0
    case NewRej(ref) =>
      var o := s.orders[ref];
      if o.state == Unknown then Share(o.terms, -o.Rem(), c) else 0
    case CxlAck(ref) =>
      var o := s.orders[ref];
      if !Live(o.state) then Share(o.terms, -o.Rem(), c) else 0
    case Fill(ref, q) =>
      var o := s.orders[ref];
      if Live(o.state) || o.state == Filled then 0
      else Share(o.terms, if o.Rem() <= q then -o.Rem() else -q, c)
    case Bust(ref, q) =>
      var o := s.orders[ref];
      if Live(o.state) then 0
      else if o.state == Filled then Share(o.terms, -o.Rem(), c)
      else Share(o.terms, q, c)
    case Rebuild(o) =>
      if o.terms.id !in s.table && o.terms.instrument !in s.config.instruments && Live(o.state)
      then Share(o.terms, -o.Rem(), c) else 0
    case _ => 0
  }

  lemma {:induction false} SideOfDelta(side: Side, n: int, q: int, other: Side)
    ensures SideOf(OpenDelta(side, n), other) == if side == other && other != NoSide then n else 0
    ensures SideOf(Plus(OpenDelta(side, n), TradeDelta(side, q)), other) == SideOf(OpenDelta(side, n), other)
    ensures SideOf(FLAT, other) == 0
  {
    if other == Buy {} else if other == Sell {} else {}
  }

  /** The part of an open-count posting in a slot is its share. */
  lemma {:induction false} PartOpen(t: Terms, n: int, q: int, c: Slot)
    ensures SideOf(Part(ForTerms(t, Plus(OpenDelta(t.side, n), TradeDelta(t.side, q))), c.owner, c.instrument), c.side) == Share(t, n, c)
    ensures SideOf(Part(ForTerms(t, OpenDelta(t.side, n)), c.owner, c.instrument), c.side) == Share(t, n, c)
  {
    hide SideOf, OpenDelta, TradeDelta, Plus;
    SideOfDelta(t.side, n, q, c.side);
  }

  /** An invalid fresh order is never taken. */
  lemma {:induction false} InvalidNotAccepted(s: State, ref: OrderRef, env: Env)
    requires Known(s, ref) && ListsKnown(s)
    requires s.orders[ref].state != Unknown || Validate(s, s.orders[ref]).Some?
    ensures SendNew(s, ref, env).1.Some?
  {
    hide OrdersSendNew, SendNewFromThrottle, OrdersOnNewRej;
    OrdersNewEffect(CountMsg(s, ref, MsgNew, 1), ref);
  }

  /** The posting table and the change of the sum differ by the drift table. */
  lemma {:induction false} DriftTable(s: State, e: Event, c: Slot)
    requires ListsKnown(s)
    ensures SideOf(Part(PostingOf(s, e, Accepted(s, e)), c.owner, c.instrument), c.side)
         == OpenChange(s, e, Accepted(s, e), c) + Drift(s, e, c)
  {
    hide SendNew, Share, Part, OpenDelta, Plus, Validate, SideOf;
    PartFlat(NoPosting, c);
    if Addressed(s, e) {
      match e
      case New(ref, env) =>
        var o := s.orders[ref];
        if o.state == Unknown && Validate(s, o).Some? { InvalidNotAccepted(s, ref, env); }
        PartOpen(o.terms, o.Rem(), 0, c);
        PartOpen(o.terms, -o.Rem(), 0, c);
        PartFlat(ForTerms(o.terms, FLAT), c);
      case NewRej(ref) => PartOpen(s.orders[ref].terms, -s.orders[ref].Rem(), 0, c); ShareAdd(s.orders[ref].terms, s.orders[ref].Rem(), 0, c);
      case CxlAck(ref) => PartOpen(s.orders[ref].terms, -s.orders[ref].Rem(), 0, c); ShareAdd(s.orders[ref].terms, s.orders[ref].Rem(), 0, c);
      case Fill(ref, q) =>
        var o := s.orders[ref];
        PartOpen(o.terms, if o.Rem() <= q then -o.Rem() else -q, q, c);
      case Bust(ref, q) =>
        var o := s.orders[ref];
        PartOpen(o.terms, q, -q, c);
        ShareAdd(o.terms, o.Rem() + q, -o.Rem(), c);
      case ExternalFill(a, st, i, side, q) => PartFlat(Posting(a, st, i, TradeDelta(side, q)), c);
      case Rebuild(o) =>
        PartOpen(o.terms, o.Rem(), 0, c);
        PartFlat(ForTerms(o.terms, FLAT), c);
        ShareAdd(o.terms, o.Rem(), 0, c);
      case RebuildPos(a, st, i, n) => PartFlat(Posting(a, st, i, OpenPos(0, 0, n)), c);
      case _ =>
    }
  }

  /** Postings that leave the open counts alone. */
  lemma {:induction false} PartFlat(p: Posting, c: Slot)
    requires p.Posting? ==> p.delta.bids == 0 && p.delta.asks == 0
    ensures SideOf(Part(p, c.owner, c.instrument), c.side) == 0
  {
    if c.side == Buy {} else if c.side == Sell {} else {}
  }

  lemma {:induction false} ShareAdd(t: Terms, n: int, m: int, c: Slot)
    ensures Share(t, n + m, c) == Share(t, n, c) + Share(t, m, c) && Share(t, -n, c) == -Share(t, n, c)
  {
  }

  // ---------- the law ----------

  function Gap(s: State, c: Slot): int {
    Count(s, c) - OpenSum(s.orders, c)
  }

  /** One event, any event, any state: the gap changes by exactly the event's drift. */
  lemma {:induction false} GapStep(s: State, e: Event, c: Slot)
    requires ListsKnown(s)
    ensures Gap(Step(s, e), c) == Gap(s, c) + Drift(s, e, c)
  {
    hide Step, PostingOf, Part, OpenChange, OpenSum, Drift, Held, Accepted;
    StepLedger(s, e, c.owner, c.instrument);
    StepOpen(s, e, c);
    DriftTable(s, e, c);
  }

  function TotalDrift(s: State, es: seq<Event>, c: Slot): int
    requires ListsKnown(s)
    decreases |es|
  {
    if es == [] then 0 else Drift(s, es[0], c) + TotalDrift(Step(s, es[0]), es[1..], c)
  }

  lemma {:induction false} GapRun(s: State, es: seq<Event>, c: Slot)
    requires ListsKnown(s)
    ensures Gap(Run(s, es), c) == Gap(s, c) + TotalDrift(s, es, c)
    decreases |es|
  {
    hide Step, Gap, Drift;
    if es != [] {
      GapStep(s, es[0], c);
      GapRun(Step(s, es[0]), es[1..], c);
    }
  }

  /** Every run from a fresh start: the kept count equals the sum over live orders plus the drift of the run. */
  lemma {:induction false} CountsOfRun(config: Config, es: seq<Event>, c: Slot)
    ensures var s := Run(Initial(config), es);
            Count(s, c) == OpenSum(s.orders, c) + TotalDrift(Initial(config), es, c)
  {
    GapRun(Initial(config), es, c);
  }

  /** From a state whose counts are exact, an event keeps them exact iff it does not drift. */
  lemma {:induction false} ExactStep(s: State, e: Event, c: Slot)
    requires ListsKnown(s) && Count(s, c) == OpenSum(s.orders, c)
    ensures Count(Step(s, e), c) == OpenSum(Step(s, e).orders, c) <==> Drift(s, e, c) == 0
  {
    hide Step, Drift;
    GapStep(s, e, c);
  }

  // ---------- which events are exact ----------

  /** n lots of an order that no count would notice. */
  predicate Nothing(o: Order, n: int) {
    n == 0 || o.terms.side == NoSide
  }

  /**
    The events that keep every count exact, told from the state before: fresh orders are valid, answers that end an
    order come while it is live, fills come on live (or already filled) orders, busts on live or exactly filled ones,
    and rebuilt orders are of known instruments; anything else must be about no lots at all.
   */
  predicate Tidy(s: State, e: Event) {
    Addressed(s, e) ==>
      match e
      case New(ref, _) => s.orders[ref].state == Unknown ==> Validate(s, s.orders[ref]).None? || Nothing(s.orders[ref], s.orders[ref].Rem())
      case NewRej(ref) => s.orders[ref].state != Unknown || Nothing(s.orders[ref], s.orders[ref].Rem())
      case CxlAck(ref) => Live(s.orders[ref].state) || Nothing(s.orders[ref], s.orders[ref].Rem())
      case Fill(ref, q) =>
        var o := s.orders[ref];
        Live(o.state) || o.state == Filled || Nothing(o, if o.Rem() <= q then o.Rem() else q)
      case Bust(ref, q) =>
        var o := s.orders[ref];
        Live(o.state) || Nothing(o, if o.state == Filled then o.Rem() else q)
      case Rebuild(o) => o.terms.id in s.table || o.terms.instrument in s.config.instruments || !Live(o.state) || Nothing(o, o.Rem())
      case _ => true
  }

  /** The one slot of an order's account tells whether its lots count anywhere. */
  lemma {:induction false} NoticedAt(o: Order, n: int)
    ensures Share(o.terms, n, Slot(ByAccount(o.terms.account), o.terms.instrument, o.terms.side)) == 0 <==> Nothing(o, n)
    ensures Nothing(o, n) ==> forall c :: Share(o.terms, n, c) == 0
  {
  }

  /** The slot in which an event would drift. */
  function Touched(s: State, e: Event): Slot {
    if !Addressed(s, e) || e.Create? || e.ExternalFill? || e.RebuildPos? then Slot(ByAccount(0), 0, Buy) else
    var t := if e.Rebuild? then e.order.terms else s.orders[e.ref].terms;
    Slot(ByAccount(t.account), t.instrument, t.side)
  }

  /** No count drifts if and only if the event is tidy. */
  lemma {:induction false} TidyIffNoDrift(s: State, e: Event)
    ensures Tidy(s, e) <==> Drift(s, e, Touched(s, e)) == 0
    ensures Tidy(s, e) ==> forall c :: Drift(s, e, c) == 0
  {
    hide Share, Validate, Nothing;
    if Addressed(s, e) {
      match e
      case New(ref, _) => NoticedAt(s.orders[ref], -s.orders[ref].Rem()); NothingNeg(s.orders[ref], s.orders[ref].Rem());
      case NewRej(ref) => NoticedAt(s.orders[ref], -s.orders[ref].Rem()); NothingNeg(s.orders[ref], s.orders[ref].Rem());
      case CxlAck(ref) => NoticedAt(s.orders[ref], -s.orders[ref].Rem()); NothingNeg(s.orders[ref], s.orders[ref].Rem());
      case Fill(ref, q) =>
        var n := if s.orders[ref].Rem() <= q then s.orders[ref].Rem() else q;
        NoticedAt(s.orders[ref], -n);
        NothingNeg(s.orders[ref], n);
      case Bust(ref, q) =>
        NoticedAt(s.orders[ref], q);
        NoticedAt(s.orders[ref], -s.orders[ref].Rem());
        NothingNeg(s.orders[ref], s.orders[ref].Rem());
      case Rebuild(o) => NoticedAt(o, -o.Rem()); NothingNeg(o, o.Rem());
      case _ =>
    }
  }

  lemma {:induction false} NothingNeg(o: Order, n: int)
    ensures Nothing(o, -n) <==> Nothing(o, n)
  {
  }

  ghost predicate Exact(s: State) {
    forall c :: Count(s, c) == OpenSum(s.orders, c)
  }

  predicate TidyRun(s: State, es: seq<Event>)
    requires ListsKnown(s)
    decreases |es|
  {
    es == [] || (Tidy(s, es[0]) && TidyRun(Step(s, es[0]), es[1..]))
  }

  /** Every count of every owner is the sum over live orders, after every event of the run. */
  ghost predicate ExactThroughout(s: State, es: seq<Event>)
    requires ListsKnown(s)
    decreases |es|
  {
    Exact(s) && (es == [] || ExactThroughout(Step(s, es[0]), es[1..]))
  }

  lemma {:induction false} TidyStep(s: State, e: Event)
    requires ListsKnown(s) && Exact(s)
    ensures Exact(Step(s, e)) <==> Tidy(s, e)
  {
    hide Step, Drift, Tidy, Count, OpenSum, Touched;
    TidyIffNoDrift(s, e);
    forall c ensures Count(Step(s, e), c) == OpenSum(Step(s, e).orders, c) <==> Drift(s, e, c) == 0 {
      assert Count(s, c) == OpenSum(s.orders, c);
      ExactStep(s, e, c);
    }
  }

  /** A run keeps all counts exact throughout if and only if all its events are tidy. */
  lemma {:induction false} ExactIffTidy(s: State, es: seq<Event>)
    requires ListsKnown(s) && Exact(s)
    ensures ExactThroughout(s, es) <==> TidyRun(s, es)
    decreases |es|
  {
    hide Step, Tidy, Exact;
    if es != [] {
      TidyStep(s, es[0]);
      if Exact(Step(s, es[0])) {
        ExactIffTidy(Step(s, es[0]), es[1..]);
      }
    }
  }

  /** From a fresh start: all counts are exact throughout a run if and only if all its events are tidy. */
  lemma {:induction false} ExactFromFresh(config: Config, es: seq<Event>)
    ensures ExactThroughout(Initial(config), es) <==> TidyRun(Initial(config), es)
  {
    ExactIffTidy(Initial(config), es);
  }
}
