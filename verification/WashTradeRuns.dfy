/**
  Runs from a fresh start, on either side and at any prices, after which two own orders can trade with each other at the
  exchange: a cancel over a modify to a more aggressive price, a second modify over such a one, and the acknowledgement of
  the first of two modifies, the second more aggressive.
 */
module WashTradeRuns {
  import opened OrderTypes
  import opened Pipeline
  import opened Effects
  import opened Acceptance
  import opened WashTradeVerdict
  import opened WashTrade
  import opened WashTradeShadow
  import opened WashTradeSafety
  import TableLaw

  const DESK := Config(1, true, map[7 := RiskParams(true, 100, 100)], map[7 := "ZN"], false)
  const UP := Env(true, Quote(INVALID_TICKS, INVALID_TICKS, INVALID_TICKS), true, true, true)

  function Opposed(d: Side): Side {
    if d == Buy then Sell else Buy
  }

  function Ticket(id: OrderId, side: Side): Terms {
    Terms(id, 1, 2, 7, side, Limit, false, 5)
  }

  function Maker(d: Side, p: Ticks, requested: Ticks, st: OrderState, mods: nat): Order {
    Order(Ticket(100, d), 0, p, requested, st, Counters(mods, 0, 0), false)
  }

  function Taker(d: Side, r: Ticks): Order {
    Fresh(Ticket(101, Opposed(d)), r)
  }

  /** The desk with a sent order on one side and an unsent one on the other. */
  ghost predicate Set(w: World, d: Side, maker: Order, taker: Order, v: Venue) {
    && ListsKnown(w.s) && w.s.config == DESK && w.s.orders == [maker, taker] && w.venue == [v, Venue(INVALID_TICKS, [])]
    && 101 !in w.s.table && ListsAt(w.s, 7) == (if d == Buy then SideLists([0], []) else SideLists([], [0]))
    && At(w.s.ledger.accounts, (1, 7)) == OpenDelta(d, 5)
  }

  // ---------- the opening ----------

  function Opened(d: Side, p: Ticks, r: Ticks): World {
    World(Initial(DESK).(orders := [Fresh(Ticket(100, d), p), Taker(d, r)]), [Venue(INVALID_TICKS, []), Venue(INVALID_TICKS, [])])
  }

  lemma {:induction false} Creates(d: Side, p: Ticks, r: Ticks)
    ensures ListsKnown(Initial(DESK))
    ensures var w := WorldStep(World(Initial(DESK), []), Create(Ticket(100, d), p));
            WorldStep(w, Create(Ticket(101, Opposed(d)), r)) == Opened(d, p, r)
  {
    var w := WorldStep(World(Initial(DESK), []), Create(Ticket(100, d), p));
    assert w.s.orders == [Fresh(Ticket(100, d), p)];
    assert w.venue == [Venue(INVALID_TICKS, [])];
    var x := WorldStep(w, Create(Ticket(101, Opposed(d)), r));
    assert x.venue == [Venue(INVALID_TICKS, []), Venue(INVALID_TICKS, [])];
  }

  lemma {:induction false} MakerAcceptable(d: Side, p: Ticks, r: Ticks)
    requires d != NoSide && ValidTicks(p)
    ensures Acceptable(Opened(d, p, r).s, 0, UP) && OppositeList(Opened(d, p, r).s, Ticket(100, d)) == []
  {
    var s := Opened(d, p, r).s;
    assert Scan(s.orders, [], d, p) == ([], None);
  }

  /** What an accepted first order of an instrument leaves. */
  lemma {:induction false} FirstSent(s: State, ref: OrderRef, env: Env)
    requires Known(s, ref) && ListsKnown(s) && s.orders[ref].cumQty == 0 && ref !in OppositeList(s, s.orders[ref].terms)
    requires Acceptable(s, ref, env) && ListsAt(s, s.orders[ref].terms.instrument) == SideLists([], [])
    requires At(s.ledger.accounts, (s.orders[ref].terms.account, s.orders[ref].terms.instrument)) == FLAT
    ensures var o := s.orders[ref];
            var x := SendNew(s, ref, env);
            && x.1.None? && x.0.orders == s.orders[ref := o.(state := Pending)] && x.0.table == s.table[o.terms.id := ref]
            && ListsAt(x.0, o.terms.instrument) == (if o.terms.side == Buy then SideLists([ref], []) else SideLists([], [ref]))
            && At(x.0.ledger.accounts, (o.terms.account, o.terms.instrument)) == OpenDelta(o.terms.side, o.Rem())
  {
    hide SendNew, At, NewPosting, Part, OpenDelta, Plus, CanSend, CanSendRisk, ChannelSendNew, Validate;
    var o := s.orders[ref];
    AcceptedIff(s, ref, env);
    NewOrders(s, ref, env);
    TableLaw.NewTable(s, ref, env);
    NewLedger(s, ref, env, ByAccount(o.terms.account), o.terms.instrument);
    FirstPosting(o);
    AcceptedLists(s, ref, env);
    assert [] + [ref] == [ref];
  }

  lemma {:induction false} FirstPosting(o: Order)
    requires o.state == Unknown
    ensures Plus(FLAT, Part(NewPosting(o, true, true), ByAccount(o.terms.account), o.terms.instrument)) == OpenDelta(o.terms.side, o.Rem())
  {
    hide OpenDelta;
  }

  lemma {:induction false} MakerSent(d: Side, p: Ticks, r: Ticks)
    requires d != NoSide && ValidTicks(p)
    ensures ListsKnown(Opened(d, p, r).s)
    ensures Set(WorldStep(Opened(d, p, r), New(0, UP)), d, Maker(d, p, INVALID_TICKS, Pending, 0), Taker(d, r), Venue(p, []))
  {
    hide SendNew, Acceptable, OpenDelta;
    var s := Opened(d, p, r).s;
    MakerAcceptable(d, p, r);
    FirstSent(s, 0, UP);
    assert s.orders[0 := s.orders[0].(state := Pending)] == [Maker(d, p, INVALID_TICKS, Pending, 0), Taker(d, r)];
  }

  // ---------- the maker's requests ----------

  lemma {:induction false} MakerAcked(w: World, d: Side, p: Ticks, r: Ticks)
    requires Set(w, d, Maker(d, p, INVALID_TICKS, Pending, 0), Taker(d, r), Venue(p, []))
    ensures Set(WorldStep(w, NewAck(0, UP)), d, Maker(d, p, INVALID_TICKS, Working, 0), Taker(d, r), Venue(p, []))
  {
    hide At;
    var o := Maker(d, p, INVALID_TICKS, Pending, 0);
    assert OnNewAck(w.s, 0, UP) == SetOrder(w.s, 0, o.(state := Working));
  }

  /** A modify request of the maker goes through: nothing is listed on the other side. */
  lemma {:induction false} MakerModified(w: World, d: Side, p: Ticks, q: Ticks, st: OrderState, mods: nat, r: Ticks, v: Venue, next: Ticks)
    requires d != NoSide && (st == Working || st == Modifying) && mods < MAX_MOD_COUNTER && ValidTicks(next) && next != p
    requires Set(w, d, Maker(d, p, q, st, mods), Taker(d, r), v)
    ensures Set(WorldStep(w, Mod(0, next, UP)), d, Maker(d, p, next, Modifying, mods + 1), Taker(d, r), v.(inflight := v.inflight + [next]))
  {
    hide At, SendMod;
    ModTaken(w.s, d, p, q, st, mods, r, next);
    QuietStep(w.s, Mod(0, next, UP));
  }

  lemma {:induction false} ModTaken(s: State, d: Side, p: Ticks, q: Ticks, st: OrderState, mods: nat, r: Ticks, next: Ticks)
    requires d != NoSide && (st == Working || st == Modifying) && mods < MAX_MOD_COUNTER && ValidTicks(next) && next != p
    requires ListsKnown(s) && s.orders == [Maker(d, p, q, st, mods), Taker(d, r)]
    requires ListsAt(s, 7) == (if d == Buy then SideLists([0], []) else SideLists([], [0]))
    ensures var x := SendMod(s, 0, next, UP);
            && x.1.None? && x.0.orders == [Maker(d, p, next, Modifying, mods + 1), Taker(d, r)] && ListsAt(x.0, 7) == ListsAt(s, 7)
  {
    hide CountMsg, Scan;
    var m := CountMsg(SetOrder(s, 0, s.orders[0].(newPrice := next)), 0, MsgMod, 1);
    assert m.orders == [Maker(d, p, next, st, mods), Taker(d, r)];
    var a := OrdersSendMod(m, 0);
    assert a.1.None? && a.0.orders == [Maker(d, p, next, Modifying, mods + 1), Taker(d, r)];
    EmptyScan(a.0.orders, d, next);
    assert CanSend(a.0, 0, next, UP.quote).1.None?;
  }

  lemma {:induction false} EmptyScan(orders: seq<Order>, side: Side, price: Ticks)
    ensures Scan(orders, [], side, price) == ([], None)
  {
  }

  lemma {:induction false} MakerCancelled(w: World, d: Side, p: Ticks, q: Ticks, r: Ticks, v: Venue)
    requires d != NoSide && Set(w, d, Maker(d, p, q, Modifying, 1), Taker(d, r), v)
    ensures Set(WorldStep(w, Cxl(0, UP)), d, Maker(d, p, q, Cancelling, 1), Taker(d, r), v)
  {
    hide At, SendCxl;
    QuietStep(w.s, Cxl(0, UP));
    CancelTaken(w.s, d, p, q, r);
  }

  lemma {:induction false} CancelTaken(s: State, d: Side, p: Ticks, q: Ticks, r: Ticks)
    requires d != NoSide && s.orders == [Maker(d, p, q, Modifying, 1), Taker(d, r)]
    ensures SendCxl(s, 0, UP).0.orders == [Maker(d, p, q, Cancelling, 1), Taker(d, r)]
  {
    hide CountMsg;
  }

  // ---------- the taker ----------

  lemma {:induction false} TakerAcceptable(w: World, d: Side, maker: Order, r: Ticks, v: Venue)
    requires d != NoSide && ValidTicks(r) && Set(w, d, maker, Taker(d, r), v)
    requires !Dead(maker.state) && !Crossing(maker, Opposed(d), r)
    ensures Acceptable(w.s, 1, UP) && 1 !in OppositeList(w.s, Ticket(101, Opposed(d)))
  {
    hide Crossing, Dead;
    assert [0][1..] == [];
    EmptyScan(w.s.orders, Opposed(d), r);
    assert Scan(w.s.orders, [0], Opposed(d), r).1 == None;
  }

  /** The taker goes through and can trade with the maker at a price the exchange may still hold. */
  lemma {:induction false} TakerMeets(w: World, d: Side, maker: Order, r: Ticks, v: Venue, x: Ticks)
    requires d != NoSide && ValidTicks(r) && Set(w, d, maker, Taker(d, r), v)
    requires Live(maker.state) && maker.terms == Ticket(100, d) && !Crossing(maker, Opposed(d), r)
    requires MayTradeAt(v, x) && Behind(d, r, x)
    ensures !Safe(WorldStep(w, New(1, UP)))
  {
    hide SendNew, Acceptable, OppositeList, Safe, Crossing;
    TakerAcceptable(w, d, maker, r, v);
    AcceptedIff(w.s, 1, UP);
    AcceptedMeets(w, 0, 1, x, UP);
  }

  // ---------- the runs ----------

  lemma {:induction false} RunNext(w: World, e: Event, es: seq<Event>)
    requires ListsKnown(w.s) && |w.venue| == |w.s.orders|
    ensures WorldRun(w, [e] + es) == WorldRun(WorldStep(w, e), es)
  {
    hide WorldStep;
    assert ([e] + es)[1..] == es;
  }

  /** Create both orders, send the maker, acknowledge it, modify it. */
  function Prelude(d: Side, p: Ticks, q: Ticks, r: Ticks, rest: seq<Event>): seq<Event> {
    [Create(Ticket(100, d), p)] + ([Create(Ticket(101, Opposed(d)), r)] + ([New(0, UP)] + ([NewAck(0, UP)] + ([Mod(0, q, UP)] + rest))))
  }

  lemma {:induction false} AfterPrelude(d: Side, p: Ticks, q: Ticks, r: Ticks, rest: seq<Event>) returns (w: World)
    requires d != NoSide && ValidTicks(p) && ValidTicks(q) && q != p
    ensures ListsKnown(Initial(DESK)) && Set(w, d, Maker(d, p, q, Modifying, 1), Taker(d, r), Venue(p, [q]))
    ensures WorldRun(World(Initial(DESK), []), Prelude(d, p, q, r, rest)) == WorldRun(w, rest)
  {
    hide WorldStep, WorldRun, Set;
    Creates(d, p, r);
    var w0 := World(Initial(DESK), []);
    var w1 := WorldStep(w0, Create(Ticket(100, d), p));
    var w2 := WorldStep(w1, Create(Ticket(101, Opposed(d)), r));
    MakerSent(d, p, r);
    var w3 := WorldStep(w2, New(0, UP));
    MakerAcked(w3, d, p, r);
    var w4 := WorldStep(w3, NewAck(0, UP));
    MakerModified(w4, d, p, INVALID_TICKS, Working, 0, r, Venue(p, []), q);
    w := WorldStep(w4, Mod(0, q, UP));
    assert Venue(p, []).(inflight := [] + [q]) == Venue(p, [q]);
    RunNext(w4, Mod(0, q, UP), rest);
    RunNext(w3, NewAck(0, UP), [Mod(0, q, UP)] + rest);
    RunNext(w2, New(0, UP), [NewAck(0, UP)] + ([Mod(0, q, UP)] + rest));
    RunNext(w1, Create(Ticket(101, Opposed(d)), r), [New(0, UP)] + ([NewAck(0, UP)] + ([Mod(0, q, UP)] + rest)));
    RunNext(w0, Create(Ticket(100, d), p), [Create(Ticket(101, Opposed(d)), r)] + ([New(0, UP)] + ([NewAck(0, UP)] + ([Mod(0, q, UP)] + rest))));
  }

  /**
    An order at p, modified to q and cancelled before the answer; then an opposite order at r, beyond p but not beyond q.
    From a fresh start, on either side, whatever the prices: the two can trade with each other at the exchange.
   */
  lemma {:induction false} CancelOvertakesModify(d: Side, p: Ticks, q: Ticks, r: Ticks)
    requires d != NoSide && ValidTicks(p) && ValidTicks(q) && ValidTicks(r) && !Behind(d, r, p) && Behind(d, r, q)
    ensures ListsKnown(Initial(DESK)) && !Safe(WorldRun(World(Initial(DESK), []), Prelude(d, p, q, r, [Cxl(0, UP), New(1, UP)])))
  {
    hide WorldStep, WorldRun, Safe;
    var w := AfterPrelude(d, p, q, r, [Cxl(0, UP), New(1, UP)]);
    MakerCancelled(w, d, p, q, r, Venue(p, [q]));
    var x := WorldStep(w, Cxl(0, UP));
    TakerMeets(x, d, Maker(d, p, q, Cancelling, 1), r, Venue(p, [q]), q);
    RunTwo(w, Cxl(0, UP), New(1, UP));
  }

  /** The same with a second modify, to a price that r is beyond, in place of the cancel. */
  lemma {:induction false} SecondModifyHidesFirst(d: Side, p: Ticks, q: Ticks, q': Ticks, r: Ticks)
    requires d != NoSide && ValidTicks(p) && ValidTicks(q) && ValidTicks(q') && ValidTicks(r) && q' != p
    requires !Behind(d, r, p) && Behind(d, r, q) && !Behind(d, r, q')
    ensures ListsKnown(Initial(DESK)) && !Safe(WorldRun(World(Initial(DESK), []), Prelude(d, p, q, r, [Mod(0, q', UP), New(1, UP)])))
  {
    hide WorldStep, WorldRun, Safe;
    var w := AfterPrelude(d, p, q, r, [Mod(0, q', UP), New(1, UP)]);
    MakerModified(w, d, p, q, Modifying, 1, r, Venue(p, [q]), q');
    var x := WorldStep(w, Mod(0, q', UP));
    assert q in [q] + [q'];
    TakerMeets(x, d, Maker(d, p, q', Modifying, 2), r, Venue(p, [q] + [q']), q);
    RunTwo(w, Mod(0, q', UP), New(1, UP));
  }

  lemma {:induction false} MakerAnswered(w: World, d: Side, p: Ticks, q: Ticks, q': Ticks, r: Ticks)
    requires d != NoSide && Set(w, d, Maker(d, p, q', Modifying, 2), Taker(d, r), Venue(p, [q, q']))
    ensures Set(WorldStep(w, ModAck(0, q, UP)), d, Maker(d, q, INVALID_TICKS, Modifying, 1), Taker(d, r), Venue(q, [q']))
  {
    hide At;
    var o := Maker(d, p, q', Modifying, 2);
    var t := SetOrder(w.s, 0, o.(newPrice := q));
    assert OnModPost(t, 0, true).orders == [Maker(d, q, INVALID_TICKS, Modifying, 1), Taker(d, r)];
    assert Answered(Venue(p, [q, q']), true) == Venue(q, [q']);
  }

  /**
    Two modifies in flight, to q and to a more aggressive q'; the exchange acknowledges the first, which clears the second
    from the book while it may still be acted on; then an opposite order at r, beyond q but not beyond q'.
   */
  lemma {:induction false} AckHidesSecond(d: Side, p: Ticks, q: Ticks, q': Ticks, r: Ticks)
    requires d != NoSide && ValidTicks(p) && ValidTicks(q) && ValidTicks(q') && ValidTicks(r) && q != p && q' != p
    requires !Behind(d, r, q) && Behind(d, r, q')
    ensures ListsKnown(Initial(DESK))
    ensures !Safe(WorldRun(World(Initial(DESK), []), Prelude(d, p, q, r, [Mod(0, q', UP)] + [ModAck(0, q, UP), New(1, UP)])))
  {
    hide WorldStep, WorldRun, Safe;
    var w := AfterPrelude(d, p, q, r, [Mod(0, q', UP)] + [ModAck(0, q, UP), New(1, UP)]);
    MakerModified(w, d, p, q, Modifying, 1, r, Venue(p, [q]), q');
    var x := WorldStep(w, Mod(0, q', UP));
    assert [q] + [q'] == [q, q'];
    MakerAnswered(x, d, p, q, q', r);
    var y := WorldStep(x, ModAck(0, q, UP));
    TakerMeets(y, d, Maker(d, q, INVALID_TICKS, Modifying, 1), r, Venue(q, [q']), q');
    RunTwo(x, ModAck(0, q, UP), New(1, UP));
    RunNext(w, Mod(0, q', UP), [ModAck(0, q, UP), New(1, UP)]);
  }

  lemma {:induction false} RunTwo(w: World, e: Event, f: Event)
    requires ListsKnown(w.s) && |w.venue| == |w.s.orders|
    ensures WorldRun(w, [e, f]) == WorldStep(WorldStep(w, e), f)
  {
    hide WorldStep;
    var x := WorldStep(w, e);
    assert [e, f][1..] == [f];
    assert [f][1..] == [];
    assert WorldRun(WorldStep(x, f), []) == WorldStep(x, f);
    assert WorldRun(x, [f]) == WorldStep(x, f);
  }

  /** From any state the invariant holds in: after a cancel that is not gentle, an acceptable opposite order makes the world unsafe. */
  lemma {:induction false} HarshCancelUnsafe(w: World, ref: OrderRef, k: OrderRef, env: Env, env': Env)
    requires Inv(w) && Known(w.s, ref) && !GentleCancel(w.s.orders[ref]) && Known(w.s, k) && ref != k
    requires var t, m := w.s.orders[k].terms, w.s.orders[ref].terms;
             t.instrument == m.instrument && ((m.side == Buy && t.side == Sell) || (m.side == Sell && t.side == Buy))
    requires Behind(w.s.orders[ref].terms.side, w.s.orders[k].price, w.s.orders[ref].newPrice)
    requires var r := WorldStep(w, Cxl(ref, env));
             Known(r.s, k) && r.s.orders[k].cumQty == 0 && k !in OppositeList(r.s, r.s.orders[k].terms) && Acceptable(r.s, k, env')
    ensures !Safe(WorldStep(WorldStep(w, Cxl(ref, env)), New(k, env')))
  {
    hide Inv, SendNew, SendCxl, Safe, OppositeList, GentleCancel;
    CxlLeavesOthers(w, ref, k, env);
    AcceptedIff(WorldStep(w, Cxl(ref, env)).s, k, env');
    HarshCancelExposes(w, ref, k, env, env');
  }
}
