/**
  Wash-trade prevention: the lazily purging scan refines an eager one. Also the vocabulary of the safety theorems:
  the process together with what the exchange holds, and what it means that own orders do not cross.
 */
module WashTrade {
  import opened OrderTypes
  import opened Pipeline
  import opened Effects

  // ---------- the lazy scan refines an eager one ----------

  /** The listed orders that are not dead, in list order. */
  function Alive(orders: seq<Order>, refs: seq<OrderRef>): (r: seq<OrderRef>)
    requires AllKnown(orders, refs)
    ensures AllKnown(orders, r)
    ensures forall x :: x in r <==> x in refs && !Dead(orders[x].state)
  {
    if refs == [] then []
    else if Dead(orders[refs[0]].state) then Alive(orders, refs[1..])
    else [refs[0]] + Alive(orders, refs[1..])
  }

  /** The first order of a list that crosses. */
  function FirstCrossing(orders: seq<Order>, refs: seq<OrderRef>, side: Side, price: Ticks): (r: Option<OrderRef>)
    requires AllKnown(orders, refs)
    ensures r.None? <==> forall x :: x in refs ==> !Crossing(orders[x], side, price)
    ensures r.Some? ==> r.value in refs && Crossing(orders[r.value], side, price)
  {
    if refs == [] then None
    else if Crossing(orders[refs[0]], side, price) then Some(refs[0])
    else FirstCrossing(orders, refs[1..], side, price)
  }

  /** Purging while searching finds what purging first would find, and drops dead orders only. */
  lemma {:induction false} ScanRefinesEager(orders: seq<Order>, refs: seq<OrderRef>, side: Side, price: Ticks)
    requires AllKnown(orders, refs)
    ensures Scan(orders, refs, side, price).1 == FirstCrossing(orders, Alive(orders, refs), side, price)
    ensures Alive(orders, Scan(orders, refs, side, price).0) == Alive(orders, refs)
  {
    if refs != [] {
      ScanRefinesEager(orders, refs[1..], side, price);
      if !Dead(orders[refs[0]].state) && !Crossing(orders[refs[0]], side, price) {
        var rest := Scan(orders, refs[1..], side, price).0;
        assert ([refs[0]] + rest)[1..] == rest;
        assert ([refs[0]] + Alive(orders, refs[1..]))[1..] == Alive(orders, refs[1..]);
      }
    }
  }

  /** The scan finds nothing exactly when no order that is not dead crosses; every such order stays listed. */
  lemma {:induction false} ScanClear(orders: seq<Order>, refs: seq<OrderRef>, side: Side, price: Ticks)
    requires AllKnown(orders, refs)
    ensures Scan(orders, refs, side, price).1.None?
       <==> forall x :: x in refs && !Dead(orders[x].state) ==> !Crossing(orders[x], side, price)
    ensures forall x :: x in refs && !Dead(orders[x].state) ==> x in Scan(orders, refs, side, price).0
  {
    hide Crossing, Dead, Scan;
    ScanRefinesEager(orders, refs, side, price);
    var alive := Alive(orders, refs);
    forall x | x in refs && !Dead(orders[x].state) ensures x in Scan(orders, refs, side, price).0 {
      assert x in alive;
    }
  }

  predicate Stops(o: Order, side: Side, price: Ticks) {
    !Dead(o.state) && Crossing(o, side, price)
  }

  /** Every dead order listed before the one found, or listed at all if none is found, is dropped; the rest is left as it was. */
  lemma {:induction false} ScanPurges(orders: seq<Order>, refs: seq<OrderRef>, side: Side, price: Ticks, n: nat)
    requires AllKnown(orders, refs) && n <= |refs| && forall j :: 0 <= j < n ==> !Stops(orders[refs[j]], side, price)
    requires n < |refs| ==> Stops(orders[refs[n]], side, price)
    ensures Scan(orders, refs, side, price) == (Alive(orders, refs[..n]) + refs[n..], if n < |refs| then Some(refs[n]) else None)
    decreases n
  {
    hide Crossing, Dead, Alive, Scan;
    if n == 0 {
      assert refs[..0] == [] && refs[0..] == refs && [] + refs == refs;
    }
    ScanHead(orders, refs, side, price);
    if n > 0 {
      var rest := refs[1..];
      assert forall j :: 0 <= j < n - 1 ==> rest[j] == refs[j + 1];
      ScanPurges(orders, rest, side, price, n - 1);
      AliveHead(orders, refs, n);
      assert rest[n - 1..] == refs[n..];
      var kept := Alive(orders, rest[..n - 1]);
      assert [refs[0]] + (kept + refs[n..]) == [refs[0]] + kept + refs[n..] && [] + kept == kept;
    }
  }

  lemma {:induction false} ScanHead(orders: seq<Order>, refs: seq<OrderRef>, side: Side, price: Ticks)
    requires AllKnown(orders, refs)
    ensures var r := Scan(orders, refs, side, price);
            if refs == [] then r == ([], None)
            else if Stops(orders[refs[0]], side, price) then r == (refs, Some(refs[0]))
            else if Dead(orders[refs[0]].state) then r == Scan(orders, refs[1..], side, price)
            else r == ([refs[0]] + Scan(orders, refs[1..], side, price).0, Scan(orders, refs[1..], side, price).1)
    ensures Alive(orders, []) == []
  {
    hide Crossing, Dead;
  }

  lemma {:induction false} AliveHead(orders: seq<Order>, refs: seq<OrderRef>, n: nat)
    requires AllKnown(orders, refs) && 0 < n <= |refs|
    ensures Alive(orders, refs[..n]) == (if Dead(orders[refs[0]].state) then [] else [refs[0]]) + Alive(orders, refs[1..][..n - 1])
  {
    hide Dead;
    assert refs[..n][1..] == refs[1..][..n - 1];
  }

  // ---------- the exchange's view ----------

  /** The price at which the exchange holds an order, and the prices of modify requests it has not answered. */
  datatype Venue = Venue(resting: Ticks, inflight: seq<Ticks>)

  predicate MayTradeAt(v: Venue, p: Ticks) {
    p == v.resting || p in v.inflight
  }

  datatype World = World(s: State, venue: seq<Venue>)

  /** The exchange answers the modify requests of an order in the order they were sent. */
  function Answered(v: Venue, taken: bool): Venue {
    if v.inflight == [] then v
    else Venue(if taken then v.inflight[0] else v.resting, v.inflight[1..])
  }

  /** One event, seen from both ends: what the process does, and what the exchange then holds. */
  function VenueStep(w: World, e: Event): (venue: seq<Venue>)
    requires ListsKnown(w.s) && |w.venue| == |w.s.orders|
    ensures |venue| == |Step(w.s, e).orders|
  {
    var s' := Step(w.s, e);
    if |s'.orders| > |w.s.orders| then
      w.venue + seq(|s'.orders| - |w.s.orders|, k => Venue(if e.Rebuild? then e.order.price else INVALID_TICKS, []))
    else if !Addressed(w.s, e) then w.venue
    else match e
      case New(ref, env) =>
        if SendNew(w.s, ref, env).1.None? then w.venue[ref := Venue(w.s.orders[ref].price, [])] else w.venue
      case Mod(ref, p, env) =>
        if SendMod(w.s, ref, p, env).1.None?
        then w.venue[ref := w.venue[ref].(inflight := w.venue[ref].inflight + [p])] else w.venue
      case ModAck(ref, _, _) => w.venue[ref := Answered(w.venue[ref], true)]
      case ModRej(ref, _) => w.venue[ref := Answered(w.venue[ref], false)]
      case _ => w.venue
  }

  function WorldStep(w: World, e: Event): (r: World)
    requires ListsKnown(w.s) && |w.venue| == |w.s.orders|
    ensures ListsKnown(r.s) && |r.venue| == |r.s.orders| && r.s.config == w.s.config
  {
    World(Step(w.s, e), VenueStep(w, e))
  }

  function WorldRun(w: World, es: seq<Event>): (r: World)
    requires ListsKnown(w.s) && |w.venue| == |w.s.orders|
    ensures ListsKnown(r.s) && |r.venue| == |r.s.orders|
    decreases |es|
  {
    if es == [] then w else WorldRun(WorldStep(w, es[0]), es[1..])
  }

  /** A live buy and a live sell of one instrument. */
  predicate Facing(b: Order, a: Order) {
    Live(b.state) && Live(a.state) && b.terms.side == Buy && a.terms.side == Sell && b.terms.instrument == a.terms.instrument
  }

  /** No live buy can trade with a live sell of the same instrument at any price the exchange may hold. */
  ghost predicate Safe(w: World)
    requires |w.venue| == |w.s.orders|
  {
    forall b, a, pb, pa ::
      0 <= b < |w.s.orders| && 0 <= a < |w.s.orders|
      && Facing(w.s.orders[b], w.s.orders[a]) && MayTradeAt(w.venue[b], pb) && MayTradeAt(w.venue[a], pa)
      ==> pb < pa
  }

  // ---------- the process's own book ----------

  /** The prices the process knows of an order: its price, and the requested one while modifying. */
  predicate Quotes(o: Order, p: Ticks) {
    p == o.price || (o.state == Modifying && ValidTicks(p) && p == o.newPrice)
  }

  ghost predicate Apart(b: Order, a: Order) {
    forall pb, pa :: Quotes(b, pb) && Quotes(a, pa) ==> pb < pa
  }

  /** Every live buy is priced strictly below every live sell of its instrument, requested prices included. */
  ghost predicate NoCross(orders: seq<Order>) {
    forall b, a :: 0 <= b < |orders| && 0 <= a < |orders| && Facing(orders[b], orders[a]) ==> Apart(orders[b], orders[a])
  }

  /** A live order has a side and a price; while it modifies, its requested price is the one request in flight, or cleared. */
  predicate Booked(o: Order, v: Venue) {
    Live(o.state) ==>
      && o.terms.side != NoSide && ValidTicks(o.price)
      && (o.state == Modifying ==> if ValidTicks(o.newPrice) then v.inflight == [o.newPrice] else v.inflight == [])
  }

  ghost predicate AllBooked(orders: seq<Order>, venue: seq<Venue>) {
    |venue| == |orders| && forall k :: 0 <= k < |orders| ==> Booked(orders[k], venue[k])
  }

  function ListOf(lists: map<InstrumentId, SideLists>, t: Terms): seq<OrderRef> {
    if t.instrument !in lists then []
    else if t.side == Buy then lists[t.instrument].buys else lists[t.instrument].sells
  }

  /** Every live order, except possibly one on its way in, is on the list of its side. */
  ghost predicate CoveredBut(orders: seq<Order>, lists: map<InstrumentId, SideLists>, x: int) {
    forall k :: 0 <= k < |orders| && k != x && Live(orders[k].state) ==> k in ListOf(lists, orders[k].terms)
  }

  ghost predicate Covered(orders: seq<Order>, lists: map<InstrumentId, SideLists>) {
    CoveredBut(orders, lists, -1)
  }

  ghost predicate BookInv(w: World)
    ensures BookInv(w) ==> ListsKnown(w.s) && |w.venue| == |w.s.orders|
  {
    && !w.s.config.useQuotes && ListsKnown(w.s)
    && AllBooked(w.s.orders, w.venue) && Covered(w.s.orders, w.s.lists) && NoCross(w.s.orders)
  }

  // ---------- one order changes ----------

  /** The order is not live afterwards, or it was live and quotes no new price. */
  predicate Shrinks(o: Order, o': Order) {
    o'.terms == o.terms
    && (Live(o'.state) ==>
          Live(o.state) && Quotes(o, o'.price) && (o'.state == Modifying && ValidTicks(o'.newPrice) ==> Quotes(o, o'.newPrice)))
  }

  lemma {:induction false} ShrinkCovers(orders: seq<Order>, lists: map<InstrumentId, SideLists>, ref: OrderRef, o: Order)
    requires ref < |orders| && Shrinks(orders[ref], o) && Covered(orders, lists)
    ensures Covered(orders[ref := o], lists)
  {
  }

  lemma {:induction false} ShrinkKeeps(orders: seq<Order>, lists: map<InstrumentId, SideLists>, ref: OrderRef, o: Order)
    requires ref < |orders| && Shrinks(orders[ref], o) && NoCross(orders) && Covered(orders, lists)
    ensures NoCross(orders[ref := o]) && Covered(orders[ref := o], lists)
  {
    var after := orders[ref := o];
    forall b, a | 0 <= b < |after| && 0 <= a < |after| && Facing(after[b], after[a]) ensures Apart(after[b], after[a]) {
      assert Facing(orders[b], orders[a]);
      assert Apart(orders[b], orders[a]);
    }
  }

  /** An event that changes one order, shrinking what it quotes, keeps the book in order. */
  lemma {:induction false} BookShrink(w: World, r: State, ref: OrderRef, v: Venue)
    requires BookInv(w) && Known(w.s, ref) && |r.orders| == |w.s.orders|
    requires r.config == w.s.config && r.lists == w.s.lists && r.orders == w.s.orders[ref := r.orders[ref]]
    requires Shrinks(w.s.orders[ref], r.orders[ref]) && Booked(r.orders[ref], v)
    ensures BookInv(World(r, w.venue[ref := v]))
  {
    hide Shrinks, Booked, NoCross, Covered;
    ShrinkKeeps(w.s.orders, w.s.lists, ref, r.orders[ref]);
    assert ListsKnown(r);
  }
}
