/**
  Response routing through replace chains. The session keeps a table from ClOrdID to order; modify and cancel requests
  add ids, answers remove them. Whatever the interleaving, an open order is found under every id the exchange may quote.
 */
module Routing {
  import opened OrderTypes

  /** A ClOrdID by its number in the id factory; 0 stands for an absent field. */
  type ClOrdId = nat
  const NO_ID: ClOrdId := 0

  /** The ids an order carries: of its last request, and of the last acknowledged one. */
  datatype Ids = Ids(cl: ClOrdId, orig: ClOrdId)

  /** The process: the table, the ids of its orders, and the id counter. */
  datatype Session = Session(table: map<ClOrdId, OrderRef>, ids: seq<Ids>, lastId: ClOrdId)

  datatype RespKind = NewAck | NewRej | ModAck | ModRej | CxlAck | CxlRej | PartFill | FullFill | TradeBreak

  /** An exchange response: its kind, ClOrdID and OrigClOrdID, and whether it carries a price. */
  datatype Resp = Resp(kind: RespKind, cl: ClOrdId, orig: ClOrdId, priced: bool)

  // ---------- the process ----------

  function Put(t: map<ClOrdId, OrderRef>, id: ClOrdId, ref: OrderRef): map<ClOrdId, OrderRef> {
    if id in t then t else t[id := ref]
  }

  /** A new order takes its id before the session is checked, and enters the table after. */
  function SendNew(s: Session, loggedOn: bool): Session {
    var id := s.lastId + 1;
    Session(if loggedOn then Put(s.table, id, |s.ids|) else s.table, s.ids + [Ids(id, id)], id)
  }

  /** A modify or cancel request: a fresh ClOrdID, quoting the last acknowledged one. */
  function SendRequest(s: Session, ref: OrderRef, loggedOn: bool): Session
    requires ref < |s.ids|
  {
    if !loggedOn then s else
    var id := s.lastId + 1;
    Session(Put(s.table, id, ref), s.ids[ref := s.ids[ref].(cl := id)], id)
  }

  /** The order a response belongs to: by ClOrdID, else by OrigClOrdID. */
  function Find(s: Session, r: Resp): Option<OrderRef> {
    if r.cl in s.table then Some(s.table[r.cl]) else if r.orig in s.table then Some(s.table[r.orig]) else None
  }

  predicate TableKnown(s: Session) {
    forall id :: id in s.table ==> s.table[id] < |s.ids|
  }

  /** What a response does to the table, and a modify acknowledgement with a price to the order's ids. */
  function Process(s: Session, r: Resp): Session
    requires TableKnown(s)
  {
    match r.kind
    case NewRej => s.(table := Dropped(s.table, r))
    case ModRej => s.(table := Dropped(s.table, r))
    case CxlRej => s.(table := Dropped(s.table, r))
    case ModAck =>
      var t := if r.cl != r.orig then s.table - {r.orig} else s.table;
      var found := Find(s, r);
      var t' := if found.Some? && s.ids[found.value].orig != r.cl then t - {s.ids[found.value].orig} else t;
      if found.Some? && r.priced
      then s.(table := t', ids := s.ids[found.value := Ids(r.cl, r.cl)])
      else s.(table := t')
    case CxlAck => s.(table := s.table - {r.cl} - {r.orig})
    case FullFill => s.(table := s.table - {r.cl} - {r.orig})
    case _ => s
  }

  function Dropped(t: map<ClOrdId, OrderRef>, r: Resp): map<ClOrdId, OrderRef> {
    if r.cl != r.orig then t - {r.cl} else t
  }

  /** A new order while the session is down takes an id, and no response will find it; a request takes none. */
  lemma {:induction false} DownNotRouted(s: Session, ref: OrderRef)
    requires TableKnown(s) && ref < |s.ids|
    ensures var r := SendNew(s, false);
            && r.table == s.table && r.lastId == s.lastId + 1 && |r.ids| == |s.ids| + 1
            && forall x: Resp :: Find(r, x) != Some(|s.ids|)
    ensures SendRequest(s, ref, false) == s
  {
  }

  /** A reject takes its own ClOrdID out of the table, unless it quotes the same as OrigClOrdID, and no other id. */
  lemma {:induction false} RejectDropsOwn(s: Session, r: Resp)
    requires TableKnown(s) && (r.kind.NewRej? || r.kind.ModRej? || r.kind.CxlRej?)
    ensures var t := Process(s, r);
            && t.ids == s.ids && t.table.Keys == s.table.Keys - (if r.cl == r.orig then {} else {r.cl})
            && forall id :: id in t.table ==> t.table[id] == s.table[id]
  {
  }

  /**
    A modify acknowledgement belongs to the order under its ClOrdID, or else under its OrigClOrdID. Neither the id it
    quotes as replaced nor the order's former one stays in the table, unless it is the ClOrdID itself; all others do.
   */
  lemma {:induction false} AckDropsReplaced(s: Session, r: Resp)
    requires TableKnown(s) && r.kind.ModAck?
    ensures var t, k := Process(s, r), if r.cl in s.table then r.cl else r.orig;
            && (k in s.table ==> Find(s, r) == Some(s.table[k]))
            && (forall id :: id in t.table <==>
                  id in s.table && (id == r.cl || (id != r.orig && (k in s.table ==> id != s.ids[s.table[k]].orig))))
            && (forall id :: id in t.table ==> t.table[id] == s.table[id])
            && (k in s.table && r.priced ==> t.ids == s.ids[s.table[k] := Ids(r.cl, r.cl)])
            && (k !in s.table || !r.priced ==> t.ids == s.ids)
  {
  }

  // ---------- the exchange ----------

  /** An order at the exchange: is it open, its last acknowledged id, is the new order unanswered, open requests. */
  datatype Remote = Remote(open: bool, last: ClOrdId, newPending: bool, requests: set<ClOrdId>)

  /** Process and exchange together; `owner` remembers for which order an id was issued. */
  datatype World = World(s: Session, remote: seq<Remote>, owner: map<ClOrdId, OrderRef>)

  datatype Event = New(loggedOn: bool) | Request(ref: OrderRef, loggedOn: bool) | Response(ref: OrderRef, resp: Resp)

  predicate Addressed(w: World, e: Event) {
    !e.New? ==> e.ref < |w.s.ids| && e.ref < |w.remote|
  }

  /** What the exchange holds after it has sent a response about an order. */
  function Answered(x: Remote, r: Resp): Remote {
    match r.kind
    case NewAck => x.(newPending := false)
    case NewRej => x.(open := false, newPending := false)
    case ModAck => x.(last := r.cl, requests := x.requests - {r.cl})
    case ModRej => x.(requests := x.requests - {r.cl})
    case CxlRej => x.(requests := x.requests - {r.cl})
    case CxlAck => x.(open := false, requests := x.requests - {r.cl})
    case FullFill => x.(open := false)
    case _ => x
  }

  function Step(w: World, e: Event): World
    requires TableKnown(w.s) && |w.remote| == |w.s.ids|
  {
    if !Addressed(w, e) then w else
    match e
    case New(on) =>
      var id := w.s.lastId + 1;
      World(SendNew(w.s, on), w.remote + [Remote(on, id, on, {})], w.owner[id := |w.s.ids|])
    case Request(ref, on) =>
      if !on then w else
      var id := w.s.lastId + 1;
      World(SendRequest(w.s, ref, on), w.remote[ref := w.remote[ref].(requests := w.remote[ref].requests + {id})], w.owner[id := ref])
    case Response(ref, r) =>
      w.(s := Process(w.s, r), remote := w.remote[ref := Answered(w.remote[ref], r)])
  }

  /**
    The exchange quotes ids of the order it speaks about. It acknowledges a request only while the order is open and the
    new order itself is answered, rejects a request with a different OrigClOrdID (or none), never names an open request as
    the replaced order, and ends an order under the ClOrdID it last acknowledged or under an open request.
   */
  predicate Honest(w: World, e: Event)
    requires Addressed(w, e)
  {
    e.Response? ==>
      var x, r := w.remote[e.ref], e.resp;
      && (r.orig == NO_ID || (r.orig in w.owner && w.owner[r.orig] == e.ref))
      && match r.kind
         case NewAck => x.open && x.newPending && r.cl == x.last
         case NewRej => x.open && x.newPending && r.cl == x.last && r.orig != r.cl
         case ModAck => x.open && !x.newPending && r.cl in x.requests && r.orig !in x.requests
         case ModRej => r.cl in x.requests && r.orig != r.cl
         case CxlRej => r.cl in x.requests && r.orig != r.cl
         case CxlAck => x.open && (r.cl in x.requests || r.cl == x.last)
         case FullFill => x.open && r.cl == x.last
         case PartFill => x.open && r.cl == x.last
         case TradeBreak => true
  }

  // ---------- the invariant ----------

  /** The ids under which an open order must be found. */
  function Live(x: Remote): set<ClOrdId> {
    x.requests + {x.last}
  }

  ghost predicate Issued(w: World) {
    && |w.remote| == |w.s.ids|
    && (forall id :: id in w.owner ==> 0 < id <= w.s.lastId && w.owner[id] < |w.s.ids|)
    && (forall ref :: 0 <= ref < |w.s.ids| ==> OrderIssued(w, ref))
  }

  /** An order's ids were issued for it, and its acknowledged ids are not open requests. */
  ghost predicate OrderIssued(w: World, ref: OrderRef)
    requires ref < |w.s.ids| && ref < |w.remote|
  {
    var x, o := w.remote[ref], w.s.ids[ref];
    && (forall id :: id in Live(x) ==> id in w.owner && w.owner[id] == ref)
    && o.orig in w.owner && w.owner[o.orig] == ref
    && x.last !in x.requests && o.orig !in x.requests
  }

  /** Every table entry leads to the order its id was issued for. */
  ghost predicate NeverMisrouted(w: World) {
    forall id :: id in w.s.table ==> id in w.owner && w.s.table[id] == w.owner[id]
  }

  /** An open order is in the table under its last acknowledged id and under every unanswered request. */
  ghost predicate Routed(w: World)
    requires |w.remote| == |w.s.ids|
  {
    forall ref, id :: 0 <= ref < |w.s.ids| && w.remote[ref].open && id in Live(w.remote[ref]) ==> id in w.s.table
  }

  ghost predicate Inv(w: World) {
    Issued(w) && NeverMisrouted(w) && Routed(w)
  }

  lemma {:induction false} InvTable(w: World)
    requires Inv(w)
    ensures TableKnown(w.s) && |w.remote| == |w.s.ids|
  {
  }

  lemma {:induction false} InvNew(w: World, on: bool)
    requires Inv(w)
    ensures TableKnown(w.s) && |w.remote| == |w.s.ids| && Inv(Step(w, New(on)))
  {
    var w' := Step(w, New(on));
    assert w.s.lastId + 1 !in w.owner;
    forall ref | 0 <= ref < |w.s.ids| ensures OrderIssued(w', ref) {
      assert OrderIssued(w, ref);
    }
  }

  lemma {:induction false} InvRequest(w: World, ref: OrderRef, on: bool)
    requires Inv(w) && ref < |w.s.ids|
    ensures TableKnown(w.s) && |w.remote| == |w.s.ids| && Inv(Step(w, Request(ref, on)))
  {
    var w' := Step(w, Request(ref, on));
    assert w.s.lastId + 1 !in w.owner;
    forall k | 0 <= k < |w.s.ids| ensures OrderIssued(w', k) {
      assert OrderIssued(w, k);
    }
    forall k, id | 0 <= k < |w'.s.ids| && w'.remote[k].open && id in Live(w'.remote[k]) ensures id in w'.s.table {
      if id != w.s.lastId + 1 { assert id in Live(w.remote[k]); }
    }
  }

  /** Every response about an open order finds that order. */
  lemma {:induction false} ResponseFindsOrder(w: World, ref: OrderRef, r: Resp)
    requires Inv(w) && ref < |w.s.ids| && Honest(w, Response(ref, r)) && w.remote[ref].open && !r.kind.TradeBreak?
    ensures Find(w.s, r) == Some(ref)
  {
    assert OrderIssued(w, ref);
    assert r.cl in Live(w.remote[ref]);
  }

  lemma {:induction false} InvResponse(w: World, ref: OrderRef, r: Resp)
    requires Inv(w) && ref < |w.s.ids| && Honest(w, Response(ref, r))
    ensures TableKnown(w.s) && |w.remote| == |w.s.ids| && Inv(Step(w, Response(ref, r)))
  {
    InvTable(w);
    ProcessKeepsOwners(w, ref, r);
    ProcessKeepsRouted(w, ref, r);
    ProcessKeepsIssued(w, ref, r);
  }

  lemma {:induction false} ProcessKeepsOwners(w: World, ref: OrderRef, r: Resp)
    requires TableKnown(w.s) && Inv(w) && ref < |w.s.ids|
    ensures NeverMisrouted(Step(w, Response(ref, r)))
  {
    hide Find;
  }

  /** No answer removes an id under which an open order must still be found. */
  lemma {:induction false} ProcessKeepsRouted(w: World, ref: OrderRef, r: Resp)
    requires TableKnown(w.s) && Inv(w) && ref < |w.s.ids| && Honest(w, Response(ref, r))
    ensures Routed(Step(w, Response(ref, r)))
  {
    var w' := Step(w, Response(ref, r));
    assert OrderIssued(w, ref);
    if w.remote[ref].open && !r.kind.TradeBreak? { ResponseFindsOrder(w, ref, r); }
    forall k, id | 0 <= k < |w'.s.ids| && w'.remote[k].open && id in Live(w'.remote[k]) ensures id in w'.s.table {
      assert OrderIssued(w, k);
      assert id in Live(w.remote[k]);
    }
  }

  lemma {:induction false} ProcessKeepsIssued(w: World, ref: OrderRef, r: Resp)
    requires TableKnown(w.s) && Inv(w) && ref < |w.s.ids| && Honest(w, Response(ref, r))
    ensures Issued(Step(w, Response(ref, r)))
  {
    var w' := Step(w, Response(ref, r));
    assert OrderIssued(w, ref);
    if w.remote[ref].open && !r.kind.TradeBreak? { ResponseFindsOrder(w, ref, r); }
    forall k | 0 <= k < |w.s.ids| ensures OrderIssued(w', k) {
      assert OrderIssued(w, k);
    }
  }

  // ---------- runs ----------

  lemma {:induction false} InvStep(w: World, e: Event)
    requires Inv(w) && (Addressed(w, e) ==> Honest(w, e))
    ensures TableKnown(w.s) && |w.remote| == |w.s.ids| && Inv(Step(w, e))
  {
    hide Inv, Honest, Process, SendNew, SendRequest;
    InvTable(w);
    if Addressed(w, e) {
      match e
      case New(on) => InvNew(w, on);
      case Request(ref, on) => InvRequest(w, ref, on);
      case Response(ref, r) => InvResponse(w, ref, r);
    }
  }

  /** A run, event by event, each response honest when it is sent. */
  ghost predicate HonestRun(w: World, es: seq<Event>)
    requires Inv(w)
    decreases |es|
  {
    es == [] || ((Addressed(w, es[0]) ==> Honest(w, es[0])) && (InvStep(w, es[0]); HonestRun(Step(w, es[0]), es[1..])))
  }

  ghost function Run(w: World, es: seq<Event>): World
    requires Inv(w) && HonestRun(w, es)
    decreases |es|
  {
    if es == [] then w else (InvStep(w, es[0]); Run(Step(w, es[0]), es[1..]))
  }

  /** Any interleaving of new orders, overlapping modifies, cancels, acknowledgements and rejects keeps every open order routed. */
  lemma {:induction false} AlwaysRouted(w: World, es: seq<Event>)
    requires Inv(w) && HonestRun(w, es)
    ensures Inv(Run(w, es)) && Routed(Run(w, es)) && NeverMisrouted(Run(w, es))
    decreases |es|
  {
    hide Step, Honest, Issued, NeverMisrouted;
    if es != [] {
      InvStep(w, es[0]);
      AlwaysRouted(Step(w, es[0]), es[1..]);
    }
  }

  const START := World(Session(map[], [], 0), [], map[])

  lemma {:induction false} FreshInv()
    ensures Inv(START)
  {
  }

  /** From an empty session: any interleaving keeps every open order routed, and no id leads to another order. */
  lemma {:induction false} RoutedFromFresh(es: seq<Event>)
    requires HonestRun(START, es)
    ensures Inv(Run(START, es)) && Routed(Run(START, es)) && NeverMisrouted(Run(START, es))
  {
    FreshInv();
    AlwaysRouted(START, es);
  }

  // ---------- nothing left over ----------

  /** The table entries of an order. */
  ghost function Keys(w: World, ref: OrderRef): set<ClOrdId> {
    set id | id in w.s.table && w.s.table[id] == ref
  }

  /** An open order has exactly the entries it needs, and knows its last acknowledged id. */
  ghost predicate Exact(w: World)
    requires |w.remote| == |w.s.ids|
  {
    forall ref :: 0 <= ref < |w.s.ids| && w.remote[ref].open ==> Keys(w, ref) == Live(w.remote[ref]) && w.s.ids[ref].orig == w.remote[ref].last
  }

  /** The table keeps no stale id of an open order, as long as modify acknowledgements carry their price. */
  lemma {:induction false} ExactResponse(w: World, ref: OrderRef, r: Resp)
    requires Inv(w) && TableKnown(w.s) && Exact(w) && ref < |w.s.ids| && Honest(w, Response(ref, r))
    requires r.kind.ModAck? ==> r.priced
    ensures |Step(w, Response(ref, r)).remote| == |Step(w, Response(ref, r)).s.ids| && Exact(Step(w, Response(ref, r)))
  {
    var w' := Step(w, Response(ref, r));
    assert OrderIssued(w, ref);
    if w.remote[ref].open && !r.kind.TradeBreak? { ResponseFindsOrder(w, ref, r); }
    forall k | 0 <= k < |w.s.ids| && w'.remote[k].open
      ensures Keys(w', k) == Live(w'.remote[k]) && w'.s.ids[k].orig == w'.remote[k].last
    {
      assert OrderIssued(w, k);
      assert Keys(w, k) == Live(w.remote[k]);
    }
  }

  lemma {:induction false} ExactRequest(w: World, ref: OrderRef, on: bool)
    requires Inv(w) && TableKnown(w.s) && Exact(w) && ref < |w.s.ids|
    ensures |Step(w, Request(ref, on)).remote| == |Step(w, Request(ref, on)).s.ids| && Exact(Step(w, Request(ref, on)))
  {
    var w' := Step(w, Request(ref, on));
    assert w.s.lastId + 1 !in w.s.table;
    forall k | 0 <= k < |w.s.ids| && w'.remote[k].open
      ensures Keys(w', k) == Live(w'.remote[k]) && w'.s.ids[k].orig == w'.remote[k].last
    {
      assert Keys(w, k) == Live(w.remote[k]);
      if on {
        var id := w.s.lastId + 1;
        assert Keys(w', k) == Keys(w, k) + if k == ref then {id} else {};
      }
    }
  }

  lemma {:induction false} ExactNew(w: World, on: bool)
    requires Inv(w) && TableKnown(w.s) && Exact(w)
    ensures |Step(w, New(on)).remote| == |Step(w, New(on)).s.ids| && Exact(Step(w, New(on)))
  {
    var w' := Step(w, New(on));
    assert w.s.lastId + 1 !in w.s.table;
    forall k | 0 <= k < |w'.s.ids| && w'.remote[k].open
      ensures Keys(w', k) == Live(w'.remote[k]) && w'.s.ids[k].orig == w'.remote[k].last
    {
      if k < |w.s.ids| {
        assert Keys(w, k) == Live(w.remote[k]);
        assert Keys(w', k) == Keys(w, k);
      } else {
        assert Keys(w', k) == {w.s.lastId + 1};
      }
    }
  }

  lemma {:induction false} ExactStep(w: World, e: Event)
    requires Inv(w) && TableKnown(w.s) && Exact(w) && (Addressed(w, e) ==> Honest(w, e)) && Priced(e)
    ensures |Step(w, e).remote| == |Step(w, e).s.ids| && Exact(Step(w, e))
  {
    hide Inv, Exact, Honest, Process, SendNew, SendRequest;
    InvTable(w);
    if Addressed(w, e) {
      match e
      case New(on) => ExactNew(w, on);
      case Request(ref, on) => ExactRequest(w, ref, on);
      case Response(ref, r) => ExactResponse(w, ref, r);
    }
  }

  /** A modify acknowledgement carries its price. */
  predicate Priced(e: Event) {
    e.Response? && e.resp.kind.ModAck? ==> e.resp.priced
  }

  /** Over a whole run every open order is found under its last acknowledged id, its open requests, and nothing else. */
  lemma {:induction false} AlwaysExact(w: World, es: seq<Event>)
    requires Inv(w) && Exact(w) && HonestRun(w, es) && forall i :: 0 <= i < |es| ==> Priced(es[i])
    ensures Inv(Run(w, es)) && Exact(Run(w, es))
    decreases |es|
  {
    hide Step, Honest, Exact, Issued, NeverMisrouted, Routed, Priced;
    if es != [] {
      InvStep(w, es[0]);
      ExactStep(w, es[0]);
      AlwaysExact(Step(w, es[0]), es[1..]);
    }
  }

  /** The same from an empty session. */
  lemma {:induction false} ExactFromFresh(es: seq<Event>)
    requires HonestRun(START, es) && forall i :: 0 <= i < |es| ==> Priced(es[i])
    ensures Inv(Run(START, es)) && Exact(Run(START, es))
  {
    FreshInv();
    AlwaysExact(START, es);
  }

  // ---------- the order's own ClOrdID ----------

  /** The ClOrdID an order carries after an event: of the request just sent, or of the modify just acknowledged with a price. */
  function CurrentAfter(w: World, e: Event, k: OrderRef, cl: ClOrdId): ClOrdId {
    if !Addressed(w, e) then cl else
    match e
    case New(_) => if k == |w.s.ids| then w.s.lastId + 1 else cl
    case Request(ref, on) => if ref == k && on then w.s.lastId + 1 else cl
    case Response(_, r) => if r.kind.ModAck? && r.priced && Find(w.s, r) == Some(k) then r.cl else cl
  }

  /** The ClOrdID of order k as the events of a run make it, starting from one. */
  ghost function Current(w: World, es: seq<Event>, k: OrderRef, cl: ClOrdId): ClOrdId
    requires Inv(w) && HonestRun(w, es)
    decreases |es|
  {
    if es == [] then cl else (InvStep(w, es[0]); Current(Step(w, es[0]), es[1..], k, CurrentAfter(w, es[0], k, cl)))
  }

  lemma {:induction false} ClStep(w: World, e: Event, k: OrderRef)
    requires Inv(w) && (Addressed(w, e) ==> Honest(w, e))
    ensures TableKnown(w.s) && |w.remote| == |w.s.ids| && |w.s.ids| <= |Step(w, e).s.ids| <= |w.s.ids| + 1
    ensures k < |w.s.ids| ==> Step(w, e).s.ids[k].cl == CurrentAfter(w, e, k, w.s.ids[k].cl)
    ensures k == |w.s.ids| < |Step(w, e).s.ids| ==> forall c :: Step(w, e).s.ids[k].cl == CurrentAfter(w, e, k, c)
  {
    hide OrderIssued, NeverMisrouted, Routed, Honest;
    InvTable(w);
    if Addressed(w, e) {
      match e case New(_) => case Request(_, _) => case Response(_, r) =>
    }
  }

  /** Over every run an order carries the ClOrdID of its last request, until an acknowledged modify puts its own in place. */
  lemma {:induction false} CarriesLastId(w: World, es: seq<Event>, k: OrderRef, cl: ClOrdId)
    requires Inv(w) && HonestRun(w, es) && k < |Run(w, es).s.ids| && (k < |w.s.ids| ==> cl == w.s.ids[k].cl)
    ensures Run(w, es).s.ids[k].cl == Current(w, es, k, cl)
    decreases |es|
  {
    hide Step, Honest, Inv, CurrentAfter;
    if es != [] {
      InvStep(w, es[0]);
      ClStep(w, es[0], k);
      CarriesLastId(Step(w, es[0]), es[1..], k, CurrentAfter(w, es[0], k, cl));
    }
  }

  /**
    When an order ends, exactly the quoted ids leave the table. So it leaves nothing behind if and only if no other
    request is open and the response quotes both remaining ids; otherwise the other entries stay for good.
   */
  lemma {:induction false} ClosingLeaves(w: World, ref: OrderRef, r: Resp)
    requires Inv(w) && TableKnown(w.s) && Exact(w) && ref < |w.s.ids| && Honest(w, Response(ref, r))
    requires r.kind.CxlAck? || r.kind.FullFill?
    ensures var x := w.remote[ref];
            var w' := Step(w, Response(ref, r));
            Keys(w', ref) == Live(x) - {r.cl, r.orig} && (Keys(w', ref) == {} <==> Live(x) <= {r.cl, r.orig})
  {
    assert Keys(w, ref) == Live(w.remote[ref]);
    var k := Keys(Step(w, Response(ref, r)), ref);
    assert k == Live(w.remote[ref]) - {r.cl, r.orig};
  }

  // ---------- the session object ----------

  class OnixSession {
    var table: map<ClOrdId, OrderRef>
    var ids: seq<Ids>
    var lastId: ClOrdId

    ghost function View(): Session
      reads this
    {
      Session(table, ids, lastId)
    }

    constructor ()
      ensures View() == Session(map[], [], 0)
    {
      table, ids, lastId := map[], [], 0;
    }

    method NextId() returns (id: ClOrdId)
      modifies `lastId
      ensures id == lastId == old(lastId) + 1
    {
      lastId := lastId + 1;
      id := lastId;
    }

    method AddOrder(id: ClOrdId, ref: OrderRef)
      modifies `table
      ensures table == Put(old(table), id, ref)
    {
      if id !in table {
        table := table[id := ref];
      }
    }

    method RemOrder(id: ClOrdId)
      modifies `table
      ensures table == old(table) - {id}
    {
      if id in table {
        table := table - {id};
      }
    }

    method GetOrder(r: Resp) returns (found: Option<OrderRef>)
      ensures found == Find(View(), r)
    {
      if r.cl in table {
        return Some(table[r.cl]);
      }
      if r.orig in table {
        return Some(table[r.orig]);
      }
      found := None;
    }

    method SendNewOrder(loggedOn: bool) returns (ok: bool)
      modifies this
      ensures View() == SendNew(old(View()), loggedOn) && ok == loggedOn
    {
      var id := NextId();
      var ref := |ids|;
      ids := ids + [Ids(id, id)];
      if !loggedOn {
        return false;
      }
      AddOrder(id, ref);
      ok := true;
    }

    method SendModOrCxl(ref: OrderRef, loggedOn: bool) returns (ok: bool)
      requires ref < |ids|
      modifies this
      ensures View() == SendRequest(old(View()), ref, loggedOn) && ok == loggedOn
    {
      if !loggedOn {
        return false;
      }
      var id := NextId();
      ids := ids[ref := ids[ref].(cl := id)];
      AddOrder(id, ref);
      ok := true;
    }

    /** A response: the order is looked up first, then the table and the order's ids follow. */
    method ProcessOrderResp(r: Resp) returns (found: Option<OrderRef>)
      requires TableKnown(View())
      modifies this
      ensures found == Find(old(View()), r) && View() == Process(old(View()), r)
    {
      found := GetOrder(r);
      match r.kind {
        case NewRej => if r.cl != r.orig { RemOrder(r.cl); }
        case ModRej => if r.cl != r.orig { RemOrder(r.cl); }
        case CxlRej => if r.cl != r.orig { RemOrder(r.cl); }
        case ModAck =>
          if r.cl != r.orig {
            RemOrder(r.orig);
          }
          if found.Some? && ids[found.value].orig != r.cl {
            RemOrder(ids[found.value].orig);
          }
          if found.Some? && r.priced {
            ids := ids[found.value := Ids(r.cl, r.cl)];
          }
        case CxlAck => RemOrder(r.cl); RemOrder(r.orig);
        case FullFill => RemOrder(r.cl); RemOrder(r.orig);
        case NewAck =>
        case PartFill =>
        case TradeBreak =>
      }
    }
  }
}
