/**
  The exchange bridge: it gives every client request an id of its own, and turns the ids in the answers back into the
  client's. An answer finds its order by either id; the end of an order removes every id it ever had.
 */
module Bridge {
  import opened OrderTypes

  /** Order ids of clients and of the bridge share one name space; 0 stands for an absent field. */
  type Name = nat
  const NO_NAME: Name := 0

  type Client = int

  /** What the bridge remembers of an order: the first pair of ids, the last acknowledged pair, the later requests. */
  datatype Info = Info(client: Client, corr: Name, corrB: Name, orig: Name, origB: Name, ids: map<Name, Name>)

  datatype Entry = Entry(seqNum: int, client: Client, ref: nat)

  datatype State = State(infos: seq<Info>, table: map<Name, Entry>)

  /** The id fields of a message to the exchange. */
  datatype Out = Out(cl: Name, orig: Name)

  datatype RespKind = NewAck | NewRej | ModAck | ModRej | CxlAck | CxlRej | PartFill | FullFill | TradeBreak
  datatype Resp = Resp(kind: RespKind, cl: Name, orig: Name)

  /** The id fields of an answer to a client; `remove` tells the client side to forget the order. */
  datatype Reply = Reply(client: Client, cl: Name, orig: Name, corr: Name, remove: bool)

  predicate Ends(k: RespKind) {
    k.NewRej? || k.FullFill? || k.CxlAck?
  }

  // ---------- the bridge ----------

  function SendNew(s: State, client: Client, c: Name, seqNum: int, b: Name): (State, Out) {
    var e := Entry(seqNum, client, |s.infos|);
    (State(s.infos + [Info(client, c, b, c, b, map[])], s.table[c := e][b := e]), Out(b, NO_NAME))
  }

  predicate TableKnown(s: State) {
    forall n :: n in s.table ==> s.table[n].ref < |s.infos|
  }

  /** A modify or cancel request naming an earlier request of the order; refused if that name is not known. */
  function SendRequest(s: State, c: Name, origC: Name, seqNum: int, b: Name): (State, Option<Out>)
    requires TableKnown(s)
  {
    if origC !in s.table then (s, None) else
    var ref := s.table[origC].ref;
    var info := s.infos[ref];
    var e := Entry(seqNum, s.table[origC].client, ref);
    (State(s.infos[ref := info.(ids := info.ids[b := c])], s.table[c := e][b := e]), Some(Out(b, info.origB)))
  }

  /** The entry of an answer: by OrigClOrdID, else by ClOrdID. */
  function Find(s: State, r: Resp): Option<Entry> {
    if r.orig in s.table then Some(s.table[r.orig]) else if r.cl in s.table then Some(s.table[r.cl]) else None
  }

  /** Every name an order has had. */
  function Names(info: Info): set<Name> {
    {info.corr, info.corrB} + info.ids.Keys + info.ids.Values
  }

  /** The client's id for a bridge id; anything but a later request stands for the new order. */
  function Translated(info: Info, b: Name): (Name, Name) {
    if b in info.ids then (b, info.ids[b]) else (info.corrB, info.corr)
  }

  function Inbound(s: State, r: Resp): (State, Option<Reply>)
    requires TableKnown(s)
  {
    match Find(s, r)
    case None => (s, None)
    case Some(e) =>
      var info := s.infos[e.ref];
      var pair := Translated(info, r.cl);
      var info' := if r.kind.ModAck? then info.(origB := pair.0, orig := pair.1) else info;
      (State(s.infos[e.ref := info'], if Ends(r.kind) then s.table - Names(info) else s.table),
       Some(Reply(e.client, pair.1, info'.orig, info.corr, Ends(r.kind))))
  }

  // ---------- both sides of the bridge ----------

  /** A request as it was sent: for which order, under which client id, by which client. */
  datatype Sent = Sent(ref: nat, name: Name, client: Client)

  /** The bridge, which orders are open, what was sent under each bridge id, the last acknowledged bridge id of each
      order, and for which order each name was issued. */
  datatype World = World(s: State, open: seq<bool>, sent: map<Name, Sent>, last: seq<Name>, owner: map<Name, nat>)

  datatype Event =
    | New(client: Client, c: Name, seqNum: int, b: Name)
    | Request(client: Client, c: Name, origC: Name, seqNum: int, b: Name)
    | Response(resp: Resp)

  /** Client and bridge ids are all different. */
  predicate FreshPair(w: World, c: Name, b: Name) {
    c != b && c != NO_NAME && b != NO_NAME && c !in w.owner && b !in w.owner
  }

  /** The exchange quotes bridge ids of one open order, and reports an order as replaced under an id it was sent. */
  predicate Honest(w: World, e: Event) {
    match e
    case New(_, c, _, b) => FreshPair(w, c, b)
    case Request(_, c, _, _, b) => FreshPair(w, c, b)
    case Response(r) =>
      && r.cl in w.sent && w.sent[r.cl].ref < |w.open|
      && (r.orig == NO_NAME || (r.orig in w.sent && w.sent[r.orig].ref == w.sent[r.cl].ref))
  }

  function Step(w: World, e: Event): World
    requires TableKnown(w.s) && |w.last| == |w.open| == |w.s.infos| && Honest(w, e)
  {
    match e
    case New(client, c, n, b) =>
      var ref := |w.s.infos|;
      World(SendNew(w.s, client, c, n, b).0, w.open + [true], w.sent[b := Sent(ref, c, client)], w.last + [b], w.owner[c := ref][b := ref])
    case Request(client, c, origC, n, b) =>
      if origC !in w.s.table then w else
      var ref := w.s.table[origC].ref;
      w.(s := SendRequest(w.s, c, origC, n, b).0, sent := w.sent[b := Sent(ref, c, client)], owner := w.owner[c := ref][b := ref])
    case Response(r) =>
      var ref := w.sent[r.cl].ref;
      w.(s := Inbound(w.s, r).0,
         open := if Ends(r.kind) then w.open[ref := false] else w.open,
         last := if r.kind.ModAck? && w.open[ref] then w.last[ref := r.cl] else w.last)
  }

  // ---------- the invariant ----------

  /** An order's record agrees with what was sent for it. */
  ghost predicate Recorded(w: World, ref: nat)
    requires ref < |w.s.infos| && ref < |w.last|
  {
    var info := w.s.infos[ref];
    && info.corrB !in info.ids
    && (forall b :: b in w.sent && w.sent[b].ref == ref ==> b in info.ids || b == info.corrB)
    && (forall b :: b in info.ids ==> b in w.sent && w.sent[b].ref == ref && w.sent[b].name == info.ids[b])
    && info.corrB in w.sent && w.sent[info.corrB] == Sent(ref, info.corr, info.client)
    && w.last[ref] in w.sent && w.sent[w.last[ref]].ref == ref && w.sent[w.last[ref]].name == info.orig && info.origB == w.last[ref]
    && (forall n :: n in Names(info) ==> n in w.owner && w.owner[n] == ref)
  }

  /** The table holds the names of the open orders, all of them and nothing else. */
  ghost predicate TableExact(w: World)
    requires |w.open| == |w.s.infos|
  {
    && (forall n :: n in w.s.table ==>
          var e := w.s.table[n];
          e.ref < |w.s.infos| && w.open[e.ref] && n in Names(w.s.infos[e.ref]) && e.client == w.s.infos[e.ref].client)
    && (forall ref, n :: 0 <= ref < |w.s.infos| && w.open[ref] && n in Names(w.s.infos[ref]) ==> n in w.s.table && w.s.table[n].ref == ref)
  }

  ghost predicate Inv(w: World)
    ensures Inv(w) ==> TableKnown(w.s) && |w.last| == |w.open| == |w.s.infos|
  {
    && |w.last| == |w.open| == |w.s.infos|
    && TableExact(w)
    && (forall ref :: 0 <= ref < |w.s.infos| ==> Recorded(w, ref))
    && (forall b :: b in w.sent ==> b in w.owner && w.owner[b] == w.sent[b].ref < |w.s.infos|)
    && NO_NAME !in w.owner
  }

  /** A table entry leads to the order its name was issued for. */
  lemma {:induction false} TableOwned(w: World, n: Name)
    requires Inv(w) && n in w.s.table
    ensures n in w.owner && w.owner[n] == w.s.table[n].ref && w.open[w.s.table[n].ref] && n != NO_NAME
  {
    assert Recorded(w, w.s.table[n].ref);
  }

  /** The client's id of the request last acknowledged. */
  function LastName(w: World, ref: nat): Name
    requires ref < |w.last|
  {
    if w.last[ref] in w.sent then w.sent[w.last[ref]].name else NO_NAME
  }

  lemma {:induction false} FindsOrder(w: World, r: Resp)
    requires Inv(w) && Honest(w, Response(r)) && w.open[w.sent[r.cl].ref]
    ensures Find(w.s, r).Some? && Find(w.s, r).value.ref == w.sent[r.cl].ref
  {
    var ref := w.sent[r.cl].ref;
    assert Recorded(w, ref);
    assert r.cl in Names(w.s.infos[ref]);
    if r.orig in w.s.table {
      TableOwned(w, r.orig);
    }
  }

  /**
    The round trip: an answer quoting the bridge id of a request reaches the client of the order, carries that client's
    own id for the request, and names as replaced the request last acknowledged (the answered one, if this is the
    acknowledgement).
   */
  lemma {:induction false} RoundTrip(w: World, r: Resp)
    requires Inv(w) && Honest(w, Response(r)) && w.open[w.sent[r.cl].ref]
    ensures var ref := w.sent[r.cl].ref;
            Inbound(w.s, r).1 == Some(Reply(w.s.infos[ref].client, w.sent[r.cl].name,
                                            if r.kind.ModAck? then w.sent[r.cl].name else LastName(w, ref),
                                            w.s.infos[ref].corr, Ends(r.kind)))
  {
    hide Find;
    var ref := w.sent[r.cl].ref;
    FindsOrder(w, r);
    FindsClient(w, r);
    assert Recorded(w, ref);
  }

  /**
    The reply goes to the client that sent the request if and only if that client sent the new order: the bridge keeps
    the session of the first request, whoever sends the later ones.
   */
  lemma {:induction false} ReplyReachesSender(w: World, r: Resp)
    requires Inv(w) && Honest(w, Response(r)) && w.open[w.sent[r.cl].ref]
    ensures var reply := Inbound(w.s, r).1;
            && reply.Some?
            && (reply.value.client == w.sent[r.cl].client <==> w.sent[r.cl].client == w.s.infos[w.sent[r.cl].ref].client)
  {
    hide Inv, Inbound, Honest;
    RoundTrip(w, r);
  }

  lemma {:induction false} FindsClient(w: World, r: Resp)
    requires Inv(w) && Find(w.s, r).Some?
    ensures Find(w.s, r).value.ref < |w.s.infos| && Find(w.s, r).value.client == w.s.infos[Find(w.s, r).value.ref].client
  {
  }

  /** The end of an order removes every name it ever had, and no name of any other order. */
  lemma {:induction false} CleanUpComplete(w: World, r: Resp)
    requires Inv(w) && Honest(w, Response(r)) && w.open[w.sent[r.cl].ref] && (r.kind.NewRej? || r.kind.FullFill? || r.kind.CxlAck?)
    ensures var ref := w.sent[r.cl].ref;
            var t := Inbound(w.s, r).0.table;
            && (forall n :: n in t ==> t[n].ref != ref)
            && (forall n :: n in w.s.table && w.s.table[n].ref != ref ==> n in t && t[n] == w.s.table[n])
  {
    hide Find, Recorded;
    FindsOrder(w, r);
    var ref := w.sent[r.cl].ref;
    forall n | n in w.s.table && w.s.table[n].ref != ref ensures n !in Names(w.s.infos[ref]) {
      NamesOwned(w, ref);
      TableOwned(w, n);
    }
  }

  /** Any response, honest or not: the table only changes with the end of an order; OrigClOrdID decides who is answered, before ClOrdID. */
  lemma {:induction false} AnsweredTo(s: State, r: Resp)
    requires TableKnown(s)
    ensures var t, reply := Inbound(s, r).0, Inbound(s, r).1;
            && (!r.kind.NewRej? && !r.kind.FullFill? && !r.kind.CxlAck? ==> t.table == s.table)
            && (reply.Some? <==> r.orig in s.table || r.cl in s.table)
            && (reply.Some? ==> var e := s.table[if r.orig in s.table then r.orig else r.cl];
                                reply.value.client == e.client && forall k :: 0 <= k < |s.infos| && k != e.ref ==> t.infos[k] == s.infos[k])
  {
  }

  lemma {:induction false} NamesOwned(w: World, ref: nat)
    requires Inv(w) && ref < |w.s.infos|
    ensures forall n :: n in Names(w.s.infos[ref]) ==> n in w.owner && w.owner[n] == ref
  {
    assert Recorded(w, ref);
  }

  /** An answer about an order that has ended is dropped. */
  lemma {:induction false} EndedIsUnknown(w: World, r: Resp)
    requires Inv(w) && Honest(w, Response(r)) && !w.open[w.sent[r.cl].ref]
    ensures Inbound(w.s, r) == (w.s, None)
  {
    assert r.cl !in w.s.table by {
      if r.cl in w.s.table { TableOwned(w, r.cl); }
    }
    assert r.orig !in w.s.table by {
      if r.orig in w.s.table { TableOwned(w, r.orig); }
    }
  }

  // ---------- every step keeps the invariant ----------

  /** A record only depends on its own order: sending for another order leaves it alone. */
  lemma {:induction false} RecordedElsewhere(w: World, w': World, ref: nat, c: Name, b: Name, k: nat)
    requires Inv(w) && ref < |w.s.infos| && FreshPair(w, c, b) && k != ref
    requires |w'.s.infos| == |w'.last| >= |w.s.infos| && w'.s.infos[ref] == w.s.infos[ref] && w'.last[ref] == w.last[ref]
    requires b in w'.sent && w'.sent == w.sent[b := w'.sent[b]] && w'.sent[b].ref == k && w'.sent[b].name == c && w'.owner == w.owner[c := k][b := k]
    ensures Recorded(w', ref)
  {
    hide Names;
    assert Recorded(w, ref);
    assert b !in w.sent;
    NamesOwned(w, ref);
  }

  lemma {:induction false} InvNew(w: World, client: Client, c: Name, n: int, b: Name)
    requires Inv(w) && FreshPair(w, c, b)
    ensures Inv(Step(w, New(client, c, n, b)))
  {
    hide Recorded;
    var w' := Step(w, New(client, c, n, b));
    forall ref | 0 <= ref < |w.s.infos| ensures Recorded(w', ref) {
      RecordedElsewhere(w, w', ref, c, b, |w.s.infos|);
    }
    NewRecorded(w, client, c, n, b);
    NewTable(w, client, c, n, b);
  }

  lemma {:induction false} NewRecorded(w: World, client: Client, c: Name, n: int, b: Name)
    requires Inv(w) && FreshPair(w, c, b)
    ensures Recorded(Step(w, New(client, c, n, b)), |w.s.infos|)
  {
    assert b !in w.sent;
  }

  lemma {:induction false} NewTable(w: World, client: Client, c: Name, n: int, b: Name)
    requires Inv(w) && FreshPair(w, c, b)
    ensures |Step(w, New(client, c, n, b)).open| == |Step(w, New(client, c, n, b)).s.infos| && TableExact(Step(w, New(client, c, n, b)))
  {
    hide Names, Recorded;
    var w' := Step(w, New(client, c, n, b));
    NamesOfNew(client, c, b);
    forall ref, k | 0 <= ref < |w'.s.infos| && w'.open[ref] && k in Names(w'.s.infos[ref])
      ensures k in w'.s.table && w'.s.table[k].ref == ref
    {
      if ref < |w.s.infos| { NamesOwned(w, ref); }
    }
  }

  lemma {:induction false} NamesOfNew(client: Client, c: Name, b: Name)
    ensures Names(Info(client, c, b, c, b, map[])) == {c, b}
  {
  }

  lemma {:induction false} InvRequest(w: World, client: Client, c: Name, origC: Name, n: int, b: Name)
    requires Inv(w) && FreshPair(w, c, b) && origC in w.s.table
    ensures Inv(Step(w, Request(client, c, origC, n, b)))
  {
    hide Recorded, TableExact, Names;
    var ref := w.s.table[origC].ref;
    var w' := Step(w, Request(client, c, origC, n, b));
    RequestRecorded(w, client, c, origC, n, b);
    forall k | 0 <= k < |w.s.infos| ensures Recorded(w', k) {
      if k != ref { RecordedElsewhere(w, w', k, c, b, ref); }
    }
    TableGrows(w, client, c, origC, n, b);
  }

  lemma {:induction false} RequestRecorded(w: World, client: Client, c: Name, origC: Name, n: int, b: Name)
    requires Inv(w) && FreshPair(w, c, b) && origC in w.s.table
    ensures b !in w.s.infos[w.s.table[origC].ref].ids
    ensures Recorded(Step(w, Request(client, c, origC, n, b)), w.s.table[origC].ref)
  {
    hide Names, TableExact;
    var ref := w.s.table[origC].ref;
    assert Recorded(w, ref);
    assert b !in w.sent;
    NamesOwned(w, ref);
    NamesGrow(w.s.infos[ref], b, c);
  }

  lemma {:induction false} NamesGrow(info: Info, b: Name, c: Name)
    requires b !in info.ids
    ensures Names(info.(ids := info.ids[b := c])) == Names(info) + {b, c}
  {
    var ids' := info.ids[b := c];
    forall v | v in info.ids.Values ensures v in ids'.Values {
      var k :| k in info.ids && info.ids[k] == v;
      assert ids'[k] == v;
    }
    assert ids'[b] == c;
  }

  lemma {:induction false} TableGrows(w: World, client: Client, c: Name, origC: Name, n: int, b: Name)
    requires Inv(w) && FreshPair(w, c, b) && origC in w.s.table && b !in w.s.infos[w.s.table[origC].ref].ids
    ensures |Step(w, Request(client, c, origC, n, b)).open| == |Step(w, Request(client, c, origC, n, b)).s.infos|
         && TableExact(Step(w, Request(client, c, origC, n, b)))
  {
    hide Names, Recorded;
    var ref := w.s.table[origC].ref;
    var w' := Step(w, Request(client, c, origC, n, b));
    NamesGrow(w.s.infos[ref], b, c);
    forall k, m | 0 <= k < |w'.s.infos| && w'.open[k] && m in Names(w'.s.infos[k])
      ensures m in w'.s.table && w'.s.table[m].ref == k
    {
      NamesOwned(w, k);
    }
  }

  lemma {:induction false} InvResponse(w: World, r: Resp)
    requires Inv(w) && Honest(w, Response(r))
    ensures Inv(Step(w, Response(r)))
  {
    var ref := w.sent[r.cl].ref;
    if !w.open[ref] {
      EndedIsUnknown(w, r);
      assert w.open[ref := false] == w.open;
    } else {
      RecordsAfter(w, r);
      TableAfter(w, r);
    }
  }

  lemma {:induction false} RecordsAfter(w: World, r: Resp)
    requires Inv(w) && Honest(w, Response(r)) && w.open[w.sent[r.cl].ref]
    ensures var w' := Step(w, Response(r));
            |w'.s.infos| == |w'.last| == |w.s.infos| && forall k :: 0 <= k < |w.s.infos| ==> Recorded(w', k)
  {
    hide Find;
    FindsOrder(w, r);
    var w' := Step(w, Response(r));
    forall k | 0 <= k < |w.s.infos| ensures Recorded(w', k) {
      assert Recorded(w, k);
    }
  }

  lemma {:induction false} TableAfter(w: World, r: Resp)
    requires Inv(w) && Honest(w, Response(r)) && w.open[w.sent[r.cl].ref]
    ensures |Step(w, Response(r)).open| == |Step(w, Response(r)).s.infos| && TableExact(Step(w, Response(r)))
  {
    hide Find, Recorded, Names, Translated;
    FindsOrder(w, r);
    AcknowledgedNames(w.s.infos[w.sent[r.cl].ref], Translated(w.s.infos[w.sent[r.cl].ref], r.cl));
    if Ends(r.kind) {
      CleanUpComplete(w, r);
    }
  }

  /** An acknowledgement gives an order no new name. */
  lemma {:induction false} AcknowledgedNames(info: Info, pair: (Name, Name))
    ensures var info' := info.(origB := pair.0, orig := pair.1);
            Names(info') == Names(info) && info'.client == info.client
  {
  }

  lemma {:induction false} InvStep(w: World, e: Event)
    requires Inv(w) && Honest(w, e)
    ensures Inv(Step(w, e))
  {
    hide Inv, SendNew, SendRequest, Inbound;
    match e
    case New(client, c, n, b) => InvNew(w, client, c, n, b);
    case Request(client, c, origC, n, b) => if origC in w.s.table { InvRequest(w, client, c, origC, n, b); }
    case Response(r) => InvResponse(w, r);
  }

  // ---------- runs ----------

  ghost predicate HonestRun(w: World, es: seq<Event>)
    requires Inv(w)
    decreases |es|
  {
    es == [] || (Honest(w, es[0]) && (InvStep(w, es[0]); HonestRun(Step(w, es[0]), es[1..])))
  }

  ghost function Run(w: World, es: seq<Event>): World
    requires Inv(w) && HonestRun(w, es)
    decreases |es|
  {
    if es == [] then w else (InvStep(w, es[0]); Run(Step(w, es[0]), es[1..]))
  }

  /** Over every run: the records agree with what was sent, and the table holds the names of the open orders exactly. */
  lemma {:induction false} RunKeepsInv(w: World, es: seq<Event>)
    requires Inv(w) && HonestRun(w, es)
    ensures Inv(Run(w, es))
    decreases |es|
  {
    hide Step, Honest, Inv;
    if es != [] {
      InvStep(w, es[0]);
      RunKeepsInv(Step(w, es[0]), es[1..]);
    }
  }

  const START := World(State([], map[]), [], map[], [], map[])

  lemma {:induction false} FreshInv()
    ensures Inv(START)
  {
  }

  /** Clients that only name their own orders. */
  ghost predicate OwnOrders(w: World, e: Event) {
    e.Request? && e.origC in w.s.table && w.s.table[e.origC].ref < |w.s.infos| ==> e.client == w.s.infos[w.s.table[e.origC].ref].client
  }

  /** Every request was sent by the client of its order. */
  ghost predicate SentByOwner(w: World) {
    forall b :: b in w.sent ==> w.sent[b].ref < |w.s.infos| && w.sent[b].client == w.s.infos[w.sent[b].ref].client
  }

  /** No step changes the client of an order. */
  lemma {:induction false} ClientsStay(w: World, e: Event)
    requires Inv(w) && Honest(w, e)
    ensures |w.s.infos| <= |Step(w, e).s.infos|
    ensures forall k :: 0 <= k < |w.s.infos| ==> Step(w, e).s.infos[k].client == w.s.infos[k].client
  {
    hide Find, Recorded, Names;
    match e {
      case New(_, _, _, _) =>
      case Request(_, _, _, _, _) =>
      case Response(r) => if Find(w.s, r).Some? { FindsClient(w, r); }
    }
  }

  /** Requests stay sent by their owners exactly if the event names an own order (or none at all). */
  lemma {:induction false} OwnersStep(w: World, e: Event)
    requires Inv(w) && Honest(w, e) && SentByOwner(w)
    ensures SentByOwner(Step(w, e)) <==> OwnOrders(w, e)
  {
    hide SendNew, Inbound, Find, Recorded, TableExact, Names;
    ClientsStay(w, e);
    var w' := Step(w, e);
    match e {
      case New(client, c, n, b) => OwnersNew(w, client, c, n, b);
      case Request(client, c, origC, n, b) => if origC in w.s.table { assert w'.sent[b].client == client; assert b !in w.sent; }
      case Response(r) =>
    }
  }

  lemma {:induction false} OwnersNew(w: World, client: Client, c: Name, n: int, b: Name)
    requires Inv(w) && FreshPair(w, c, b) && SentByOwner(w)
    ensures SentByOwner(Step(w, New(client, c, n, b)))
  {
    hide Recorded, TableExact, Names;
  }

  ghost predicate OwnRun(w: World, es: seq<Event>)
    requires Inv(w) && HonestRun(w, es)
    decreases |es|
  {
    es == [] || (InvStep(w, es[0]); OwnOrders(w, es[0]) && OwnRun(Step(w, es[0]), es[1..]))
  }

  lemma {:induction false} RepliesNow(w: World)
    requires Inv(w) && SentByOwner(w)
    ensures forall r :: Honest(w, Response(r)) && w.open[w.sent[r.cl].ref]
              ==> Inbound(w.s, r).1.Some? && Inbound(w.s, r).1.value.client == w.sent[r.cl].client
  {
    hide Inv, Inbound;
    forall r | Honest(w, Response(r)) && w.open[w.sent[r.cl].ref]
      ensures Inbound(w.s, r).1.Some? && Inbound(w.s, r).1.value.client == w.sent[r.cl].client
    {
      ReplyReachesSender(w, r);
    }
  }

  /** Over a run in which clients name their own orders only, every response quoting a request reaches the client that sent it. */
  lemma {:induction false} RepliesReachSenders(w: World, es: seq<Event>)
    requires Inv(w) && SentByOwner(w) && HonestRun(w, es) && OwnRun(w, es)
    ensures var t := Run(w, es);
            && Inv(t)
            && forall r :: Honest(t, Response(r)) && t.open[t.sent[r.cl].ref]
                 ==> Inbound(t.s, r).1.Some? && Inbound(t.s, r).1.value.client == t.sent[r.cl].client
    decreases |es|
  {
    hide Step, Honest, Inv, OwnOrders;
    if es == [] {
      RepliesNow(w);
    } else {
      InvStep(w, es[0]);
      OwnersStep(w, es[0]);
      RepliesReachSenders(Step(w, es[0]), es[1..]);
    }
  }

  /** The same from an empty bridge. */
  lemma {:induction false} RepliesFromFresh(es: seq<Event>)
    requires HonestRun(START, es) && OwnRun(START, es)
    ensures var t := Run(START, es);
            && Inv(t)
            && forall r :: Honest(t, Response(r)) && t.open[t.sent[r.cl].ref]
                 ==> Inbound(t.s, r).1.Some? && Inbound(t.s, r).1.value.client == t.sent[r.cl].client
  {
    hide Inv, Honest, HonestRun, OwnRun, Run;
    FreshInv();
    RepliesReachSenders(START, es);
  }

  /** Two clients: the second one's cancel of the first one's order is answered to the first. */
  lemma {:induction false} SecondClientUnanswered(one: Client, two: Client, c: Name, d: Name, b: Name, e: Name)
    requires one != two && FreshPair(START, c, b) && d != NO_NAME && e != NO_NAME
    requires d != e && d != c && d != b && e != c && e != b
    ensures var w := Step(START, New(one, c, 1, b));
            && Inv(START) && Inv(w) && Honest(w, Request(two, d, c, 2, e))
            && var x := Step(w, Request(two, d, c, 2, e));
               && Inv(x) && Honest(x, Response(Resp(CxlAck, e, b))) && x.sent[e] == Sent(0, d, two)
               && Inbound(x.s, Resp(CxlAck, e, b)).1.Some? && Inbound(x.s, Resp(CxlAck, e, b)).1.value.client == one
  {
    hide Inv, Inbound;
    FreshInv();
    InvStep(START, New(one, c, 1, b));
    var w := Step(START, New(one, c, 1, b));
    assert w.s.table == map[c := Entry(1, one, 0), b := Entry(1, one, 0)];
    InvStep(w, Request(two, d, c, 2, e));
    var x := Step(w, Request(two, d, c, 2, e));
    assert x.sent[e] == Sent(0, d, two) && x.sent[b].ref == 0;
    assert x.open == [true];
    RoundTrip(x, Resp(CxlAck, e, b));
  }

  // ---------- the messages to the exchange ----------

  /** The message a request is sent on as: under its bridge id, quoting the id the exchange last acknowledged for the order. */
  ghost predicate RequestOut(w: World, c: Name, origC: Name, n: int, b: Name)
    requires TableKnown(w.s) && |w.last| == |w.s.infos|
  {
    if origC in w.s.table then SendRequest(w.s, c, origC, n, b).1 == Some(Out(b, w.last[w.s.table[origC].ref]))
    else SendRequest(w.s, c, origC, n, b) == (w.s, None)
  }

  lemma {:induction false} RequestQuotesLast(w: World, c: Name, origC: Name, n: int, b: Name)
    requires Inv(w)
    ensures RequestOut(w, c, origC, n, b)
  {
    if origC in w.s.table {
      assert Recorded(w, w.s.table[origC].ref);
    }
  }

  /** A new order and a request are both registered under the client's and the bridge's id, with the message's number. */
  lemma {:induction false} RegisteredTwice(s: State, client: Client, c: Name, origC: Name, n: int, b: Name)
    requires TableKnown(s)
    ensures var r := SendNew(s, client, c, n, b);
            && r.1 == Out(b, NO_NAME) && r.0.table.Keys == s.table.Keys + {c, b}
            && r.0.table[c] == r.0.table[b] == Entry(n, client, |s.infos|) && forall m :: m in s.table && m != c && m != b ==> r.0.table[m] == s.table[m]
    ensures origC in s.table ==>
              var r, e := SendRequest(s, c, origC, n, b).0, s.table[origC];
              && r.table.Keys == s.table.Keys + {c, b}
              && r.table[c] == r.table[b] == Entry(n, e.client, e.ref) && forall m :: m in s.table && m != c && m != b ==> r.table[m] == s.table[m]
  {
  }

  /**
    After every run from an empty bridge: a new order goes out with no id to replace, a request quoting the bridge id the
    exchange last acknowledged for its order, and a request naming no known id does not go out.
   */
  lemma {:induction false} MessagesFromFresh(es: seq<Event>, client: Client, c: Name, origC: Name, n: int, b: Name)
    requires HonestRun(START, es)
    ensures var t := Run(START, es);
            Inv(t) && SendNew(t.s, client, c, n, b).1 == Out(b, NO_NAME) && RequestOut(t, c, origC, n, b)
  {
    hide Inv, HonestRun, Run, RequestOut;
    FreshInv();
    RunKeepsInv(START, es);
    RequestQuotesLast(Run(START, es), c, origC, n, b);
  }

  // ---------- the route object ----------

  /** The names removed once the requests `done` have been visited. */
  function NamesSoFar(info: Info, done: set<Name>): set<Name> {
    {info.corr, info.corrB} + done + set k | k in done && k in info.ids :: info.ids[k]
  }

  lemma {:induction false} NamesSoFarStart(info: Info, t: map<Name, Entry>)
    ensures t - {info.corr} - {info.corrB} == t - NamesSoFar(info, info.ids.Keys - info.ids.Keys)
  {
    assert NamesSoFar(info, {}) == {info.corr, info.corrB};
    assert info.ids.Keys - info.ids.Keys == {};
  }

  lemma {:induction false} NamesSoFarNext(info: Info, t: map<Name, Entry>, done: set<Name>, k: Name)
    requires k in info.ids
    ensures t - NamesSoFar(info, done) - {k} - {info.ids[k]} == t - NamesSoFar(info, done + {k})
  {
    assert NamesSoFar(info, done + {k}) == NamesSoFar(info, done) + {k, info.ids[k]};
  }

  lemma {:induction false} NamesSoFarAll(info: Info)
    ensures NamesSoFar(info, info.ids.Keys) == Names(info)
  {
  }

  class CmeRoute {
    var infos: seq<Info>
    var table: map<Name, Entry>

    ghost function View(): State
      reads this
    {
      State(infos, table)
    }

    constructor ()
      ensures View() == State([], map[])
    {
      infos, table := [], map[];
    }

    method AddEntry(source: Name, dest: Name, seqNum: int, client: Client, ref: nat)
      modifies `table
      ensures table == old(table)[source := Entry(seqNum, client, ref)][dest := Entry(seqNum, client, ref)]
    {
      table := table[source := Entry(seqNum, client, ref)];
      table := table[dest := Entry(seqNum, client, ref)];
    }

    /** A client's new order, sent on under the bridge id b. */
    method SendNewOrder(client: Client, c: Name, seqNum: int, b: Name) returns (msg: Out)
      modifies this
      ensures (View(), msg) == SendNew(old(View()), client, c, seqNum, b)
    {
      var ref := |infos|;
      infos := infos + [Info(client, c, b, c, b, map[])];
      msg := Out(b, NO_NAME);
      AddEntry(c, b, seqNum, client, ref);
    }

    /** A client's modify or cancel request, sent on under the bridge id b; the sender is not recorded. */
    method SendModOrCxl(client: Client, c: Name, origC: Name, seqNum: int, b: Name) returns (msg: Option<Out>)
      requires TableKnown(View())
      modifies this
      ensures (View(), msg) == SendRequest(old(View()), c, origC, seqNum, b)
    {
      if origC !in table {
        return None;
      }
      var e := table[origC];
      var info := infos[e.ref];
      infos := infos[e.ref := info.(ids := info.ids[b := c])];
      msg := Some(Out(b, info.origB));
      AddEntry(c, b, seqNum, e.client, e.ref);
    }

    /** Removes every name of an order, request by request. */
    method RemoveOrderInfo(info: Info)
      modifies `table
      ensures table == old(table) - Names(info)
    {
      hide NamesSoFar, Names;
      table := table - {info.corr};
      table := table - {info.corrB};
      var keys := info.ids.Keys;
      NamesSoFarStart(info, old(table));
      while keys != {}
        invariant keys <= info.ids.Keys
        invariant table == old(table) - NamesSoFar(info, info.ids.Keys - keys)
        decreases |keys|
      {
        var k :| k in keys;
        NamesSoFarNext(info, old(table), info.ids.Keys - keys, k);
        assert info.ids.Keys - keys + {k} == info.ids.Keys - (keys - {k});
        table := table - {k};
        table := table - {info.ids[k]};
        keys := keys - {k};
      }
      assert info.ids.Keys - {} == info.ids.Keys;
      NamesSoFarAll(info);
    }

    method OnInbound(r: Resp) returns (reply: Option<Reply>)
      requires TableKnown(View())
      modifies this
      ensures (View(), reply) == Inbound(old(View()), r)
    {
      if r.orig !in table && r.cl !in table {
        return None;
      }
      var e := if r.orig in table then table[r.orig] else table[r.cl];
      var info := infos[e.ref];
      if Ends(r.kind) {
        RemoveOrderInfo(info);
      }
      var clB, cl := info.corrB, info.corr;
      if r.cl in info.ids {
        clB, cl := r.cl, info.ids[r.cl];
      }
      if r.kind.ModAck? {
        info := info.(origB := clB, orig := cl);
      }
      infos := infos[e.ref := info];
      reply := Some(Reply(e.client, cl, info.orig, info.corr, Ends(r.kind)));
    }
  }
}
