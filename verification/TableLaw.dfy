/**
  The order table against the orders: it holds every live order under its id and nothing else, as long as the events
  are clean; and each event that is not clean breaks it.
 */
module TableLaw {
  import opened OrderTypes
  import opened Pipeline
  import opened Effects

  /** Live orders, all of them and no other, each under its own id. */
  ghost predicate TableExact(s: State) {
    && (forall id :: id in s.table ==>
          s.table[id] < |s.orders| && Live(s.orders[s.table[id]].state) && s.orders[s.table[id]].terms.id == id)
    && (forall k :: 0 <= k < |s.orders| && Live(s.orders[k].state) ==> s.orders[k].terms.id in s.table && s.table[s.orders[k].terms.id] == k)
  }

  /** The order takes no table entry along when it is removed. */
  predicate Harmless(s: State, ref: OrderRef)
    requires Known(s, ref)
  {
    Live(s.orders[ref].state) || s.orders[ref].terms.id !in s.table
  }

  /**
    The events that keep the table exact, told from the state before: whatever removes an order finds it live or its id
    unused, no bust revives a filled order, and no order is rebuilt for an unknown instrument unless it is live.
   */
  predicate Clean(s: State, e: Event) {
    Addressed(s, e) ==>
      match e
      case New(ref, _) => s.orders[ref].state == Unknown ==> Validate(s, s.orders[ref]).None? || Harmless(s, ref)
      case NewRej(ref) => s.orders[ref].state == Unknown ==> Harmless(s, ref)
      case CxlAck(ref) => Harmless(s, ref)
      case Fill(ref, q) => s.orders[ref].state == Filled || q < s.orders[ref].Rem() || Harmless(s, ref)
      case Bust(ref, _) => s.orders[ref].state != Filled
      case Rebuild(o) => o.terms.id in s.table || o.terms.instrument in s.config.instruments || Live(o.state)
      case _ => true
  }

  // ---------- the three kinds of change ----------

  /** An order leaves: exact afterwards iff it was live or its id unused. */
  lemma {:induction false} LeaveExact(s: State, r: State, ref: OrderRef)
    requires TableExact(s) && Known(s, ref) && |r.orders| == |s.orders| && r.orders == s.orders[ref := r.orders[ref]]
    requires !Live(r.orders[ref].state) && r.orders[ref].terms == s.orders[ref].terms
    requires r.table == s.table - {s.orders[ref].terms.id}
    ensures TableExact(r) <==> Harmless(s, ref)
  {
    var id := s.orders[ref].terms.id;
    if !Harmless(s, ref) {
      var j := s.table[id];
      assert r.orders[j] == s.orders[j];
      assert Live(r.orders[j].state) && id !in r.table;
    }
  }

  /** An order changes but stays as live as it was: exact as before. */
  lemma {:induction false} StayExact(s: State, r: State, ref: OrderRef)
    requires TableExact(s) && Known(s, ref) && |r.orders| == |s.orders| && r.orders == s.orders[ref := r.orders[ref]]
    requires Live(r.orders[ref].state) == Live(s.orders[ref].state) && r.orders[ref].terms == s.orders[ref].terms && r.table == s.table
    ensures TableExact(r)
  {
  }

  /** An order enters under an unused id. */
  lemma {:induction false} EnterExact(s: State, r: State, ref: OrderRef)
    requires TableExact(s) && Known(s, ref) && !Live(s.orders[ref].state) && s.orders[ref].terms.id !in s.table
    requires |r.orders| == |s.orders| && r.orders == s.orders[ref := r.orders[ref]]
    requires Live(r.orders[ref].state) && r.orders[ref].terms == s.orders[ref].terms && r.table == s.table[s.orders[ref].terms.id := ref]
    ensures TableExact(r)
  {
  }

  // ---------- every event ----------

  /** A new-order request as a whole: the id enters with an accepted order, and leaves even with an invalid one. */
  lemma {:induction false} NewTable(s: State, ref: OrderRef, env: Env)
    requires Known(s, ref) && ListsKnown(s)
    ensures var r, o := SendNew(s, ref, env), s.orders[ref];
            && (o.state == Unknown && Validate(s, o).Some? ==> r.1.Some?)
            && r.0.table == if o.state != Unknown then s.table
                            else if Validate(s, o).Some? then s.table - {o.terms.id}
                            else if r.1.None? then s.table[o.terms.id := ref] else s.table
  {
    hide OrdersSendNew, OrdersOnNewRej, SendNewFromThrottle, CountMsg, UncountMsg, PostTerms;
    var m := CountMsg(s, ref, MsgNew, 1);
    OrdersNewEffect(m, ref);
    if s.orders[ref].state == Unknown && Validate(s, s.orders[ref]).Some? {
      OrdersNewTable(m, ref);
    }
    var a := OrdersSendNew(m, ref);
    if a.1.None? {
      var b := SendNewFromThrottle(a.0, ref, env);
      OrdersUndoEffect(b.0, ref);
      assert s.table[s.orders[ref].terms.id := ref] - {s.orders[ref].terms.id} == s.table;
    }
  }

  lemma {:induction false} OrdersNewTable(s: State, ref: OrderRef)
    requires Known(s, ref) && s.orders[ref].state == Unknown && Validate(s, s.orders[ref]).Some?
    ensures OrdersSendNew(s, ref).0.table == s.table - {s.orders[ref].terms.id}
  {
    hide PostTerms, Validate;
  }

  lemma {:induction false} NewExact(s: State, ref: OrderRef, env: Env)
    requires TableExact(s) && Known(s, ref) && ListsKnown(s)
    ensures TableExact(SendNew(s, ref, env).0) <==> Clean(s, New(ref, env))
  {
    hide SendNew, TableExact, Validate;
    NewTable(s, ref, env);
    NewOrders(s, ref, env);
    var r, o := SendNew(s, ref, env), s.orders[ref];
    if o.state == Unknown {
      if Validate(s, o).Some? {
        LeaveExact(s, r.0, ref);
      } else if r.1.None? {
        ValidIdUnused(s, o);
        EnterExact(s, r.0, ref);
      } else {
        StayExact(s, r.0, ref);
      }
    } else {
      StayExact(s, r.0, ref);
    }
  }

  lemma {:induction false} ValidIdUnused(s: State, o: Order)
    requires Validate(s, o).None?
    ensures o.terms.id !in s.table
  {
  }

  lemma {:induction false} RemovalExact(s: State, ref: OrderRef)
    requires TableExact(s) && Known(s, ref)
    ensures TableExact(OnCxlAck(s, ref)) <==> Clean(s, CxlAck(ref))
    ensures TableExact(OrdersOnNewRej(s, ref)) <==> Clean(s, NewRej(ref))
  {
    hide TableExact, PostTerms;
    LeaveExact(s, OnCxlAck(s, ref), ref);
    if s.orders[ref].state == Pending || s.orders[ref].state == Unknown {
      LeaveExact(s, OrdersOnNewRej(s, ref), ref);
    }
  }

  lemma {:induction false} FillTable(s: State, ref: OrderRef, q: int)
    requires Known(s, ref)
    ensures var o := s.orders[ref];
            OnFill(s, ref, q).table == if o.state != Filled && o.Rem() <= q then s.table - {o.terms.id} else s.table
    ensures OnBust(s, ref, q).table == s.table
  {
    hide PostTerms, OpenDelta, TradeDelta, Plus;
  }

  lemma {:induction false} FillExact(s: State, ref: OrderRef, q: int)
    requires TableExact(s) && Known(s, ref)
    ensures TableExact(OnFill(s, ref, q)) <==> Clean(s, Fill(ref, q))
    ensures TableExact(OnBust(s, ref, q)) <==> Clean(s, Bust(ref, q))
  {
    hide OnFill, OnBust;
    FillTable(s, ref, q);
    FillOrders(s, ref, q);
    BustOrders(s, ref, q);
    var o := s.orders[ref];
    if o.state != Filled {
      if o.Rem() <= q {
        LeaveExact(s, OnFill(s, ref, q), ref);
      } else {
        StayExact(s, OnFill(s, ref, q), ref);
      }
      StayExact(s, OnBust(s, ref, q), ref);
    } else {
      StayExact(s, OnFill(s, ref, q), ref);
      assert Live(OnBust(s, ref, q).orders[ref].state);
    }
  }

  lemma {:induction false} RebuildExact(s: State, o: Order)
    requires TableExact(s)
    ensures TableExact(RebuildOrder(s, o)) <==> Clean(s, Rebuild(o))
  {
    hide PostTerms, OpenDelta;
    var r := RebuildOrder(s, o);
    if o.terms.id !in s.table && o.terms.instrument !in s.config.instruments {
      assert r.table[o.terms.id] == |s.orders| && r.orders[|s.orders|] == o;
    }
  }

  /** From an exact table, an event leaves it exact if and only if it is clean. */
  lemma {:induction false} CleanStep(s: State, e: Event)
    requires TableExact(s) && ListsKnown(s)
    ensures TableExact(Step(s, e)) <==> Clean(s, e)
  {
    hide SendNew, SendMod, SendCxl, OnNewAck, OnModAck, OnModRej, OrdersOnCxlRej, OrdersOnNewRej, OnCxlAck,
         OnFill, OnBust, RebuildOrder, Post, TradeDelta, Harmless, Validate;
    if Addressed(s, e) {
      if IsQuiet(e) {
        QuietStep(s, e);
        StayExact(s, Step(s, e), e.ref);
      } else {
        match e {
          case Create(t, p) =>
          case New(ref, env) => NewExact(s, ref, env);
          case NewRej(ref) => RemovalExact(s, ref);
          case CxlAck(ref) => RemovalExact(s, ref);
          case Fill(ref, q) => FillExact(s, ref, q);
          case Bust(ref, q) => FillExact(s, ref, q);
          case ExternalFill(_, _, _, _, _) =>
          case Rebuild(o) => RebuildExact(s, o);
          case RebuildPos(_, _, _, _) =>
        }
      }
    }
  }

  // ---------- runs ----------

  predicate CleanRun(s: State, es: seq<Event>)
    requires ListsKnown(s)
    decreases |es|
  {
    es == [] || (Clean(s, es[0]) && CleanRun(Step(s, es[0]), es[1..]))
  }

  ghost predicate ExactThroughout(s: State, es: seq<Event>)
    requires ListsKnown(s)
    decreases |es|
  {
    TableExact(s) && (es == [] || ExactThroughout(Step(s, es[0]), es[1..]))
  }

  /** The table holds the live orders, all and only, throughout a run if and only if every event of the run is clean. */
  lemma {:induction false} TableIffClean(s: State, es: seq<Event>)
    requires ListsKnown(s) && TableExact(s)
    ensures ExactThroughout(s, es) <==> CleanRun(s, es)
    decreases |es|
  {
    hide Step, Clean, TableExact;
    if es != [] {
      CleanStep(s, es[0]);
      if TableExact(Step(s, es[0])) {
        TableIffClean(Step(s, es[0]), es[1..]);
      }
    }
  }

  /** From a fresh start: the table is exact throughout a run if and only if all its events are clean. */
  lemma {:induction false} TableFromFresh(config: Config, es: seq<Event>)
    ensures ExactThroughout(Initial(config), es) <==> CleanRun(Initial(config), es)
  {
    TableIffClean(Initial(config), es);
  }
}
