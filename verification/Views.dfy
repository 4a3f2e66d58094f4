/**
  The account view and the strategy view of the positions stay in step: for any events at all,
  the totals over accounts and over strategies agree in every instrument.
 */
module Views {
  import opened OrderTypes
  import opened Pipeline
  import opened Effects

  type Key = (int, InstrumentId)

  function Item(m: Positions, k: Key, i: InstrumentId): OpenPos {
    if k.1 == i then At(m, k) else FLAT
  }

  /** The total of the entries of one instrument. */
  ghost function Total(m: Positions, keys: set<Key>, i: InstrumentId): OpenPos {
    if keys == {} then FLAT else
    var k :| k in keys;
    Plus(Item(m, k, i), Total(m, keys - {k}, i))
  }

  lemma {:induction false} TotalPick(m: Positions, keys: set<Key>, i: InstrumentId) returns (k: Key)
    requires keys != {}
    ensures k in keys && Total(m, keys, i) == Plus(Item(m, k, i), Total(m, keys - {k}, i))
  {
    hide Plus, Item;
    k :| k in keys && Total(m, keys, i) == Plus(Item(m, k, i), Total(m, keys - {k}, i));
  }

  lemma {:induction false} PlusSwap(a: OpenPos, b: OpenPos, c: OpenPos)
    ensures Plus(a, Plus(b, c)) == Plus(b, Plus(a, c))
  {
  }

  /** The total does not depend on the order in which the entries are taken. */
  lemma {:induction false} TotalSplit(m: Positions, keys: set<Key>, k: Key, i: InstrumentId)
    requires k in keys
    ensures Total(m, keys, i) == Plus(Item(m, k, i), Total(m, keys - {k}, i))
    decreases |keys|
  {
    hide Plus, Item, Total;
    var j := TotalPick(m, keys, i);
    if j != k {
      TotalSplit(m, keys - {j}, k, i);
      TotalSplit(m, keys - {k}, j, i);
      assert keys - {j} - {k} == keys - {k} - {j};
      PlusSwap(Item(m, j, i), Item(m, k, i), Total(m, keys - {j} - {k}, i));
    }
  }

  lemma {:induction false} TotalAgree(m: Positions, n: Positions, keys: set<Key>, i: InstrumentId)
    requires forall k :: k in keys ==> At(m, k) == At(n, k)
    ensures Total(m, keys, i) == Total(n, keys, i)
    decreases |keys|
  {
    hide Plus, At;
    if keys != {} {
      var k := TotalPick(m, keys, i);
      TotalSplit(n, keys, k, i);
      TotalAgree(m, n, keys - {k}, i);
    }
  }

  /** Adding a delta to one entry adds it to the total. */
  lemma {:induction false} TotalBump(m: Positions, k: Key, d: OpenPos, i: InstrumentId)
    ensures Total(Bump(m, k, d), Bump(m, k, d).Keys, i) == Plus(Total(m, m.Keys, i), if k.1 == i then d else FLAT)
  {
    hide Total;
    var b := Bump(m, k, d);
    var rest := m.Keys - {k};
    assert b.Keys - {k} == rest;
    TotalSplit(b, b.Keys, k, i);
    TotalAgree(b, m, rest, i);
    if k in m {
      TotalSplit(m, m.Keys, k, i);
    } else {
      assert rest == m.Keys;
    }
  }

  ghost function AccountTotal(l: Ledger, i: InstrumentId): OpenPos {
    Total(l.accounts, l.accounts.Keys, i)
  }

  ghost function StrategyTotal(l: Ledger, i: InstrumentId): OpenPos {
    Total(l.strategies, l.strategies.Keys, i)
  }

  ghost predicate InStep(l: Ledger, i: InstrumentId) {
    AccountTotal(l, i) == StrategyTotal(l, i)
  }

  lemma {:induction false} PostInStep(l: Ledger, a: AccountId, t: StrategyId, j: InstrumentId, d: OpenPos, i: InstrumentId)
    requires InStep(l, i)
    ensures InStep(Post(l, a, t, j, d), i)
  {
    hide Bump, Total;
    TotalBump(l.accounts, (a, j), d, i);
    TotalBump(l.strategies, (t, j), d, i);
  }

  lemma {:induction false} TermsInStep(l: Ledger, t: Terms, d: OpenPos, i: InstrumentId)
    requires InStep(l, i)
    ensures InStep(PostTerms(l, t, d), i)
  {
    PostInStep(l, t.account, t.strategy, t.instrument, d, i);
  }

  lemma {:induction false} NewInStep(s: State, ref: OrderRef, env: Env, i: InstrumentId)
    requires Known(s, ref) && ListsKnown(s) && InStep(s.ledger, i)
    ensures InStep(SendNew(s, ref, env).0.ledger, i)
  {
    hide InStep, PostTerms, OrdersSendNew, OrdersOnNewRej, SendNewFromThrottle, Validate, OpenDelta;
    var o := s.orders[ref];
    var m := CountMsg(s, ref, MsgNew, 1);
    var a := OrdersSendNew(m, ref);
    OrdersNewEffect(m, ref);
    TermsInStep(s.ledger, o.terms, OpenDelta(o.terms.side, o.Rem()), i);
    TermsInStep(s.ledger, o.terms, OpenDelta(o.terms.side, -o.Rem()), i);
    if a.1.None? {
      var b := SendNewFromThrottle(a.0, ref, env);
      OrdersUndoEffect(b.0, ref);
      TermsInStep(a.0.ledger, o.terms, OpenDelta(o.terms.side, -o.Rem()), i);
    }
  }

  lemma {:induction false} FillInStep(s: State, ref: OrderRef, q: int, i: InstrumentId)
    requires Known(s, ref) && InStep(s.ledger, i)
    ensures InStep(OnFill(s, ref, q).ledger, i)
  {
    hide InStep, PostTerms, OpenDelta, TradeDelta, Plus;
    var o := s.orders[ref];
    if o.state != Filled {
      var f := o.(cumQty := o.cumQty + q, state := Filled);
      var d := Plus(OpenDelta(o.terms.side, -q), TradeDelta(o.terms.side, q));
      TermsInStep(s.ledger, o.terms, OpenDelta(o.terms.side, -f.Rem()), i);
      TermsInStep(PostTerms(s.ledger, o.terms, OpenDelta(o.terms.side, -f.Rem())), o.terms, d, i);
      TermsInStep(s.ledger, o.terms, d, i);
    }
  }

  lemma {:induction false} OtherInStep(s: State, ref: OrderRef, q: int, i: InstrumentId)
    requires Known(s, ref) && InStep(s.ledger, i)
    ensures InStep(OnCxlAck(s, ref).ledger, i)
    ensures InStep(OrdersOnNewRej(s, ref).ledger, i)
    ensures InStep(OnBust(s, ref, q).ledger, i)
  {
    hide InStep, PostTerms, OpenDelta, TradeDelta, Plus;
    var o := s.orders[ref];
    TermsInStep(s.ledger, o.terms, OpenDelta(o.terms.side, -o.Rem()), i);
    TermsInStep(s.ledger, o.terms, Plus(OpenDelta(o.terms.side, q), TradeDelta(o.terms.side, -q)), i);
  }

  lemma {:induction false} RebuildInStep(s: State, o: Order, i: InstrumentId)
    requires InStep(s.ledger, i)
    ensures InStep(RebuildOrder(s, o).ledger, i)
  {
    hide InStep, PostTerms, OpenDelta;
    var d, d' := OpenDelta(o.terms.side, o.Rem()), OpenDelta(o.terms.side, -o.Rem());
    TermsInStep(s.ledger, o.terms, d, i);
    TermsInStep(PostTerms(s.ledger, o.terms, d), o.terms, d', i);
  }

  lemma {:induction false} StepInStep(s: State, e: Event, i: InstrumentId)
    requires ListsKnown(s) && InStep(s.ledger, i)
    ensures InStep(Step(s, e).ledger, i)
  {
    hide InStep, SendNew, SendMod, SendCxl, OnNewAck, OnModAck, OnModRej, OrdersOnCxlRej, OrdersOnNewRej, OnCxlAck,
         OnFill, OnBust, RebuildOrder, Post, TradeDelta;
    if Addressed(s, e) {
      if IsQuiet(e) {
        QuietLedger(s, e);
      } else {
        match e
        case Create(_, _) =>
        case New(ref, env) => NewInStep(s, ref, env, i);
        case NewRej(ref) => OtherInStep(s, ref, 0, i);
        case CxlAck(ref) => OtherInStep(s, ref, 0, i);
        case Fill(ref, q) => FillInStep(s, ref, q, i);
        case Bust(ref, q) => OtherInStep(s, ref, q, i);
        case ExternalFill(a, st, j, side, q) => PostInStep(s.ledger, a, st, j, TradeDelta(side, q), i);
        case Rebuild(o) => RebuildInStep(s, o, i);
        case RebuildPos(a, st, j, n) => PostInStep(s.ledger, a, st, j, OpenPos(0, 0, n), i);
      }
    }
  }

  /** Any events at all, from clear() on: the two views agree in every instrument. */
  lemma {:induction false} ViewsAgree(s: State, es: seq<Event>, i: InstrumentId)
    requires ListsKnown(s) && InStep(s.ledger, i)
    ensures InStep(Run(s, es).ledger, i)
    decreases |es|
  {
    hide Step, InStep;
    if es != [] {
      StepInStep(s, es[0], i);
      ViewsAgree(Step(s, es[0]), es[1..], i);
    }
  }

  lemma FreshInStep(config: Config, i: InstrumentId)
    ensures InStep(Initial(config).ledger, i)
  {
  }

  /** From a fresh start, whatever happens: the totals over accounts and over strategies agree in every instrument. */
  lemma {:induction false} ViewsFromFresh(config: Config, es: seq<Event>, i: InstrumentId)
    ensures var l := Run(Initial(config), es).ledger;
            AccountTotal(l, i) == StrategyTotal(l, i)
  {
    hide Run, AccountTotal, StrategyTotal;
    FreshInStep(config, i);
    ViewsAgree(Initial(config), es, i);
  }

  /** stop() empties the table and the account view, but not the strategy view. */
  function Stop(s: State): State {
    s.(table := map[], ledger := s.ledger.(accounts := map[]))
  }

  /** So after a stop the views agree exactly where the strategies were flat in total. */
  lemma {:induction false} StopBreaksViews(s: State, i: InstrumentId)
    ensures InStep(Stop(s).ledger, i) <==> StrategyTotal(s.ledger, i) == FLAT
  {
    var none: Positions := map[];
    assert none.Keys == {};
  }
}
