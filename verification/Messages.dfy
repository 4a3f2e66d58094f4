/**
  The message counters over whole runs: each field of each symbol and account is the number of requests of its kind that
  left the process, the cancels that were kept and went out with an answer included.
 */
module Messages {
  import opened OrderTypes
  import opened Pipeline
  import opened Effects
  import opened Acceptance
  import opened Rollback

  type Key = (string, AccountId)

  /** The messages of an order are counted for its symbol and account, if its instrument is known. */
  predicate For(s: State, t: Terms, k: Key) {
    t.instrument in s.config.instruments && k == (s.config.instruments[t.instrument], t.account)
  }

  function One(b: bool): nat {
    if b then 1 else 0
  }

  /** A refusal for this reason happens outside the process. */
  predicate Leaves(r: Option<Reason>) {
    r.None? || r == Some(ChannelFailure)
  }

  predicate CancelLeaves(o: Order, env: Env) {
    o.state != Cancelling && Leaves(CxlVerdict(o, env))
  }

  /** A cancel kept with the order goes out with an answer: from working, if the answer is the acknowledgement of the order. */
  predicate KeptLeaves(o: Order, e: Event, env: Env) {
    o.cancelOnAck
    && CancelLeaves(o.(cancelOnAck := false, state := if e.NewAck? && o.state == Pending then Working else o.state), env)
  }

  /** The requests of each kind that an event sends for a symbol and account. */
  function NewsSent(s: State, e: Event, k: Key): nat
    requires ListsKnown(s)
  {
    One(e.New? && Known(s, e.ref) && For(s, s.orders[e.ref].terms, k) && LeftProcess(SendNew(s, e.ref, e.env).1))
  }

  function ModsSent(s: State, e: Event, k: Key): nat
    requires ListsKnown(s)
  {
    One(e.Mod? && Known(s, e.ref) && For(s, s.orders[e.ref].terms, k) && LeftProcess(SendMod(s, e.ref, e.newPrice, e.env).1))
  }

  function CxlsSent(s: State, e: Event, k: Key): nat {
    One((e.Cxl? || e.NewAck? || e.ModAck? || e.ModRej?) && Known(s, e.ref) && For(s, s.orders[e.ref].terms, k)
        && if e.Cxl? then CancelLeaves(s.orders[e.ref], e.env) else KeptLeaves(s.orders[e.ref], e, e.env))
  }

  // ---------- one event ----------

  lemma {:induction false} CancelCounted(s: State, ref: OrderRef, env: Env, k: Key)
    requires Known(s, ref)
    ensures var c, r := MsgAt(s.messages, k), MsgAt(SendCxl(s, ref, env).0.messages, k);
            r == MsgCounts(c.news, c.mods, c.cxls + One(For(s, s.orders[ref].terms, k) && CancelLeaves(s.orders[ref], env)))
  {
    hide SendCxl, CxlVerdict, MsgAt;
    CxlMessages(s, ref, env, k);
    CxlVerdictExact(s, ref, env);
  }

  /** Only the cancel that an answer sends is counted. */
  lemma {:induction false} AnswerCounted(s: State, t: State, ref: OrderRef, e: Event, env: Env, k: Key)
    requires Known(s, ref) && Known(t, ref) && t.config == s.config && t.messages == s.messages && t.orders[ref].terms == s.orders[ref].terms
    requires t.orders[ref].cancelOnAck == s.orders[ref].cancelOnAck && t.orders[ref].counters.cxlRejs == s.orders[ref].counters.cxlRejs
    requires var a, b := (if e.NewAck? && s.orders[ref].state == Pending then Working else s.orders[ref].state), t.orders[ref].state;
             a == b || (a == Modifying && b == Working)
    ensures var c, r := MsgAt(s.messages, k), MsgAt(CancelOnAck(t, ref, env).messages, k);
            r == MsgCounts(c.news, c.mods, c.cxls + One(For(s, s.orders[ref].terms, k) && KeptLeaves(s.orders[ref], e, env)))
  {
    hide SendCxl, MsgAt;
    if t.orders[ref].cancelOnAck {
      CancelCounted(SetOrder(t, ref, t.orders[ref].(cancelOnAck := false)), ref, env, k);
    }
  }

  lemma {:induction false} AnswersCounted(s: State, ref: OrderRef, p: Ticks, env: Env, k: Key)
    requires Known(s, ref)
    ensures var c, o, f := MsgAt(s.messages, k), s.orders[ref], For(s, s.orders[ref].terms, k);
            && MsgAt(OnNewAck(s, ref, env).messages, k) == MsgCounts(c.news, c.mods, c.cxls + One(f && KeptLeaves(o, NewAck(ref, env), env)))
            && MsgAt(OnModAck(s, ref, p, env).messages, k) == MsgCounts(c.news, c.mods, c.cxls + One(f && KeptLeaves(o, ModAck(ref, p, env), env)))
            && MsgAt(OnModRej(s, ref, env).messages, k) == MsgCounts(c.news, c.mods, c.cxls + One(f && KeptLeaves(o, ModRej(ref, env), env)))
  {
    hide CancelOnAck, KeptLeaves, MsgAt, For;
    var o := s.orders[ref];
    AnswerCounted(s, if o.state == Pending then SetOrder(s, ref, o.(state := Working)) else s, ref, NewAck(ref, env), env, k);
    AnswerCounted(s, OnModPost(SetOrder(s, ref, o.(newPrice := p, counters := o.counters.(modRejs := 0))), ref, true), ref, ModAck(ref, p, env), env, k);
    AnswerCounted(s, OnModPost(OrdersOnModRej(s, ref), ref, false), ref, ModRej(ref, env), env, k);
  }

  /** Events that send nothing count nothing. */
  lemma {:induction false} OthersUncounted(s: State, e: Event)
    requires Addressed(s, e) && !e.New? && !e.Mod? && !e.Cxl? && !e.NewAck? && !e.ModAck? && !e.ModRej?
    ensures StepOther(s, e).messages == s.messages
  {
    hide Post, PostTerms;
  }

  /** One event: each field of each counter grows by exactly the requests of its kind that left the process. */
  lemma {:induction false} CountersStep(s: State, e: Event, k: Key)
    requires ListsKnown(s)
    ensures var c := MsgAt(s.messages, k);
            MsgAt(Step(s, e).messages, k) == MsgCounts(c.news + NewsSent(s, e, k), c.mods + ModsSent(s, e, k), c.cxls + CxlsSent(s, e, k))
  {
    hide SendNew, SendMod, SendCxl, OnNewAck, OnModAck, OnModRej, MsgAt, KeptLeaves, CancelLeaves, LeftProcess, OnFill, OnBust, RebuildOrder,
         OnCxlAck, OrdersOnNewRej, OrdersOnCxlRej, Post;
    if Addressed(s, e) {
      match e {
        case New(ref, env) => NewMessages(s, ref, env, k);
        case Mod(ref, p, env) => ModMessages(s, ref, p, env, k);
        case Cxl(ref, env) => CancelCounted(s, ref, env, k);
        case NewAck(ref, env) => AnswersCounted(s, ref, 0, env, k);
        case ModAck(ref, p, env) => AnswersCounted(s, ref, p, env, k);
        case ModRej(ref, env) => AnswersCounted(s, ref, 0, env, k);
        case _ => OthersUncounted(s, e);
      }
    }
  }

  // ---------- runs ----------

  /** The requests of each kind that left the process over a run. */
  function Sent(s: State, es: seq<Event>, k: Key): MsgCounts
    requires ListsKnown(s)
    decreases |es|
  {
    if es == [] then MsgCounts(0, 0, 0)
    else
      var rest := Sent(Step(s, es[0]), es[1..], k);
      MsgCounts(NewsSent(s, es[0], k) + rest.news, ModsSent(s, es[0], k) + rest.mods, CxlsSent(s, es[0], k) + rest.cxls)
  }

  lemma {:induction false} CountersRun(s: State, es: seq<Event>, k: Key)
    requires ListsKnown(s)
    ensures var c, n, r := MsgAt(s.messages, k), Sent(s, es, k), MsgAt(Run(s, es).messages, k);
            r == MsgCounts(c.news + n.news, c.mods + n.mods, c.cxls + n.cxls)
    decreases |es|
  {
    hide Step, NewsSent, ModsSent, CxlsSent, MsgAt;
    if es != [] {
      CountersStep(s, es[0], k);
      CountersRun(Step(s, es[0]), es[1..], k);
    }
  }

  /** From a fresh start: each field is the number of requests of its kind that left the process. */
  lemma {:induction false} CountersFromFresh(config: Config, es: seq<Event>, k: Key)
    ensures MsgAt(Run(Initial(config), es).messages, k) == Sent(Initial(config), es, k)
  {
    hide Run, Sent;
    CountersRun(Initial(config), es, k);
  }
}
