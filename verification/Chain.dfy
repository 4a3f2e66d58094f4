/**
  The nested processor chain: each stage sends, hands over to the rest of the chain, and takes its own step
  back when the rest refuses.
 */
module Chain {
  import opened OrderTypes

  /** A stage: a send that may refuse, and the compensation called when a later stage refuses. */
  datatype Stage<!S, !R> = Stage(send: S -> (S, Option<R>), undo: (S, R) -> S)

  /** One call a stage receives, by the stage's depth. */
  datatype Call = Sent(depth: nat) | Undone(depth: nat)

  datatype Result<S, R> = Result(state: S, rej: Option<R>, calls: seq<Call>)

  /** The chain from the stage at a given depth inwards, with the calls it makes. */
  function Send<S, R>(stages: seq<Stage<S, R>>, s: S, depth: nat): Result<S, R> {
    if stages == [] then Result(s, None, []) else
    var a := stages[0].send(s);
    if a.1.Some? then Result(a.0, a.1, [Sent(depth)]) else
    var r := Send(stages[1..], a.0, depth + 1);
    if r.rej.Some?
    then Result(stages[0].undo(r.state, r.rej.value), r.rej, [Sent(depth)] + r.calls + [Undone(depth)])
    else Result(r.state, None, [Sent(depth)] + r.calls)
  }

  /** The state after the first k stages have sent. */
  function Forward<S, R>(stages: seq<Stage<S, R>>, s: S, k: nat): S
    requires k <= |stages|
  {
    if k == 0 then s else Forward(stages[1..], stages[0].send(s).0, k - 1)
  }

  /** The state after stages k-1 down to 0 have been told of a reject. */
  function Backward<S, R>(stages: seq<Stage<S, R>>, s: S, rej: R, k: nat): S
    requires k <= |stages|
  {
    if k == 0 then s else Backward(stages, stages[k - 1].undo(s, rej), rej, k - 1)
  }

  /** The depth of the stage that refuses, or the number of stages. */
  function Refuser<S, R>(stages: seq<Stage<S, R>>, s: S): (k: nat)
    ensures k <= |stages|
  {
    if stages == [] || stages[0].send(s).1.Some? then 0 else 1 + Refuser(stages[1..], stages[0].send(s).0)
  }

  function Sends(depth: nat, n: nat): seq<Call> {
    seq(n, i requires 0 <= i => Sent(depth + i))
  }

  /** Compensations from the innermost accepted stage outwards. */
  function Undos(depth: nat, n: nat): seq<Call> {
    seq(n, i requires 0 <= i < n => Undone(depth + n - 1 - i))
  }

  /** Peeling the outermost stage off the way back. */
  lemma {:induction false} BackwardOuter<S, R>(stages: seq<Stage<S, R>>, s: S, rej: R, k: nat)
    requires 0 < k <= |stages|
    ensures Backward(stages, s, rej, k) == stages[0].undo(Backward(stages[1..], s, rej, k - 1), rej)
    decreases k
  {
    if k > 1 {
      BackwardOuter(stages, stages[k - 1].undo(s, rej), rej, k - 1);
      assert stages[1..][k - 2] == stages[k - 1];
    }
  }

  /** Any stages: the chain runs forward to the first stage that refuses, then back through all stages before it. */
  lemma {:induction false} ChainUnwinds<S, R>(stages: seq<Stage<S, R>>, s: S, depth: nat)
    ensures var r := Send(stages, s, depth);
            var k := Refuser(stages, s);
            if k == |stages| then r.rej.None? && r.state == Forward(stages, s, k)
            else
              && var last := stages[k].send(Forward(stages, s, k));
              && r.rej == last.1 && r.rej.Some?
              && r.state == Backward(stages, last.0, r.rej.value, k)
  {
    if stages != [] && stages[0].send(s).1.None? {
      var s' := stages[0].send(s).0;
      ChainUnwinds(stages[1..], s', depth + 1);
      var k := Refuser(stages[1..], s');
      if k < |stages[1..]| {
        var last := stages[1..][k].send(Forward(stages[1..], s', k));
        BackwardOuter(stages, last.0, last.1.value, k + 1);
        assert stages[1..][k] == stages[k + 1];
      }
    }
  }

  lemma {:induction false} CallsGrow(depth: nat, k: nat)
    ensures [Sent(depth)] + Sends(depth + 1, k) == Sends(depth, k + 1)
    ensures Undos(depth + 1, k) + [Undone(depth)] == Undos(depth, k + 1)
  {
  }

  /**
    Any stages, any depth: the stages up to the refusing one are called once each, outermost first; the refusing stage
    and those behind it get no compensation; every stage before it gets exactly one, innermost first.
   */
  lemma {:induction false} ChainCalls<S, R>(stages: seq<Stage<S, R>>, s: S, depth: nat)
    ensures var k := Refuser(stages, s);
            Send(stages, s, depth).calls
            == if k == |stages| then Sends(depth, k) else Sends(depth, k + 1) + Undos(depth, k)
    ensures Send(stages, s, depth).rej.None? <==> Refuser(stages, s) == |stages|
  {
    hide Sends, Undos;
    if stages == [] {
      NoCalls(depth);
    } else if stages[0].send(s).1.Some? {
      NoCalls(depth);
      CallsGrow(depth, 0);
      NoCalls(depth + 1);
    } else {
      var s' := stages[0].send(s).0;
      var k := Refuser(stages[1..], s');
      ChainCalls(stages[1..], s', depth + 1);
      CallsGrow(depth, k);
      CallsGrow(depth, k + 1);
      if k < |stages[1..]| {
      }
    }
  }

  lemma {:induction false} NoCalls(depth: nat)
    ensures Sends(depth, 0) == [] && Undos(depth, 0) == []
  {
  }

  /** One more stage forward. */
  lemma {:induction false} ForwardNext<S, R>(stages: seq<Stage<S, R>>, s: S, k: nat)
    requires k < |stages|
    ensures Forward(stages, s, k + 1) == stages[k].send(Forward(stages, s, k)).0
  {
    if k > 0 {
      ForwardNext(stages[1..], stages[0].send(s).0, k - 1);
      assert stages[1..][k - 1] == stages[k];
    } else {
      assert Forward(stages[1..], stages[0].send(s).0, 0) == stages[0].send(s).0;
    }
  }

  /** The stages before the refusing one have all agreed; the refusing one has not. */
  lemma {:induction false} RefuserIsFirst<S, R>(stages: seq<Stage<S, R>>, s: S, j: nat)
    requires j <= Refuser(stages, s) && j < |stages|
    ensures stages[j].send(Forward(stages, s, j)).1.Some? <==> j == Refuser(stages, s)
  {
    if j > 0 {
      RefuserIsFirst(stages[1..], stages[0].send(s).0, j - 1);
      assert stages[1..][j - 1] == stages[j];
    }
  }

  /** The compensations take back, step by step, what a relation per depth can tell. */
  lemma {:induction false} BackwardRestores<S(!new), R>(stages: seq<Stage<S, R>>, s: S, y: S, rej: R, k: nat, same: (nat, S, S) -> bool)
    requires k <= |stages| && same(k, Forward(stages, s, k), y)
    requires forall j, x {:trigger stages[j].undo(x, rej)} ::
               0 <= j < k && same(j + 1, Forward(stages, s, j + 1), x) ==> same(j, Forward(stages, s, j), stages[j].undo(x, rej))
    ensures same(0, s, Backward(stages, y, rej, k))
    decreases k
  {
    if k > 0 {
      BackwardRestores(stages, s, stages[k - 1].undo(y, rej), rej, k - 1, same);
    }
  }

  /**
    A refused request. If the refusing stage leaves intact what a relation at its depth can tell of the state it met, and
    each earlier stage's compensation for this reject turns a state that agrees after its send into one that agrees
    before it, then the whole request leaves nothing the outermost relation can tell.
   */
  lemma {:induction false} ChainRestores<S(!new), R>(stages: seq<Stage<S, R>>, s: S, depth: nat, same: (nat, S, S) -> bool)
    requires Send(stages, s, depth).rej.Some? && Refuser(stages, s) < |stages|
    requires var k := Refuser(stages, s);
             same(k, Forward(stages, s, k), stages[k].send(Forward(stages, s, k)).0)
    requires var rej := Send(stages, s, depth).rej.value;
             forall j, y {:trigger stages[j].undo(y, rej)} ::
               0 <= j < Refuser(stages, s) && same(j + 1, Forward(stages, s, j + 1), y)
               ==> same(j, Forward(stages, s, j), stages[j].undo(y, rej))
    ensures same(0, s, Send(stages, s, depth).state)
  {
    var k := Refuser(stages, s);
    ChainUnwinds(stages, s, depth);
    BackwardRestores(stages, s, stages[k].send(Forward(stages, s, k)).0, Send(stages, s, depth).rej.value, k, same);
  }
}
