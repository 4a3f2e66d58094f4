/** The outbound message cache behind resend requests: the most recent messages, by sequence number. */
module ResendCache {

  const MAX_OUTBOUND_CACHE_SIZE := 10000

  datatype Message<T> = Message(seqNum: int, body: T)

  /** The numbers in arrival order, and the bodies by number. */
  datatype Cache<T> = Cache(seqNums: seq<int>, bodies: map<int, T>)

  /** Storing an outbound message: the oldest number makes room, a number already present keeps its first body. */
  function Store<T>(c: Cache<T>, m: Message<T>): Cache<T> {
    Append(if |c.seqNums| == MAX_OUTBOUND_CACHE_SIZE then DropOldest(c) else c, m)
  }

  function DropOldest<T>(c: Cache<T>): Cache<T>
    requires c.seqNums != []
  {
    Cache(c.seqNums[1..], c.bodies - {c.seqNums[0]})
  }

  function Append<T>(c: Cache<T>, m: Message<T>): Cache<T> {
    Cache(c.seqNums + [m.seqNum], if m.seqNum in c.bodies then c.bodies else c.bodies[m.seqNum := m.body])
  }

  /** The cache after a log of outbound messages. */
  function Cached<T>(log: seq<Message<T>>): Cache<T> {
    if log == [] then Cache([], map[]) else Store(Cached(log[..|log| - 1]), log[|log| - 1])
  }

  /** Whatever the numbers: bodies only for numbers in the window, and never more than the limit of either. */
  predicate Bounded<T>(c: Cache<T>) {
    |c.seqNums| <= MAX_OUTBOUND_CACHE_SIZE && forall n :: n in c.bodies ==> n in c.seqNums
  }

  lemma {:induction false} AlwaysBounded<T>(log: seq<Message<T>>)
    ensures Bounded(Cached(log)) && |Cached(log).bodies| <= |Cached(log).seqNums| <= 10000
  {
    if log != [] {
      AlwaysBounded(log[..|log| - 1]);
      StoreBounded(Cached(log[..|log| - 1]), log[|log| - 1]);
    }
    FewBodies(Cached(log).bodies.Keys, Cached(log).seqNums);
  }

  lemma {:induction false} StoreBounded<T>(c: Cache<T>, m: Message<T>)
    requires Bounded(c)
    ensures Bounded(Store(c, m))
  {
    var d := if |c.seqNums| == MAX_OUTBOUND_CACHE_SIZE then Cache(c.seqNums[1..], c.bodies - {c.seqNums[0]}) else c;
    forall n | n in d.bodies ensures n in d.seqNums {
      assert n in c.seqNums;
      if |c.seqNums| == MAX_OUTBOUND_CACHE_SIZE { assert c.seqNums == [c.seqNums[0]] + c.seqNums[1..]; }
    }
  }

  /** A set whose members all occur in a sequence is no larger than the sequence is long. */
  lemma {:induction false} FewBodies(keys: set<int>, s: seq<int>)
    requires forall n :: n in keys ==> n in s
    ensures |keys| <= |s|
  {
    if s == [] {
      assert forall n :: n !in keys;
      assert keys == {};
    } else {
      var n := s[|s| - 1];
      assert s == s[..|s| - 1] + [n];
      FewBodies(keys - {n}, s[..|s| - 1]);
      assert keys <= (keys - {n}) + {n};
    }
  }

  /** Whatever the numbers: until the cache is full, the first message with a number is the one replayed. */
  lemma {:induction false} FirstBodyKept<T>(log: seq<Message<T>>, i: nat)
    requires i < |log| <= 10000 && forall j :: 0 <= j < i ==> log[j].seqNum != log[i].seqNum
    ensures |Cached(log).seqNums| == |log|
    ensures log[i].seqNum in Cached(log).bodies && Cached(log).bodies[log[i].seqNum] == log[i].body
  {
    var init := log[..|log| - 1];
    AllCached(init);
    if i < |init| {
      FirstBodyKept(init, i);
    }
  }

  lemma {:induction false} AllCached<T>(log: seq<Message<T>>)
    requires |log| <= 10000
    ensures |Cached(log).seqNums| == |log| && forall n :: n in Cached(log).bodies ==> exists j :: 0 <= j < |log| && log[j].seqNum == n
  {
    if log != [] {
      var init := log[..|log| - 1];
      AllCached(init);
      forall n | n in Cached(log).bodies ensures exists j :: 0 <= j < |log| && log[j].seqNum == n {
        if n == log[|init|].seqNum {
          assert log[|init|].seqNum == n;
        } else {
          var j :| 0 <= j < |init| && init[j].seqNum == n;
          assert log[j].seqNum == n;
        }
      }
    }
  }

  // ---------- increasing numbers ----------

  predicate Increasing<T>(log: seq<Message<T>>) {
    forall i, j :: 0 <= i < j < |log| ==> log[i].seqNum < log[j].seqNum
  }

  function Window<T>(log: seq<Message<T>>): seq<Message<T>> {
    if |log| <= 10000 then log else log[|log| - 10000..]
  }

  /** The cache holds exactly these messages. */
  ghost predicate Holds<T>(c: Cache<T>, w: seq<Message<T>>) {
    && |c.seqNums| == |w|
    && (forall i :: 0 <= i < |w| ==> c.seqNums[i] == w[i].seqNum && w[i].seqNum in c.bodies && c.bodies[w[i].seqNum] == w[i].body)
    && (forall n :: n in c.bodies ==> exists i :: 0 <= i < |w| && w[i].seqNum == n)
  }

  lemma {:induction false} DropHolds<T>(c: Cache<T>, w: seq<Message<T>>)
    requires Holds(c, w) && Increasing(w) && w != []
    ensures Holds(DropOldest(c), w[1..])
  {
    var d, v := DropOldest(c), w[1..];
    forall i | 0 <= i < |v| ensures d.seqNums[i] == v[i].seqNum && v[i].seqNum in d.bodies && d.bodies[v[i].seqNum] == v[i].body {
      assert v[i] == w[i + 1] && w[0].seqNum < w[i + 1].seqNum;
    }
    forall n | n in d.bodies ensures exists i :: 0 <= i < |v| && v[i].seqNum == n {
      var i :| 0 <= i < |w| && w[i].seqNum == n;
      assert i > 0 && v[i - 1] == w[i];
    }
  }

  lemma {:induction false} AppendHolds<T>(c: Cache<T>, w: seq<Message<T>>, m: Message<T>)
    requires Holds(c, w) && forall i :: 0 <= i < |w| ==> w[i].seqNum < m.seqNum
    ensures Holds(Append(c, m), w + [m])
  {
    var r, x := Append(c, m), w + [m];
    assert m.seqNum !in c.bodies;
    forall n | n in r.bodies ensures exists i :: 0 <= i < |x| && x[i].seqNum == n {
      if n == m.seqNum {
        assert x[|w|].seqNum == n;
      } else {
        var i :| 0 <= i < |w| && w[i].seqNum == n;
        assert x[i].seqNum == n;
      }
    }
  }

  lemma {:induction false} WindowNext<T>(log: seq<Message<T>>)
    requires log != []
    ensures var n := |log| - 1;
            var w := Window(log[..n]);
            Window(log) == if |w| == MAX_OUTBOUND_CACHE_SIZE then w[1..] + [log[n]] else w + [log[n]]
  {
  }

  lemma {:induction false} WindowIncreasing<T>(log: seq<Message<T>>)
    requires Increasing(log) && log != []
    ensures var n := |log| - 1;
            var w := Window(log[..n]);
            Increasing(log[..n]) && Increasing(w) && forall i :: 0 <= i < |w| ==> w[i].seqNum < log[n].seqNum
  {
  }

  /** For increasing numbers the cache is exactly the last messages of the log, up to the limit. */
  lemma {:induction false} CacheIsWindow<T>(log: seq<Message<T>>)
    requires Increasing(log)
    ensures Holds(Cached(log), Window(log))
  {
    hide Window, DropOldest, Append, Increasing;
    if log == [] {
      EmptyWindow<T>();
    } else {
      var n := |log| - 1;
      WindowIncreasing(log);
      CacheIsWindow(log[..n]);
      WindowNext(log);
      var c, w := Cached(log[..n]), Window(log[..n]);
      if |w| == MAX_OUTBOUND_CACHE_SIZE {
        DropHolds(c, w);
        AppendHolds(DropOldest(c), w[1..], log[n]);
      } else {
        AppendHolds(c, w, log[n]);
      }
    }
  }

  lemma {:induction false} EmptyWindow<T>()
    ensures Window<T>([]) == []
  {
  }

  /** The bodies of the messages numbered from b to e, in order. */
  function Between<T>(w: seq<Message<T>>, b: int, e: int): seq<T> {
    if w == [] then []
    else Between(w[..|w| - 1], b, e) + if b <= w[|w| - 1].seqNum <= e then [w[|w| - 1].body] else []
  }

  /** One more number at the top of the range adds nothing if no message has it. */
  lemma {:induction false} BetweenSkip<T>(w: seq<Message<T>>, b: int, i: int)
    requires forall k :: 0 <= k < |w| ==> w[k].seqNum != i
    ensures Between(w, b, i) == Between(w, b, i - 1)
  {
    if w != [] {
      BetweenSkip(w[..|w| - 1], b, i);
    }
  }

  /** It adds the one message that has it. */
  lemma {:induction false} BetweenHit<T>(w: seq<Message<T>>, b: int, i: int, k: nat)
    requires Increasing(w) && b <= i && k < |w| && w[k].seqNum == i
    ensures Between(w, b, i) == Between(w, b, i - 1) + [w[k].body]
  {
    var n := |w| - 1;
    if k == n {
      BetweenSkip(w[..n], b, i);
    } else {
      assert w[k].seqNum < w[n].seqNum;
      BetweenHit(w[..n], b, i, k);
    }
  }

  lemma {:induction false} BetweenNone<T>(w: seq<Message<T>>, b: int, e: int)
    requires e < b
    ensures Between(w, b, e) == []
  {
    if w != [] { BetweenNone(w[..|w| - 1], b, e); }
  }

  /** The cached bodies numbered b to e, by number. */
  function Replay<T>(bodies: map<int, T>, b: int, e: int): seq<T>
    decreases e - b + 1
  {
    if e < b then [] else Replay(bodies, b, e - 1) + if e in bodies then [bodies[e]] else []
  }

  /** A resend request over an increasing log replays exactly the logged messages in its range that are in the window, in log order. */
  lemma {:induction false} ReplayIsLogged<T>(log: seq<Message<T>>, b: int, e: int)
    requires Increasing(log)
    ensures Replay(Cached(log).bodies, b, e) == Between(Window(log), b, e)
    decreases e - b + 1
  {
    hide Cached, Window;
    var w := Window(log);
    if e < b {
      BetweenNone(w, b, e);
    } else {
      ReplayIsLogged(log, b, e - 1);
      CacheIsWindow(log);
      WindowOfIncreasing(log);
      if k :| 0 <= k < |w| && w[k].seqNum == e {
        BetweenHit(w, b, e, k);
      } else {
        BetweenSkip(w, b, e);
      }
    }
  }

  lemma {:induction false} WindowOfIncreasing<T>(log: seq<Message<T>>)
    requires Increasing(log)
    ensures Increasing(Window(log))
  {
  }

  // ---------- calls ----------

  /** One call that persists a message; heartbeats and inbound messages come the same way. */
  datatype Call<T> = Call(msg: Message<T>, heartbeat: bool, inbound: bool)

  function Persisted<T>(c: Cache<T>, call: Call<T>): Cache<T> {
    if call.heartbeat || call.inbound then c else Store(c, call.msg)
  }

  function CacheOf<T>(calls: seq<Call<T>>): Cache<T> {
    if calls == [] then Cache([], map[]) else Persisted(CacheOf(calls[..|calls| - 1]), calls[|calls| - 1])
  }

  /** The outbound messages among the calls that are no heartbeats. */
  function Outbound<T>(calls: seq<Call<T>>): seq<Message<T>> {
    if calls == [] then []
    else
      var last := calls[|calls| - 1];
      Outbound(calls[..|calls| - 1]) + if last.heartbeat || last.inbound then [] else [last.msg]
  }

  lemma {:induction false} CallsAreLog<T>(calls: seq<Call<T>>)
    ensures CacheOf(calls) == Cached(Outbound(calls))
  {
    hide Store;
    if calls != [] {
      var init, last := calls[..|calls| - 1], calls[|calls| - 1];
      CallsAreLog(init);
      if !(last.heartbeat || last.inbound) {
        var log := Outbound(calls);
        assert log[..|log| - 1] == Outbound(init);
      } else {
        assert Outbound(calls) == Outbound(init);
      }
    }
  }

  /**
    Any calls, heartbeats and inbound messages among them, whose outbound messages are numbered upwards: the cache is the
    window of those messages, and a resend request replays exactly the ones in its range.
   */
  lemma {:induction false} CallsReplayed<T>(calls: seq<Call<T>>, b: int, e: int)
    requires Increasing(Outbound(calls))
    ensures Holds(CacheOf(calls), Window(Outbound(calls)))
    ensures Replay(CacheOf(calls).bodies, b, e) == Between(Window(Outbound(calls)), b, e)
  {
    hide CacheOf, Outbound, Window, Holds, Increasing;
    CallsAreLog(calls);
    CacheIsWindow(Outbound(calls));
    ReplayIsLogged(Outbound(calls), b, e);
  }

  /** Any calls, any numbers: the cache is bounded. */
  lemma {:induction false} CallsBounded<T>(calls: seq<Call<T>>)
    ensures Bounded(CacheOf(calls)) && |CacheOf(calls).bodies| <= |CacheOf(calls).seqNums| <= 10000
  {
    CallsAreLog(calls);
    AlwaysBounded(Outbound(calls));
  }

  class OutboundCache<T> {
    var seqNums: seq<int>
    var bodies: map<int, T>

    ghost function View(): Cache<T>
      reads this
    {
      Cache(seqNums, bodies)
    }

    constructor ()
      ensures View() == CacheOf([])
    {
      seqNums, bodies := [], map[];
    }

    /** Heartbeats and inbound messages are not cached. */
    method PersistMessage(seqNum: int, body: T, heartbeat: bool, inbound: bool)
      modifies this
      ensures View() == Persisted(old(View()), Call(Message(seqNum, body), heartbeat, inbound))
    {
      if heartbeat || inbound {
        return;
      }
      if |seqNums| == MAX_OUTBOUND_CACHE_SIZE {
        var oldest := seqNums[0];
        seqNums := seqNums[1..];
        bodies := bodies - {oldest};
      }
      seqNums := seqNums + [seqNum];
      if seqNum !in bodies {
        bodies := bodies[seqNum := body];
      }
    }

    /** Replays the cached messages numbered b to e, lowest number first. */
    method GetOutbound(b: int, e: int) returns (replayed: seq<T>)
      ensures replayed == Replay(bodies, b, e)
    {
      replayed := [];
      var i := b;
      while i <= e
        invariant b <= i && (i <= e + 1 || i == b)
        invariant replayed == Replay(bodies, b, i - 1)
        decreases e - i
      {
        if i in bodies {
          replayed := replayed + [bodies[i]];
        }
        i := i + 1;
      }
    }
  }
}
