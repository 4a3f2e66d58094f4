/** Client order ids: a 64-bit counter written in base 36 into a fixed buffer, handed out from a pre-filled queue. */
module IdFactory {
  import opened OrderTypes

  /** The alphabet: the ten digits, then the upper-case letters. */
  function Digit(d: nat): char
    requires d < 36
  {
    if d < 10 then ('0' as int + d) as char else ('A' as int + d - 10) as char
  }

  const TWO_64: nat := 0x1_0000_0000_0000_0000

  // ---------- base 36 ----------

  /** The digits of a number, most significant first; none for zero. */
  function Encode(n: nat): string {
    if n == 0 then "" else Encode(n / 36) + [Digit(n % 36)]
  }

  /** The value of a digit: its place in the alphabet. */
  function DigitValue(c: char): nat {
    if '0' <= c <= '9' then (c - '0') as nat else if 'A' <= c <= 'Z' then (c - 'A') as nat + 10 else 0
  }

  function Decode(s: string): nat {
    if s == "" then 0 else Decode(s[..|s| - 1]) * 36 + DigitValue(s[|s| - 1])
  }

  lemma {:induction false} DecodeEncode(n: nat)
    ensures Decode(Encode(n)) == n
  {
    if n != 0 {
      DecodeEncode(n / 36);
      assert Encode(n)[..|Encode(n)| - 1] == Encode(n / 36);
    }
  }

  /** Different numbers have different texts. */
  lemma {:induction false} EncodeInjective(m: nat, n: nat)
    ensures Encode(m) == Encode(n) <==> m == n
  {
    DecodeEncode(m);
    DecodeEncode(n);
  }

  /** The first digit is never a zero, and no character is the terminator. */
  lemma {:induction false} EncodeClean(n: nat)
    ensures n > 0 ==> Encode(n) != "" && Encode(n)[0] != '0'
    ensures forall i :: 0 <= i < |Encode(n)| ==> Encode(n)[i] != '\0'
  {
    if n != 0 {
      EncodeClean(n / 36);
    }
  }

  /** Digits are the ten digits and the upper-case letters, in this order. */
  lemma {:induction false} Alphabet(d: nat)
    requires d < 36
    ensures Encode(d) == if d == 0 then "" else if d < 10 then ["0123456789"[d]] else ["ABCDEFGHIJKLMNOPQRSTUVWXYZ"[d - 10]]
    ensures Encode(36) == "10"
  {
    hide Digit;
    DigitText(d);
    DigitText(0);
    DigitText(1);
    assert d > 0 ==> d / 36 == 0 && d % 36 == d;
    assert Encode(0) == "" && Encode(1) == "" + [Digit(1)] && Encode(36) == Encode(1) + [Digit(0)];
  }

  lemma {:induction false} DigitText(d: nat)
    requires d < 36
    ensures [Digit(d)] == if d < 10 then ["0123456789"[d]] else ["ABCDEFGHIJKLMNOPQRSTUVWXYZ"[d - 10]]
  {
  }

  function Power36(k: nat): (p: nat)
    ensures p > 0
  {
    if k == 0 then 1 else 36 * Power36(k - 1)
  }

  /** A number has at most k digits exactly when it is below 36 to the k. */
  lemma {:induction false} EncodeLength(n: nat, k: nat)
    ensures |Encode(n)| <= k <==> n < Power36(k)
    decreases k
  {
    if k > 0 && n > 0 {
      EncodeLength(n / 36, k - 1);
      assert n < 36 * Power36(k - 1) <==> n / 36 < Power36(k - 1);
    }
  }

  /** Thirteen digits are enough for every 64-bit number. */
  lemma {:induction false} ThirteenDigits(n: nat)
    requires n < TWO_64
    ensures |Encode(n)| <= 13
  {
    EncodeLength(n, 13);
    assert Power36(4) == 1679616 by { assert Power36(2) == 1296; }
    assert Power36(6) == 2176782336 by { assert Power36(5) == 60466176; }
    assert Power36(8) == 2821109907456 by { assert Power36(7) == 78364164096; }
    assert Power36(10) == 3656158440062976 by { assert Power36(9) == 101559956668416; }
    assert Power36(12) == 4738381338321616896 by { assert Power36(11) == 131621703842267136; }
    assert Power36(13) == 36 * 4738381338321616896;
  }

  // ---------- the id buffer ----------

  /** An id: 21 bytes, the last one the terminator, and the place where its text begins. */
  class Id {
    const buffer: array<char>
    var begin: nat

    ghost predicate Valid()
      reads this, buffer
    {
      buffer.Length == 21 && begin <= 20 && buffer[20] == '\0'
    }

    /** The text up to the terminator. */
    ghost function Text(): string
      requires Valid()
      reads this, buffer
    {
      buffer[begin..20]
    }

    constructor ()
      ensures Valid() && fresh(buffer) && Text() == "0"
    {
      buffer := new char[21](i => if i == 19 then '0' else '\0');
      begin := 19;
    }

    method Clear()
      requires Valid()
      modifies this, buffer
      ensures Valid() && begin == 19 && Text() == "0"
    {
      var i := 0;
      while i < 21
        invariant 0 <= i <= 21 && begin == old(begin) && forall j :: 0 <= j < i ==> buffer[j] == '\0'
      {
        buffer[i] := '\0';
        i := i + 1;
      }
      buffer[19] := '0';
      begin := 19;
    }

    /** Writes the digits from the right; never leaves the buffer. */
    method Generate(n: nat)
      requires Valid() && n < TWO_64
      modifies this, buffer
      ensures Valid() && Text() == Encode(n)
    {
      Clear();
      ThirteenDigits(n);
      var i, index := n, 0;
      assert buffer[20..20] == [];
      while i != 0 && index < 19
        invariant index <= 19 && begin == 19 && buffer[20] == '\0'
        invariant Encode(n) == Encode(i) + buffer[20 - index..20]
        decreases i
      {
        ghost var tail := buffer[20 - index..20];
        buffer[19 - index] := Digit(i % 36);
        assert buffer[19 - index..20] == [Digit(i % 36)] + tail;
        assert Encode(i / 36) + [Digit(i % 36)] + tail == Encode(i / 36) + ([Digit(i % 36)] + tail);
        i := i / 36;
        index := index + 1;
      }
      EncodeClean(i);
      assert |Encode(n)| == |Encode(i)| + index;
      begin := 20 - index;
    }

    method CopyFrom(rhs: Id)
      requires Valid() && rhs.Valid() && (this != rhs ==> buffer != rhs.buffer)
      modifies this, buffer
      ensures Valid() && Text() == old(rhs.Text())
    {
      if this == rhs {
        return;
      }
      var i := 0;
      while i < 21
        invariant 0 <= i <= 21 && buffer[..i] == rhs.buffer[..i] && rhs.begin == old(rhs.begin) && rhs.buffer[..] == old(rhs.buffer[..])
      {
        buffer[i] := rhs.buffer[i];
        i := i + 1;
      }
      assert buffer[..21] == rhs.buffer[..21];
      begin := 21 - (21 - rhs.begin);
    }
  }

  // ---------- the factory ----------

  /** The counter, the queue of ready ids, the id a refill has drawn but not queued yet, and the ids handed out. */
  datatype Factory = Factory(last: nat, queue: seq<nat>, drawn: Option<nat>, out: seq<nat>)

  /** The steps of the requesters and of the refilling thread, which draws an id before it queues it. */
  datatype Op = Get | Draw | Enqueue

  /** The next counter value, 64 bits wide. */
  function Next(n: nat): nat {
    (n + 1) % TWO_64
  }

  function Step(f: Factory, op: Op): Factory {
    match op
    case Get =>
      if f.queue != [] then f.(queue := f.queue[1..], out := f.out + [f.queue[0]])
      else f.(last := Next(f.last), out := f.out + [Next(f.last)])
    case Draw => if f.drawn.Some? then f else f.(last := Next(f.last), drawn := Some(Next(f.last)))
    case Enqueue => if f.drawn.None? then f else f.(queue := f.queue + [f.drawn.value], drawn := None)
  }

  function Run(f: Factory, ops: seq<Op>): Factory {
    if ops == [] then f else Step(Run(f, ops[..|ops| - 1]), ops[|ops| - 1])
  }

  predicate Distinct(s: seq<nat>) {
    forall i, j :: 0 <= i < j < |s| ==> s[i] != s[j]
  }

  /** All numbers drawn since the start, handed out or not. */
  function All(f: Factory): seq<nat> {
    f.out + f.queue + if f.drawn.Some? then [f.drawn.value] else []
  }

  /** Every drawn number is distinct and lies between the start and the counter. */
  predicate Sound(f: Factory, first: nat) {
    first <= f.last < TWO_64 && Distinct(All(f)) && forall i :: 0 <= i < |All(f)| ==> first < All(f)[i] <= f.last
  }

  lemma {:induction false} StepSound(f: Factory, first: nat, op: Op)
    requires Sound(f, first) && (op.Enqueue? || f.last + 1 < TWO_64)
    ensures Sound(Step(f, op), first) && Step(f, op).last <= f.last + 1
  {
    var g := Step(f, op);
    match op
    case Get =>
      if f.queue != [] {
        assert f.out + [f.queue[0]] + f.queue[1..] == f.out + f.queue;
      } else {
        GetOnDemand(f, first);
      }
    case Draw =>
      if f.drawn.None? {
        assert All(g) == All(f) + [f.last + 1];
      }
    case Enqueue =>
      if f.drawn.Some? {
        assert All(g) == All(f);
      }
  }

  lemma {:induction false} GetOnDemand(f: Factory, first: nat)
    requires Sound(f, first) && f.last + 1 < TWO_64 && f.queue == []
    ensures Sound(Step(f, Get), first)
  {
    var g := Step(f, Get);
    var n := |f.out|;
    assert forall i :: 0 <= i < n ==> All(g)[i] == All(f)[i];
    assert All(g)[n] == f.last + 1;
    assert f.drawn.Some? ==> |All(g)| == n + 2 && All(g)[n + 1] == All(f)[n];
  }

  /** Any interleaving of requests and refills, until the counter wraps: all ids handed out are different texts. */
  lemma {:induction false} AllIdsDistinct(first: nat, ops: seq<Op>)
    requires first + |ops| < TWO_64
    ensures var f := Run(Factory(first, [], None, []), ops);
            && Sound(f, first) && f.last <= first + |ops|
            && forall i, j :: 0 <= i < j < |f.out| ==> Encode(f.out[i]) != Encode(f.out[j])
  {
    RunSound(first, ops);
    var f := Run(Factory(first, [], None, []), ops);
    forall i, j | 0 <= i < j < |f.out| ensures Encode(f.out[i]) != Encode(f.out[j]) {
      assert All(f)[i] == f.out[i] && All(f)[j] == f.out[j];
      EncodeInjective(f.out[i], f.out[j]);
    }
  }

  lemma {:induction false} RunSound(first: nat, ops: seq<Op>)
    requires first + |ops| < TWO_64
    ensures var f := Run(Factory(first, [], None, []), ops);
            Sound(f, first) && f.last <= first + |ops|
  {
    if ops != [] {
      RunSound(first, ops[..|ops| - 1]);
      StepSound(Run(Factory(first, [], None, []), ops[..|ops| - 1]), first, ops[|ops| - 1]);
    }
  }

  // ---------- first drawn, first handed out ----------

  /** The ids a run hands out from the queue, in order; the others are made on the spot. */
  function Taken(f: Factory, ops: seq<Op>): seq<nat> {
    if ops == [] then []
    else
      var init := ops[..|ops| - 1];
      var g := Run(f, init);
      Taken(f, init) + if ops[|ops| - 1].Get? && g.queue != [] then [g.queue[0]] else []
  }

  predicate Ascending(s: seq<nat>) {
    forall i, j :: 0 <= i < j < |s| ==> s[i] < s[j]
  }

  /** What the queue has handed out, what it holds, and what is drawn for it. */
  function Through(f: Factory, ops: seq<Op>): seq<nat> {
    var g := Run(f, ops);
    Taken(f, ops) + g.queue + if g.drawn.Some? then [g.drawn.value] else []
  }

  /** A step only ever adds the id it draws, at the end; handing one out from the queue or queueing one moves none. */
  lemma {:induction false} ThroughStep(f: Factory, ops: seq<Op>)
    requires ops != []
    ensures var init, op := ops[..|ops| - 1], ops[|ops| - 1];
            var g := Run(f, init);
            Through(f, ops) == if op.Draw? && g.drawn.None? then Through(f, init) + [Next(g.last)] else Through(f, init)
  {
    hide Next;
    var init, op := ops[..|ops| - 1], ops[|ops| - 1];
    var g, t := Run(f, init), Taken(f, init);
    assert t + [] == t;
    if op.Get? && g.queue != [] {
      assert t + [g.queue[0]] + g.queue[1..] == t + g.queue;
    }
    if op.Enqueue? && g.drawn.Some? {
      assert t + (g.queue + [g.drawn.value]) + [] == t + g.queue + [g.drawn.value];
    }
    if op.Draw? && g.drawn.None? {
      assert t + g.queue + [] == t + g.queue;
    }
  }

  /** The queue hands out its ids in the order in which they were drawn, whatever is made on the spot in between. */
  lemma {:induction false} QueueInOrder(first: nat, ops: seq<Op>)
    requires first + |ops| < TWO_64
    ensures var f := Factory(first, [], None, []);
            Ascending(Through(f, ops)) && forall i :: 0 <= i < |Through(f, ops)| ==> Through(f, ops)[i] <= Run(f, ops).last
  {
    hide Through, Taken;
    var f := Factory(first, [], None, []);
    if ops == [] {
      NothingThrough(f);
    } else {
      var init := ops[..|ops| - 1];
      QueueInOrder(first, init);
      RunSound(first, init);
      ThroughStep(f, ops);
    }
  }

  lemma {:induction false} NothingThrough(f: Factory)
    requires f.queue == [] && f.drawn.None?
    ensures Through(f, []) == []
  {
  }

  /** The factory object; `out` records what has been handed out. */
  class IdSource {
    var last: nat
    var queue: seq<nat>
    var drawn: Option<nat>
    ghost var out: seq<nat>

    ghost function View(): Factory
      reads this
    {
      Factory(last, queue, drawn, out)
    }

    /** Starts at a number and fills the queue. */
    constructor (first: nat, size: nat)
      requires first + size < TWO_64
      ensures Sound(View(), first) && last == first + size && |queue| == size && out == [] && drawn.None?
    {
      last, queue, drawn, out := first, [], None, [];
      new;
      var i := 0;
      while i < size
        invariant i <= size && last == first + i && |queue| == i && out == [] && drawn.None? && Sound(View(), first)
      {
        StepSound(View(), first, Draw);
        ghost var f := Step(View(), Draw);
        StepSound(f, first, Enqueue);
        last := last + 1;
        queue := queue + [last];
        i := i + 1;
      }
    }

    /** The next ready id, or one made on the spot when the queue has run dry. */
    method GetNext() returns (id: nat)
      requires last < TWO_64
      modifies this
      ensures View() == Step(old(View()), Get) && out == old(out) + [id]
    {
      if queue != [] {
        id := queue[0];
        queue := queue[1..];
      } else {
        last := (last + 1) % TWO_64;
        id := last;
      }
      out := out + [id];
    }

    method RefillDraw()
      modifies this
      ensures View() == Step(old(View()), Draw)
    {
      if drawn.None? {
        last := (last + 1) % TWO_64;
        drawn := Some(last);
      }
    }

    method RefillEnqueue()
      modifies this
      ensures View() == Step(old(View()), Enqueue)
    {
      if drawn.Some? {
        queue := queue + [drawn.value];
        drawn := None;
      }
    }
  }
}
