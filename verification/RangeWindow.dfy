/**
  The price-range window of the replay verifier: the recently traded prices of one instrument, sorted, within a range.
  The window is maintained trade by trade; it is shown to be a function of the trade history that mentions no window.
 */
module RangeWindow {
  import opened OrderTypes

  /** A trade, and a level of the window: a price with the volume traded at the bid and at the ask. */
  datatype Level = Level(price: int, bid: int, ask: int)

  function Add(a: Level, b: Level): Level {
    Level(a.price, a.bid + b.bid, a.ask + b.ask)
  }

  // ---------- the window, trade by trade ----------

  /** The first level at a price, or the length. */
  function FirstAt(w: seq<Level>, x: int): (k: nat)
    ensures k <= |w| && (k < |w| ==> w[k].price == x) && forall i :: 0 <= i < k ==> w[i].price != x
  {
    if w == [] || w[0].price == x then 0 else 1 + FirstAt(w[1..], x)
  }

  /** The first level above a price, or the length. */
  function FirstAbove(w: seq<Level>, x: int): (k: nat)
    ensures k <= |w| && (k < |w| ==> w[k].price > x) && forall i :: 0 <= i < k ==> w[i].price <= x
  {
    if w == [] || w[0].price > x then 0 else 1 + FirstAbove(w[1..], x)
  }

  function DropFront(w: seq<Level>, x: int, range: int): seq<Level> {
    if w != [] && x - w[0].price > range then DropFront(w[1..], x, range) else w
  }

  function DropBack(w: seq<Level>, x: int, range: int): seq<Level> {
    if w != [] && w[|w| - 1].price - x > range then DropBack(w[..|w| - 1], x, range) else w
  }

  /** A trade between the ends: more volume for its level, or a new level before the first higher one. */
  function Merge(w: seq<Level>, t: Level): seq<Level> {
    var k := FirstAt(w, t.price);
    if k < |w| then w[k := Add(w[k], t)] else
    var j := FirstAbove(w, t.price);
    if j < |w| then w[..j] + [t] + w[j..] else w
  }

  function Update(w: seq<Level>, t: Level, range: int): seq<Level> {
    if w == [] then [t]
    else if t.price > w[|w| - 1].price then DropFront(w + [t], t.price, range)
    else if t.price < w[0].price then DropBack([t] + w, t.price, range)
    else Merge(w, t)
  }

  function WindowOf(h: seq<Level>, range: int): seq<Level> {
    if h == [] then [] else Update(WindowOf(h[..|h| - 1], range), h[|h| - 1], range)
  }

  // ---------- the history behind it ----------

  predicate Close(a: int, b: int, range: int) {
    -range <= a - b <= range
  }

  /** The trades since the market was last out of range of a price. */
  function Near(h: seq<Level>, x: int, range: int): seq<Level> {
    if h == [] || !Close(h[|h| - 1].price, x, range) then [] else Near(h[..|h| - 1], x, range) + [h[|h| - 1]]
  }

  /** All trades at one price as a single level; none if there was no such trade. */
  function Total(h: seq<Level>, x: int): Option<Level> {
    if h == [] then None else Joined(Total(h[..|h| - 1], x), h[|h| - 1], x)
  }

  function Joined(o: Option<Level>, t: Level, x: int): Option<Level> {
    if t.price != x then o else if o.None? then Some(t) else Some(Add(o.value, t))
  }

  function Expected(h: seq<Level>, x: int, range: int): Option<Level> {
    Total(Near(h, x, range), x)
  }

  // ---------- sorted windows ----------

  function Lookup(w: seq<Level>, x: int): Option<Level> {
    if FirstAt(w, x) < |w| then Some(w[FirstAt(w, x)]) else None
  }

  predicate Ascending(w: seq<Level>) {
    forall i, j :: 0 <= i < j < |w| ==> w[i].price < w[j].price
  }

  predicate Spanned(w: seq<Level>, range: int) {
    w != [] ==> w[|w| - 1].price - w[0].price <= range
  }

  predicate Sorted(w: seq<Level>, range: int) {
    Ascending(w) && Spanned(w, range)
  }

  /** In a sorted window a level is found at its price. */
  lemma {:induction false} LookupAt(w: seq<Level>, k: nat)
    requires Ascending(w) && k < |w|
    ensures Lookup(w, w[k].price) == Some(w[k])
  {
    assert FirstAt(w, w[k].price) <= k;
  }

  lemma {:induction false} DropFrontKeeps(w: seq<Level>, x: int, range: int)
    requires Ascending(w) && w != [] && range >= 0 && w[|w| - 1].price == x
    ensures var d := DropFront(w, x, range);
            && d != [] && Sorted(d, range) && d[|d| - 1] == w[|w| - 1]
            && forall y :: Lookup(d, y) == if x - y > range then None else Lookup(w, y)
    decreases |w|
  {
    var d := DropFront(w, x, range);
    if x - w[0].price > range {
      DropFrontKeeps(w[1..], x, range);
    } else {
      forall y | x - y > range ensures Lookup(w, y) == None {
        assert forall k :: 0 <= k < |w| ==> w[0].price <= w[k].price;
      }
    }
  }

  lemma {:induction false} LookupInit(w: seq<Level>, y: int)
    requires Ascending(w) && w != []
    ensures Lookup(w[..|w| - 1], y) == if y == w[|w| - 1].price then None else Lookup(w, y)
  {
    var v := w[..|w| - 1];
    var k := FirstAt(v, y);
    if k < |v| {
      assert w[k] == v[k];
      LookupAt(w, k);
    } else if y == w[|w| - 1].price {
    } else {
      assert forall j :: 0 <= j < |v| ==> v[j] == w[j];
    }
  }

  lemma {:induction false} DropBackKeeps(w: seq<Level>, x: int, range: int)
    requires Ascending(w) && w != [] && range >= 0 && w[0].price == x
    ensures var d := DropBack(w, x, range);
            && d != [] && Sorted(d, range) && d[0] == w[0]
            && forall y :: Lookup(d, y) == if y - x > range then None else Lookup(w, y)
    decreases |w|
  {
    var d := DropBack(w, x, range);
    var last := w[|w| - 1];
    if last.price - x > range {
      DropBackKeeps(w[..|w| - 1], x, range);
      forall y ensures Lookup(d, y) == if y - x > range then None else Lookup(w, y) {
        LookupInit(w, y);
      }
    } else {
      forall y | y - x > range ensures Lookup(w, y) == None {
        assert forall k :: 0 <= k < |w| ==> w[k].price <= last.price;
      }
    }
  }

  lemma {:induction false} MergeKeeps(w: seq<Level>, t: Level, range: int)
    requires Sorted(w, range) && w != [] && w[0].price <= t.price <= w[|w| - 1].price
    ensures var m := Merge(w, t);
            && m != [] && Sorted(m, range)
            && forall y :: Lookup(m, y) == Joined(Lookup(w, y), t, y)
  {
    var k := FirstAt(w, t.price);
    if k < |w| {
      MergeFound(w, t, k);
    } else {
      MergeInserted(w, t);
    }
  }

  lemma {:induction false} MergeFound(w: seq<Level>, t: Level, k: nat)
    requires Ascending(w) && k < |w| && w[k].price == t.price
    ensures var m := w[k := Add(w[k], t)];
            && Ascending(m) && forall y :: Lookup(m, y) == Joined(Lookup(w, y), t, y)
  {
    var m := w[k := Add(w[k], t)];
    assert forall i :: 0 <= i < |w| ==> m[i].price == w[i].price;
    assert Ascending(m);
    LookupAt(w, k);
    LookupAt(m, k);
    forall y | y != t.price ensures Lookup(m, y) == Lookup(w, y) {
      var i := FirstAt(w, y);
      if i < |w| {
        LookupAt(w, i);
        LookupAt(m, i);
        assert m[i] == w[i];
      }
    }
  }

  lemma {:induction false} MergeInserted(w: seq<Level>, t: Level)
    requires Ascending(w) && w != [] && FirstAt(w, t.price) == |w| && w[0].price <= t.price <= w[|w| - 1].price
    ensures var j := FirstAbove(w, t.price);
            && 0 < j < |w|
            && Ascending(w[..j] + [t] + w[j..])
            && forall y :: Lookup(w[..j] + [t] + w[j..], y) == Joined(Lookup(w, y), t, y)
  {
    InsertLookup(w, t, FirstAbove(w, t.price));
  }

  lemma {:induction false} InsertLookup(w: seq<Level>, t: Level, j: nat)
    requires j <= |w| && FirstAt(w, t.price) == |w|
    requires var m := w[..j] + [t] + w[j..];
             Ascending(m) && forall i :: 0 <= i < |m| ==> m[i] == if i < j then w[i] else if i == j then t else w[i - 1]
    ensures forall y :: Lookup(w[..j] + [t] + w[j..], y) == Joined(Lookup(w, y), t, y)
  {
    hide Ascending;
    var m := w[..j] + [t] + w[j..];
    LookupAt(m, j);
    forall y | y != t.price ensures Lookup(m, y) == Lookup(w, y) {
      var i := FirstAt(w, y);
      if i < |w| {
        LookupAt(m, if i < j then i else i + 1);
      }
    }
  }

  lemma {:induction false} AppendKeeps(w: seq<Level>, t: Level)
    requires Ascending(w) && w != [] && t.price > w[|w| - 1].price
    ensures Ascending(w + [t]) && forall y :: Lookup(w + [t], y) == Joined(Lookup(w, y), t, y)
  {
    var m := w + [t];
    assert m[..|m| - 1] == w;
    LookupAt(m, |w|);
    forall y ensures Lookup(m, y) == Joined(Lookup(w, y), t, y) {
      LookupInit(m, y);
    }
  }

  lemma {:induction false} PrependKeeps(w: seq<Level>, t: Level)
    requires Ascending(w) && w != [] && t.price < w[0].price
    ensures Ascending([t] + w) && forall y :: Lookup([t] + w, y) == Joined(Lookup(w, y), t, y)
  {
    var m := [t] + w;
    assert m[1..] == w;
    assert forall i :: 0 <= i < |w| ==> w[0].price <= w[i].price;
    LookupAt(m, 0);
  }

  /** A trade forgets the levels out of its range and joins its own. */
  lemma {:induction false} UpdateLookup(w: seq<Level>, t: Level, range: int)
    requires Sorted(w, range) && range >= 0
    ensures var u := Update(w, t, range);
            && u != [] && Sorted(u, range)
            && forall y :: Lookup(u, y) == if Close(t.price, y, range) then Joined(Lookup(w, y), t, y) else None
  {
    hide DropFront, DropBack, Merge, Lookup, Joined;
    if w == [] {
      FirstTrade(t);
    } else if t.price > w[|w| - 1].price {
      AppendKeeps(w, t);
      DropFrontKeeps(w + [t], t.price, range);
      NotBeyond(w, t, range);
    } else if t.price < w[0].price {
      PrependKeeps(w, t);
      DropBackKeeps([t] + w, t.price, range);
      NotBeyond(w, t, range);
    } else {
      MergeKeeps(w, t, range);
      NotBeyond(w, t, range);
    }
  }

  lemma {:induction false} FirstTrade(t: Level)
    ensures forall y :: Lookup([t], y) == Joined(Lookup([], y), t, y)
    ensures forall y :: y != t.price ==> Joined(Lookup([], y), t, y) == None
  {
    LookupAt([t], 0);
  }

  /** No level lies above a trade beyond the top, or below a trade beyond the bottom; between them all are in range. */
  lemma {:induction false} NotBeyond(w: seq<Level>, t: Level, range: int)
    requires Sorted(w, range) && w != [] && range >= 0
    ensures forall y :: y > w[|w| - 1].price && y != t.price ==> Joined(Lookup(w, y), t, y) == None
    ensures forall y :: y < w[0].price && y != t.price ==> Joined(Lookup(w, y), t, y) == None
  {
    assert forall k :: 0 <= k < |w| ==> w[0].price <= w[k].price <= w[|w| - 1].price;
  }

  // ---------- the window is a function of the history ----------

  lemma {:induction false} ExpectedNext(h: seq<Level>, x: int, range: int)
    requires h != [] && range >= 0
    ensures var t := h[|h| - 1];
            Expected(h, x, range) == if Close(t.price, x, range) then Joined(Expected(h[..|h| - 1], x, range), t, x) else None
  {
    var t := h[|h| - 1];
    if Close(t.price, x, range) {
      var n := Near(h, x, range);
      assert n[..|n| - 1] == Near(h[..|h| - 1], x, range);
    }
  }

  /** After any trades each price has the level its history tells, and no other. */
  lemma {:induction false} WindowLookup(h: seq<Level>, range: int)
    requires range >= 0
    ensures var w := WindowOf(h, range);
            && Sorted(w, range) && (w == [] <==> h == [])
            && forall x :: Lookup(w, x) == Expected(h, x, range)
  {
    hide Update, Expected, Joined;
    if h == [] {
      NothingTraded(range);
    } else {
      var init, t := h[..|h| - 1], h[|h| - 1];
      WindowLookup(init, range);
      UpdateLookup(WindowOf(init, range), t, range);
      forall x ensures Lookup(WindowOf(h, range), x) == Expected(h, x, range) {
        ExpectedNext(h, x, range);
      }
    }
  }

  // ---------- plain sums ----------

  predicate Traded(h: seq<Level>, x: int) {
    exists i :: 0 <= i < |h| && h[i].price == x
  }

  /** The volume traded at a price at the bid, and at the ask. */
  function BidVolume(h: seq<Level>, x: int): int {
    if h == [] then 0 else BidVolume(h[..|h| - 1], x) + if h[|h| - 1].price == x then h[|h| - 1].bid else 0
  }

  function AskVolume(h: seq<Level>, x: int): int {
    if h == [] then 0 else AskVolume(h[..|h| - 1], x) + if h[|h| - 1].price == x then h[|h| - 1].ask else 0
  }

  lemma {:induction false} TotalIsSums(h: seq<Level>, x: int)
    ensures Total(h, x) == if Traded(h, x) then Some(Level(x, BidVolume(h, x), AskVolume(h, x))) else None
    ensures !Traded(h, x) ==> BidVolume(h, x) == 0 && AskVolume(h, x) == 0
  {
    if h != [] {
      var init := h[..|h| - 1];
      TotalIsSums(init, x);
      assert Traded(h, x) <==> Traded(init, x) || h[|h| - 1].price == x by {
        if Traded(init, x) {
          var i :| 0 <= i < |init| && init[i].price == x;
          assert h[i].price == x;
        }
        if Traded(h, x) && h[|h| - 1].price != x {
          var i :| 0 <= i < |h| && h[i].price == x;
          assert init[i].price == x;
        }
        assert h[|h| - 1].price == x ==> Traded(h, x);
      }
    }
  }

  /** A level of the window, in plain sums: what was traded at its price since the market was last out of its range. */
  ghost predicate LevelSums(h: seq<Level>, range: int, l: Level) {
    && Traded(Near(h, l.price, range), l.price)
    && l.bid == BidVolume(Near(h, l.price, range), l.price)
    && l.ask == AskVolume(Near(h, l.price, range), l.price)
  }

  /**
    After any trades: a price has a level exactly if it was traded since the market was last out of its range; the level's
    volumes are the plain sums of the bid and of the ask volumes of exactly those trades; the levels are strictly
    ascending and within the range, and there is one as soon as there was a trade.
   */
  lemma {:induction false} WindowOfHistory(h: seq<Level>, range: int)
    requires range >= 0
    ensures var w := WindowOf(h, range);
            && Sorted(w, range) && (w == [] <==> h == [])
            && (forall k :: 0 <= k < |w| ==> LevelSums(h, range, w[k]))
            && (forall x :: Traded(Near(h, x, range), x) ==> exists k :: 0 <= k < |w| && w[k].price == x)
  {
    hide Near, BidVolume, AskVolume, Total, WindowOf;
    WindowLookup(h, range);
    var w := WindowOf(h, range);
    forall k | 0 <= k < |w| ensures LevelSums(h, range, w[k]) {
      LookupAt(w, k);
      TotalIsSums(Near(h, w[k].price, range), w[k].price);
    }
    forall x | Traded(Near(h, x, range), x) ensures exists k :: 0 <= k < |w| && w[k].price == x {
      TotalIsSums(Near(h, x, range), x);
      assert Lookup(w, x).Some?;
      assert w[FirstAt(w, x)].price == x;
    }
  }

  lemma {:induction false} NothingTraded(range: int)
    ensures forall x :: Expected([], x, range) == None
  {
  }

  /** The last trade's price always has a level. */
  lemma {:induction false} LastTradeHasLevel(h: seq<Level>, range: int)
    requires h != [] && range >= 0
    ensures exists k :: 0 <= k < |WindowOf(h, range)| && WindowOf(h, range)[k].price == h[|h| - 1].price
  {
    var x := h[|h| - 1].price;
    WindowLookup(h, range);
    ExpectedNext(h, x, range);
    assert Lookup(WindowOf(h, range), x).Some?;
    var k := FirstAt(WindowOf(h, range), x);
    assert WindowOf(h, range)[k].price == x;
  }

  // ---------- the deque ----------

  class RangeDeque {
    const range: int
    var levels: seq<Level>

    constructor (range: int)
      ensures this.range == range && levels == []
    {
      this.range, levels := range, [];
    }

    /** One trade; a price beyond either end is a breakout, on which the strategy may trade. */
    method Trade(t: Level) returns (breakout: bool)
      requires Sorted(levels, range) && range > 0
      modifies this
      ensures levels == Update(old(levels), t, range) && Sorted(levels, range)
      ensures breakout <==> old(levels) != [] && !(old(levels)[0].price <= t.price <= old(levels)[|old(levels)| - 1].price)
    {
      hide Sorted;
      UpdateLookup(levels, t, range);
      breakout := false;
      if levels == [] {
        levels := [t];
      } else if t.price > levels[|levels| - 1].price {
        breakout := true;
        levels := levels + [t];
        PopFront(t.price);
      } else if t.price < levels[0].price {
        breakout := true;
        levels := [t] + levels;
        PopBack(t.price);
      } else {
        Insert(t);
      }
    }

    method PopFront(x: int)
      requires levels != [] && levels[|levels| - 1].price == x && range >= 0
      modifies this
      ensures levels == DropFront(old(levels), x, range)
    {
      while x - levels[0].price > range
        invariant levels != [] && levels[|levels| - 1].price == x
        invariant DropFront(levels, x, range) == DropFront(old(levels), x, range)
        decreases |levels|
      {
        levels := levels[1..];
      }
    }

    method PopBack(x: int)
      requires levels != [] && levels[0].price == x && range >= 0
      modifies this
      ensures levels == DropBack(old(levels), x, range)
    {
      while levels[|levels| - 1].price - x > range
        invariant levels != [] && levels[0].price == x
        invariant DropBack(levels, x, range) == DropBack(old(levels), x, range)
        decreases |levels|
      {
        levels := levels[..|levels| - 1];
      }
    }

    method Insert(t: Level)
      modifies this
      ensures levels == Merge(old(levels), t)
    {
      var found := false;
      var i := 0;
      while i < |levels| && !found
        invariant i <= |levels| == |old(levels)|
        invariant if found then 0 < i && FirstAt(old(levels), t.price) == i - 1 && levels == old(levels)[i - 1 := Add(old(levels)[i - 1], t)]
                  else levels == old(levels) && forall k :: 0 <= k < i ==> levels[k].price != t.price
        decreases |levels| - i
      {
        if levels[i].price == t.price {
          levels := levels[i := Add(levels[i], t)];
          found := true;
        }
        i := i + 1;
      }
      if !found {
        i := 0;
        while i < |levels|
          invariant i <= |levels|
          invariant levels == old(levels) && forall k :: 0 <= k < i ==> levels[k].price <= t.price
        {
          if levels[i].price > t.price {
            assert FirstAbove(levels, t.price) == i;
            levels := levels[..i] + [t] + levels[i..];
            break;
          }
          i := i + 1;
        }
      }
    }
  }
}
