/**
  The trailing stop of a filled entry: every full profit step the market has moved slides the stop one step behind it.
  The slide is found by counting steps one at a time; it is a floor division and depends only on the best quote seen.
 */
module TrailingStop {
  import opened OrderTypes

  /** Profit step and payup of the slide, in ticks. */
  datatype SlideParams = SlideParams(step: int, payup: int)

  datatype TopOfBook = TopOfBook(bid: int, ask: int)

  function Max(a: int, b: int): int {
    if a < b then b else a
  }

  // ---------- closed form ----------

  /** Where the stop of a long stands for a bid: one step behind the last full step of profit, never lower than before. */
  function SlideUp(p: SlideParams, fill: int, stop: int, bid: int): int
    requires p.step > 0
  {
    var n := (bid - fill) / p.step;
    if n >= 1 then Max(stop, fill + (n - 1) * p.step + p.payup) else stop
  }

  /** The mirror image, for a short on the ask. */
  function SlideDown(p: SlideParams, fill: int, stop: int, ask: int): int
    requires p.step > 0
  {
    -SlideUp(p, -fill, -stop, -ask)
  }

  function Slide(p: SlideParams, exit: Side, fill: int, stop: int, q: TopOfBook): int
    requires p.step > 0
  {
    match exit
    case Sell => SlideUp(p, fill, stop, q.bid)
    case Buy => SlideDown(p, fill, stop, q.ask)
    case NoSide => stop
  }

  /** The counting loop stops at all: a positive step, or a first test that already fails. */
  predicate Terminates(p: SlideParams, exit: Side, fill: int, q: TopOfBook) {
    p.step > 0
    || match exit
       case Sell => fill + p.step > q.bid
       case Buy => fill - p.step < q.ask
       case NoSide => true
  }

  /** The test of the counting loop, after `sub` steps. */
  predicate Counting(p: SlideParams, exit: Side, fill: int, q: TopOfBook, sub: nat) {
    match exit
    case Sell => fill + (sub + 1) * p.step <= q.bid
    case Buy => fill - (sub + 1) * p.step >= q.ask
    case NoSide => false
  }

  /** The counting loop ends if and only if the step is positive or its first test fails; otherwise it counts for ever. */
  lemma {:induction false} TerminatesIff(p: SlideParams, exit: Side, fill: int, q: TopOfBook)
    ensures Terminates(p, exit, fill, q) <==> exists sub: nat :: !Counting(p, exit, fill, q, sub)
  {
    if p.step > 0 {
      var d := if exit == Sell then q.bid - fill else fill - q.ask;
      var n: nat := if d > 0 then d else 0;
      Scaled(1, p.step, n + 1);
      assert !Counting(p, exit, fill, q, n);
    } else if Terminates(p, exit, fill, q) {
      assert !Counting(p, exit, fill, q, 0);
    } else {
      forall sub: nat ensures Counting(p, exit, fill, q, sub) {
        assert (sub + 1) * p.step == p.step + sub * p.step;
        assert sub * p.step <= 0;
      }
    }
  }

  /** m steps fit and one more does not: m is the floor quotient. */
  lemma {:induction false} CountIsQuotient(d: int, step: int, m: int)
    requires step > 0 && m * step <= d < (m + 1) * step
    ensures d / step == m
  {
    var q := d / step;
    assert q * step <= d < q * step + step;
    Scaled(q + 1, m, step);
    Scaled(m + 1, q, step);
  }

  lemma {:induction false} Scaled(a: int, b: int, step: int)
    requires step > 0
    ensures a <= b ==> a * step <= b * step
  {
  }

  /** A higher bid never gives a lower stop. */
  lemma {:induction false} QuotientMonotone(a: int, b: int, step: int)
    requires step > 0 && a <= b
    ensures a / step <= b / step
  {
    var x, y := a / step, b / step;
    assert x * step <= a && b < y * step + step;
    Scaled(y + 1, x, step);
  }

  /** Two slides in a row are one slide at the higher bid, in whichever order the bids came. */
  lemma {:induction false} SlideTwice(p: SlideParams, fill: int, stop: int, a: int, b: int)
    requires p.step > 0
    ensures SlideUp(p, fill, SlideUp(p, fill, stop, a), b) == SlideUp(p, fill, stop, Max(a, b))
    ensures stop <= SlideUp(p, fill, stop, a)
  {
    var lo, hi := if a <= b then a else b, Max(a, b);
    QuotientMonotone(lo - fill, hi - fill, p.step);
    var x, y := (lo - fill) / p.step, (hi - fill) / p.step;
    Scaled(x - 1, y - 1, p.step);
  }

  /**
    Where a stop is moved to, in whole steps: with m + 1 steps of profit but not m + 2, to m steps beyond the fill and the
    payup, unless it is there already or further; with less than one step it stays. So a moved stop trails the quote by at
    least one and less than two steps, less the payup.
   */
  lemma {:induction false} SlideInSteps(p: SlideParams, fill: int, stop: int, quote: int, m: nat)
    requires p.step > 0
    ensures quote - fill < p.step ==> SlideUp(p, fill, stop, quote) == stop
    ensures (m + 1) * p.step <= quote - fill < (m + 2) * p.step ==>
              SlideUp(p, fill, stop, quote) == if stop < fill + m * p.step + p.payup then fill + m * p.step + p.payup else stop
    ensures fill - quote < p.step ==> SlideDown(p, fill, stop, quote) == stop
    ensures (m + 1) * p.step <= fill - quote < (m + 2) * p.step ==>
              SlideDown(p, fill, stop, quote) == if stop > fill - m * p.step - p.payup then fill - m * p.step - p.payup else stop
  {
    StepsOf(quote - fill, p.step, m);
    StepsOf(fill - quote, p.step, m);
  }

  lemma {:induction false} StepsOf(d: int, step: int, m: nat)
    requires step > 0
    ensures d < step ==> d / step < 1
    ensures (m + 1) * step <= d < (m + 2) * step ==> d / step == m + 1
  {
    if (m + 1) * step <= d < (m + 2) * step {
      CountIsQuotient(d, step, m + 1);
    }
    if d < step {
      QuotientMonotone(d, step - 1, step);
    }
  }

  /** A moved stop trails the best quote by at least one step and less than two, less the payup. */
  lemma {:induction false} MovedStopTrails(p: SlideParams, fill: int, stop: int, q: TopOfBook)
    requires p.step > 0
    ensures var r := Slide(p, Sell, fill, stop, q);
            r != stop ==> stop < r && q.bid - 2 * p.step < r - p.payup <= q.bid - p.step
    ensures var r := Slide(p, Buy, fill, stop, q);
            r != stop ==> r < stop && q.ask + p.step <= r + p.payup < q.ask + 2 * p.step
  {
    var n, k := (q.bid - fill) / p.step, (fill - q.ask) / p.step;
    assert n * p.step <= q.bid - fill < n * p.step + p.step;
    assert k * p.step <= fill - q.ask < k * p.step + p.step;
    assert (n - 1) * p.step == n * p.step - p.step && (k - 1) * p.step == k * p.step - p.step;
  }

  // ---------- runs of quotes ----------

  function SlideAll(p: SlideParams, exit: Side, fill: int, stop: int, qs: seq<TopOfBook>): int
    requires p.step > 0
  {
    if qs == [] then stop else Slide(p, exit, fill, SlideAll(p, exit, fill, stop, qs[..|qs| - 1]), qs[|qs| - 1])
  }

  function HighBid(qs: seq<TopOfBook>): int
    requires qs != []
  {
    if |qs| == 1 then qs[0].bid else Max(HighBid(qs[..|qs| - 1]), qs[|qs| - 1].bid)
  }

  function LowAsk(qs: seq<TopOfBook>): int
    requires qs != []
  {
    if |qs| == 1 then qs[0].ask else -Max(-LowAsk(qs[..|qs| - 1]), -qs[|qs| - 1].ask)
  }

  /** The best quote of the run, as the exit side sees it. */
  function Best(qs: seq<TopOfBook>): TopOfBook
    requires qs != []
  {
    TopOfBook(HighBid(qs), LowAsk(qs))
  }

  lemma {:induction false} BestIsBest(qs: seq<TopOfBook>)
    requires qs != []
    ensures forall i :: 0 <= i < |qs| ==> qs[i].bid <= Best(qs).bid && Best(qs).ask <= qs[i].ask
    ensures exists i :: 0 <= i < |qs| && qs[i].bid == Best(qs).bid
    ensures exists i :: 0 <= i < |qs| && qs[i].ask == Best(qs).ask
  {
    if |qs| == 1 {
      assert qs[0].bid == Best(qs).bid && qs[0].ask == Best(qs).ask;
    } else {
      var init := qs[..|qs| - 1];
      BestIsBest(init);
      var i :| 0 <= i < |init| && init[i].bid == Best(init).bid;
      var j :| 0 <= j < |init| && init[j].ask == Best(init).ask;
      assert qs[i].bid == Best(init).bid && qs[j].ask == Best(init).ask;
      assert qs[|qs| - 1].bid == Best(qs).bid || qs[i].bid == Best(qs).bid;
      assert qs[|qs| - 1].ask == Best(qs).ask || qs[j].ask == Best(qs).ask;
      forall k | 0 <= k < |qs| ensures qs[k].bid <= Best(qs).bid && Best(qs).ask <= qs[k].ask {
        if k < |init| { assert init[k] == qs[k]; }
      }
    }
  }

  /** The stop is a high-water mark: over any run of quotes it is one slide at the best quote, and never retreats. */
  lemma {:induction false} HighWaterMark(p: SlideParams, exit: Side, fill: int, stop: int, qs: seq<TopOfBook>)
    requires p.step > 0 && qs != []
    ensures SlideAll(p, exit, fill, stop, qs) == Slide(p, exit, fill, stop, Best(qs))
    ensures exit == Sell ==> stop <= SlideAll(p, exit, fill, stop, qs)
    ensures exit == Buy ==> SlideAll(p, exit, fill, stop, qs) <= stop
  {
    hide SlideUp;
    var last := qs[|qs| - 1];
    var init := qs[..|qs| - 1];
    if init == [] {
      SlideTwice(p, fill, stop, last.bid, last.bid);
      SlideTwice(p, -fill, -stop, -last.ask, -last.ask);
    } else {
      HighWaterMark(p, exit, fill, stop, init);
      SlideTwice(p, fill, stop, HighBid(init), last.bid);
      SlideTwice(p, -fill, -stop, -LowAsk(init), -last.ask);
      SlideTwice(p, fill, stop, HighBid(qs), last.bid);
      SlideTwice(p, -fill, -stop, -LowAsk(qs), -last.ask);
    }
  }

  // ---------- the counting loop ----------

  /** One entry fill with its exit side and stop level. */
  class FillInfo {
    const exit: Side
    const fill: int
    var stop: int

    constructor (exit: Side, fill: int, stop: int)
      ensures this.exit == exit && this.fill == fill && this.stop == stop
    {
      this.exit, this.fill, this.stop := exit, fill, stop;
    }

    method ProcessSlides(p: SlideParams, q: TopOfBook)
      requires Terminates(p, exit, fill, q)
      modifies this
      ensures stop == if p.step > 0 then Slide(p, exit, fill, old(stop), q) else old(stop)
    {
      match exit {
        case Buy =>
          var sub := CountSteps(p.step, -fill, -q.ask);
          if sub > 0 { sub := sub - 1; }
          if fill - (sub + 1) * p.step >= q.ask {
            if stop > fill - sub * p.step - p.payup {
              stop := fill - sub * p.step - p.payup;
            }
          }
        case Sell =>
          var sub := CountSteps(p.step, fill, q.bid);
          if sub > 0 { sub := sub - 1; }
          if fill + (sub + 1) * p.step <= q.bid {
            if stop < fill + sub * p.step + p.payup {
              stop := fill + sub * p.step + p.payup;
            }
          }
        case NoSide =>
      }
    }
  }

  /** How many full steps the market is beyond the fill, counted one at a time. */
  method CountSteps(step: int, fill: int, price: int) returns (sub: nat)
    requires step > 0 || fill + step > price
    ensures fill + (sub + 1) * step > price
    ensures sub > 0 ==> step > 0 && fill + sub * step <= price && sub == (price - fill) / step
    ensures sub == 0 && step > 0 ==> (price - fill) / step <= 0
  {
    sub := 0;
    while fill + (sub + 1) * step <= price
      invariant sub > 0 ==> step > 0 && fill + sub * step <= price
      decreases price - fill - sub * step
    {
      assert (sub + 1) * step == sub * step + step;
      sub := sub + 1;
    }
    if sub > 0 {
      CountIsQuotient(price - fill, step, sub);
    } else if step > 0 {
      QuotientMonotone(price - fill, step - 1, step);
    }
  }
}
