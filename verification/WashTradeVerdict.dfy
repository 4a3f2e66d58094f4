/**
  The verdict of the wash-trade check, in terms of prices and quotes: the first listed order that crosses decides, and
  with quotes in use it only lets through what is away from the market.
 */
module WashTradeVerdict {
  import opened OrderTypes
  import opened Pipeline
  import opened WashTrade

  /** The list an order is checked against. */
  function OppositeList(s: State, t: Terms): seq<OrderRef> {
    if t.side == Buy then ListsAt(s, t.instrument).sells else ListsAt(s, t.instrument).buys
  }

  /**
    An order strictly worse than the last trade and than its own side's best quote, all three being valid prices. While it
    modifies to a more aggressive price, that price is the one that counts.
   */
  predicate Away(x: Order, q: Quote) {
    match x.terms.side
    case Buy =>
      var p := if x.state == Modifying && x.newPrice > x.price then x.newPrice else x.price;
      ValidTicks(p) && ValidTicks(q.trade) && ValidTicks(q.bid) && p < q.trade && p < q.bid
    case Sell =>
      var p := if x.state == Modifying && x.newPrice < x.price then x.newPrice else x.price;
      ValidTicks(p) && ValidTicks(q.trade) && ValidTicks(q.ask) && q.trade < p && q.ask < p
    case NoSide => false
  }

  lemma {:induction false} OverrideIsAway(config: Config, q: Quote, x: Order)
    ensures QuoteOverride(config, q, x) <==> config.useQuotes && Away(x, q)
  {
  }

  /** The first order not dead on the opposite list that crosses the price. */
  function FirstMet(s: State, t: Terms, price: Ticks): Option<OrderRef>
    requires ListsKnown(s)
  {
    FirstCrossing(s.orders, Alive(s.orders, OppositeList(s, t)), t.side, price)
  }

  /** The price meets nothing listed, or first an order that is away while quotes are in use. */
  predicate Passes(s: State, t: Terms, price: Ticks, q: Quote)
    requires ListsKnown(s)
  {
    t.stopLoss || FirstMet(s, t, price).None? || (s.config.useQuotes && Away(s.orders[FirstMet(s, t, price).value], q))
  }

  /** The check refuses, and calls it a wash trade, if and only if the price does not pass. */
  lemma {:induction false} VerdictExact(s: State, ref: OrderRef, price: Ticks, q: Quote)
    requires Known(s, ref) && ListsKnown(s)
    ensures CanSend(s, ref, price, q).1 == if Passes(s, s.orders[ref].terms, price, q) then None else Some(Reject(true, WashTrade))
  {
    hide Scan, Away, QuoteOverride, Crossing;
    var t := s.orders[ref].terms;
    ScanRefinesEager(s.orders, OppositeList(s, t), t.side, price);
    var f := FirstMet(s, t, price);
    if f.Some? {
      OverrideIsAway(s.config, q, s.orders[f.value]);
    }
  }

  /** With quotes in use or not: a first crossing buy at or above the bid or the last trade, or an invalid quote, always refuses. */
  lemma {:induction false} BestBuyRefused(s: State, ref: OrderRef, price: Ticks, q: Quote)
    requires Known(s, ref) && ListsKnown(s) && !s.orders[ref].terms.stopLoss && FirstMet(s, s.orders[ref].terms, price).Some?
    requires var x := s.orders[FirstMet(s, s.orders[ref].terms, price).value];
             && x.terms.side == Buy
             && (x.price >= q.bid || x.price >= q.trade || !ValidTicks(q.bid) || !ValidTicks(q.trade))
    ensures CanSend(s, ref, price, q).1 == Some(Reject(true, WashTrade))
  {
    hide CanSend, FirstMet;
    VerdictExact(s, ref, price, q);
  }

  /** The same for a first crossing sell at or below the ask or the last trade. */
  lemma {:induction false} BestSellRefused(s: State, ref: OrderRef, price: Ticks, q: Quote)
    requires Known(s, ref) && ListsKnown(s) && !s.orders[ref].terms.stopLoss && FirstMet(s, s.orders[ref].terms, price).Some?
    requires var x := s.orders[FirstMet(s, s.orders[ref].terms, price).value];
             && x.terms.side == Sell
             && (x.price <= q.ask || x.price <= q.trade || !ValidTicks(q.ask) || !ValidTicks(q.trade))
    ensures CanSend(s, ref, price, q).1 == Some(Reject(true, WashTrade))
  {
    hide CanSend, FirstMet;
    VerdictExact(s, ref, price, q);
  }

  /** Only the first crossing order is looked at: behind one that is away, another at the best quote goes unseen. */
  lemma {:induction false} SecondAtBestUnseen(s: State, ref: OrderRef, first: OrderRef, second: OrderRef, q: Quote)
    requires Known(s, ref) && ListsKnown(s) && Known(s, first) && Known(s, second) && s.config.useQuotes
    requires var o, f, g := s.orders[ref], s.orders[first], s.orders[second];
             && o.terms.side == Sell && !o.terms.stopLoss && ListsAt(s, o.terms.instrument).buys == [first, second]
             && f.state == Working && g.state == Working && f.terms.side == Buy && g.terms.side == Buy
             && ValidTicks(f.price) && ValidTicks(g.price) && ValidTicks(q.trade) && ValidTicks(q.bid)
             && o.price <= f.price < q.bid == g.price < q.trade
    ensures CanSend(s, ref, s.orders[ref].price, q).1.None? && Crossing(s.orders[second], Sell, s.orders[ref].price) && !Away(s.orders[second], q)
  {
    var t := s.orders[ref].terms;
    var list := OppositeList(s, t);
    assert list[0] == first;
    assert Alive(s.orders, list) == [first] + Alive(s.orders, list[1..]);
    assert FirstMet(s, t, s.orders[ref].price) == Some(first);
    VerdictExact(s, ref, s.orders[ref].price, q);
  }
}
