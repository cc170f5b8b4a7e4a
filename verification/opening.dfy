/** What the opening orders of a pair look like on the exchange
    (strategies/src/arbitrage/perp_perp/execution.rs, decider.rs). */
module OpeningOrders {
  import opened Types
  import opened ArbitrageTypes
  import opened PerpPair
  import opened Decider
  import opened Execution

  /** A post-only order of `leg` that joins its own side of the book, so that as long as the book is
      not crossed it cannot take the other side. */
  predicate Joins(leg: PerpLeg, q: OrderRequest) {
    && q.key == leg.key && q.orderType == Limit && q.postOnly && !q.reduceOnly && q.size > 0.0
    && q.price == Some((if q.side == Buy then leg.bestBid else leg.bestAsk).UnwrapOr(leg.currentPrice))
    && (leg.bestBid.Some? && leg.bestAsk.Some? && leg.bestBid.value < leg.bestAsk.value ==>
          if q.side == Buy then q.price.value < leg.bestAsk.value else q.price.value > leg.bestBid.value)
  }

  /** Buys the long leg, sells the short leg. */
  predicate Hedged(action: DeciderAction) {
    (action.Enter? || action.Recover?) && action.sizeLong >= 0.0 >= action.sizeShort
  }

  predicate IsFor(leg: PerpLeg, size: real, q: OrderRequest) {
    Joins(leg, q) && q.size == Abs(size) && q.side == (if size > 0.0 then Buy else Sell)
  }

  /** Entries, recoveries and rebalances only ever rest on their own side of the book: first the order of
      the long leg, then that of the short leg, each if it has something to do, of the decided size and
      direction. The second is missing only if the first was refused. */
  lemma OpeningOrdersJoin(action: DeciderAction, p: Pair, r: Replies)
    requires Hedged(action) || action.Rebalance?
    ensures var sent := Execute(action, p, r).sent;
            var first := if action.sizeLong != 0.0 then 1 else 0;
            var both := first + if action.sizeShort != 0.0 then 1 else 0;
            && |sent| == (if first == 1 && r.longReply.Refused? then 1 else both)
            && (first == 1 ==> IsFor(p.longLeg, action.sizeLong, sent[0].request))
            && (|sent| > first ==> IsFor(p.shortLeg, action.sizeShort, sent[first].request))
  {
    var sl, ss := action.sizeLong, action.sizeShort;
    var long := Sent(p.longLeg.key, LegOrder(sl, Some(RebalancePrice(p.longLeg, sl))), false, r.longReply);
    var short := Sent(p.shortLeg.key, LegOrder(ss, Some(RebalancePrice(p.shortLeg, ss))), false, r.shortReply);
    var sent := Execute(action, p, r).sent;
    assert sent == if Failed(LegOrder(sl, None), r.longReply) then long else long + short;
  }

  /** Both ways of entering a leg decide on such sizes when the prices they use are positive. */
  lemma EntriesAreHedged(d: PerpPerpDecider, p: Pair)
    requires d.targetNotional >= 0.0 && p.longLeg.currentPrice > 0.0 && p.shortLeg.currentPrice > 0.0
    requires p.EntryPrices().0 > 0.0 && p.EntryPrices().1 > 0.0
    ensures d.Evaluate(p).Enter? ==> Hedged(d.Evaluate(p))
    ensures p.RecoverAction().Some? ==> Hedged(p.RecoverAction().value)
  {
    var lp, sp := p.longLeg.currentPrice, p.shortLeg.currentPrice;
    var (le, se) := p.EntryPrices();
    NonNegativeQuotient(d.targetNotional, lp);
    NonNegativeQuotient(d.targetNotional, sp);
    MissingLegIsHedged(p, lp, sp);
    MissingLegIsHedged(p, le, se);
  }

  lemma MissingLegIsHedged(p: Pair, longPrice: real, shortPrice: real)
    requires longPrice > 0.0 && shortPrice > 0.0
    ensures var sizes := p.MissingLegSizes(longPrice, shortPrice);
            sizes.Some? ==> sizes.value.0 >= 0.0 >= sizes.value.1
  {}

  lemma NonNegativeQuotient(x: real, y: real)
    requires x >= 0.0 && y > 0.0
    ensures x / y >= 0.0
  {}
}
