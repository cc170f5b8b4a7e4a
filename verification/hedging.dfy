/** What the decided orders do to the hedge once they are filled (strategies/src/arbitrage/perp_perp/
    decider.rs and types.rs). The order manager floors every size to the lot (core/src/manager/order.rs),
    so a filled order moves the position by the floored size. */
module Hedging {
  import opened Types
  import opened Instruments
  import opened ArbitrageTypes
  import opened PerpPair
  import opened Decider

  /** The instruments of the two legs. */
  datatype Contracts = Contracts(long: Instrument, short: Instrument) {
    predicate Valid() {
      long.Valid() && short.Valid()
    }
  }

  /** The pair after both orders of an action are filled in full and their positions reported. */
  function Filled(c: Contracts, p: Pair, sizeLong: real, sizeShort: real): Pair
    requires c.Valid()
  {
    p.(longLeg := p.longLeg.(positionSize := p.longLeg.positionSize + FilledAmount(c.long, sizeLong)),
       shortLeg := p.shortLeg.(positionSize := p.shortLeg.positionSize + FilledAmount(c.short, sizeShort)))
    .MaybeActivated()
  }

  /** The notional that the flooring takes off an order at a given price. */
  function Lost(i: Instrument, size: real, price: real): real
    requires i.Valid()
  {
    Remainder(i, size) * price
  }

  predicate WholeLots(c: Contracts, sizeLong: real, sizeShort: real)
    requires c.Valid()
  {
    Remainder(c.long, sizeLong) == 0.0 && Remainder(c.short, sizeShort) == 0.0
  }

  lemma WholeLotsMeans(c: Contracts, sizeLong: real, sizeShort: real)
    requires c.Valid()
    ensures WholeLots(c, sizeLong, sizeShort) <==>
            IsMultiple(sizeLong, c.long.lotSize) && IsMultiple(sizeShort, c.short.lotSize)
  {
    RemainderBelowOneLot(c.long, sizeLong);
    RemainderBelowOneLot(c.short, sizeShort);
  }

  predicate Priced(p: Pair) {
    p.longLeg.currentPrice > 0.0 && p.shortLeg.currentPrice > 0.0
  }

  /** Exposure of the two legs at given prices. */
  function DeltaAt(p: Pair, longPrice: real, shortPrice: real): real {
    p.longLeg.positionSize * longPrice + p.shortLeg.positionSize * shortPrice
  }

  // ---- arithmetic -----------------------------------------------------------------------------------

  /** What is lost has the direction of the order and is worth less than a lot. */
  lemma LostIsSmall(i: Instrument, size: real, price: real)
    requires i.Valid() && price > 0.0
    ensures Within(Lost(i, size, price), size * price) && Abs(Lost(i, size, price)) < i.lotSize * price
  {
    RemainderBelowOneLot(i, size);
    ScaledWithin(Remainder(i, size), size, price);
    WorthBelow(Remainder(i, size), i.lotSize, price);
  }

  lemma LostNothingIff(i: Instrument, size: real, price: real)
    requires i.Valid() && price > 0.0
    ensures Lost(i, size, price) == 0.0 <==> Remainder(i, size) == 0.0
  {}

  lemma FilledNothingIff(i: Instrument, size: real, price: real)
    requires i.Valid() && price > 0.0
    ensures FilledAmount(i, size) == 0.0 <==> Abs(size * price) < i.lotSize * price
  {
    RemainderBelowOneLot(i, size);
    WorthBelow(size, i.lotSize, price);
  }

  lemma FilledNothingOf(i: Instrument, size: real, price: real, worth: real)
    requires i.Valid() && price > 0.0 && size * price == worth
    ensures FilledAmount(i, size) == 0.0 <==> Abs(worth) < i.lotSize * price
  {
    FilledNothingIff(i, size, price);
  }

  lemma LostOf(i: Instrument, size: real, price: real, worth: real)
    requires i.Valid() && price > 0.0 && size * price == worth
    ensures Within(Lost(i, size, price), worth) && Abs(Lost(i, size, price)) < i.lotSize * price
  {
    LostIsSmall(i, size, price);
  }

  lemma WorthBelow(size: real, lot: real, price: real)
    requires price > 0.0
    ensures Abs(size) < lot <==> Abs(size * price) < lot * price
  {
    assert Abs(size * price) == Abs(size) * price;
    ScaleOrder(lot, Abs(size), price);
  }

  lemma ScaledWithin(x: real, bound: real, k: real)
    requires k > 0.0 && Within(x, bound)
    ensures Within(x * k, bound * k)
  {
    ScaleOrder(0.0, x, k);
    ScaleOrder(x, 0.0, k);
    ScaleOrder(x, bound, k);
    ScaleOrder(bound, x, k);
  }

  lemma QuotientTimes(x: real, y: real)
    requires y != 0.0
    ensures x / y * y == x
  {}

  lemma FilledWorth(i: Instrument, size: real, price: real)
    requires i.Valid()
    ensures FilledAmount(i, size) * price == size * price - Lost(i, size, price)
  {}

  lemma DeltaAfterFill(c: Contracts, p: Pair, sl: real, ss: real, lp: real, sp: real)
    requires c.Valid()
    ensures DeltaAt(Filled(c, p, sl, ss), lp, sp) ==
            DeltaAt(p, lp, sp) + sl * lp + ss * sp - Lost(c.long, sl, lp) - Lost(c.short, ss, sp)
  {
    FilledWorth(c.long, sl, lp);
    FilledWorth(c.short, ss, sp);
    var l, s := p.longLeg.positionSize, p.shortLeg.positionSize;
    assert (l + FilledAmount(c.long, sl)) * lp == l * lp + FilledAmount(c.long, sl) * lp;
    assert (s + FilledAmount(c.short, ss)) * sp == s * sp + FilledAmount(c.short, ss) * sp;
  }

  // ---- rebalancing ----------------------------------------------------------------------------------

  lemma RebalanceSizes(d: PerpPerpDecider, p: Pair)
    requires d.Evaluate(p).Rebalance?
    ensures d.Evaluate(p).sizeLong * p.longLeg.currentPrice == -(p.TotalDelta() / 2.0)
    ensures d.Evaluate(p).sizeShort * p.shortLeg.currentPrice == -(p.TotalDelta() / 2.0)
  {
    QuotientTimes(-(p.TotalDelta() / 2.0), p.longLeg.currentPrice);
    QuotientTimes(-(p.TotalDelta() / 2.0), p.shortLeg.currentPrice);
  }

  /** Two corrections that are each worth `worth`, seen apart from the decision. */
  lemma CorrectedDelta(c: Contracts, p: Pair, sl: real, ss: real, lp: real, sp: real, worth: real)
    requires c.Valid() && sl * lp == worth && ss * sp == worth && DeltaAt(p, lp, sp) == -2.0 * worth
    ensures DeltaAt(Filled(c, p, sl, ss), lp, sp) == -(Lost(c.long, sl, lp) + Lost(c.short, ss, sp))
  {
    DeltaAfterFill(c, p, sl, ss, lp, sp);
  }

  lemma RebalanceDelta(d: PerpPerpDecider, c: Contracts, p: Pair)
    requires c.Valid() && d.Evaluate(p).Rebalance?
    ensures var a := d.Evaluate(p);
            var lp, sp := p.longLeg.currentPrice, p.shortLeg.currentPrice;
            Filled(c, p, a.sizeLong, a.sizeShort).TotalDelta() ==
            -(Lost(c.long, a.sizeLong, lp) + Lost(c.short, a.sizeShort, sp))
  {
    var a := d.Evaluate(p);
    RebalanceSizes(d, p);
    CorrectedDelta(c, p, a.sizeLong, a.sizeShort, p.longLeg.currentPrice, p.shortLeg.currentPrice,
                   -(p.TotalDelta() / 2.0));
    SamePrices(c, p, a.sizeLong, a.sizeShort);
  }

  /** Corrections of one and the same worth lose in the same direction. */
  lemma CorrectionLosses(c: Contracts, sl: real, ss: real, lp: real, sp: real)
    requires c.Valid() && lp > 0.0 && sp > 0.0 && sl * lp == ss * sp
    ensures var lost := Lost(c.long, sl, lp) + Lost(c.short, ss, sp);
            && Abs(lost) < c.long.lotSize * lp + c.short.lotSize * sp
            && (lost == 0.0 <==> WholeLots(c, sl, ss))
  {
    LostIsSmall(c.long, sl, lp);
    LostIsSmall(c.short, ss, sp);
    LostNothingIff(c.long, sl, lp);
    LostNothingIff(c.short, ss, sp);
    SameDirectionSum(Lost(c.long, sl, lp), Lost(c.short, ss, sp), sl * lp, c.long.lotSize * lp, c.short.lotSize * sp);
  }

  /** After a rebalance only the drift decides. */
  lemma RestsIffDriftSmall(d: PerpPerpDecider, c: Contracts, p: Pair, sl: real, ss: real)
    requires c.Valid() && p.status.Active? && p.FundingSpread() >= d.ExitLevel()
    requires p.longLeg.currentPrice != 0.0 && p.shortLeg.currentPrice != 0.0
    ensures var q := Filled(c, p, sl, ss);
            d.Evaluate(q) == DoNothing <==> Abs(q.TotalDelta()) <= d.DriftLimit()
  {}

  /** A filled rebalance leaves less delta than a lot of each leg is worth, and none exactly if both
      corrections are whole lots. The decider then rests at the same prices and spread exactly if what the
      flooring left does not exceed the drift limit. */
  lemma RebalanceLeavesRemainders(d: PerpPerpDecider, c: Contracts, p: Pair)
    requires c.Valid() && d.Evaluate(p).Rebalance? && Priced(p)
    ensures var a := d.Evaluate(p);
            var lp, sp := p.longLeg.currentPrice, p.shortLeg.currentPrice;
            var q := Filled(c, p, a.sizeLong, a.sizeShort);
            && Abs(q.TotalDelta()) < c.long.lotSize * lp + c.short.lotSize * sp
            && (q.TotalDelta() == 0.0 <==> WholeLots(c, a.sizeLong, a.sizeShort))
            && (d.Evaluate(q) == DoNothing <==>
                Abs(Lost(c.long, a.sizeLong, lp) + Lost(c.short, a.sizeShort, sp)) <= d.DriftLimit())
  {
    RebalanceSizes(d, p);
    CorrectionsLeave(d, c, p, d.Evaluate(p).sizeLong, d.Evaluate(p).sizeShort, -(p.TotalDelta() / 2.0));
  }

  lemma CorrectionsLeave(d: PerpPerpDecider, c: Contracts, p: Pair, sl: real, ss: real, worth: real)
    requires c.Valid() && Priced(p) && p.status.Active? && p.FundingSpread() >= d.ExitLevel()
    requires sl * p.longLeg.currentPrice == worth && ss * p.shortLeg.currentPrice == worth
    requires p.TotalDelta() == -2.0 * worth
    ensures var lp, sp := p.longLeg.currentPrice, p.shortLeg.currentPrice;
            var q := Filled(c, p, sl, ss);
            && Abs(q.TotalDelta()) < c.long.lotSize * lp + c.short.lotSize * sp
            && (q.TotalDelta() == 0.0 <==> WholeLots(c, sl, ss))
            && (d.Evaluate(q) == DoNothing <==> Abs(Lost(c.long, sl, lp) + Lost(c.short, ss, sp)) <= d.DriftLimit())
  {
    var lp, sp := p.longLeg.currentPrice, p.shortLeg.currentPrice;
    CorrectedDelta(c, p, sl, ss, lp, sp, worth);
    SamePrices(c, p, sl, ss);
    CorrectionLosses(c, sl, ss, lp, sp);
    RestsIffDriftSmall(d, c, p, sl, ss);
  }

  lemma SameDirectionSum(x: real, y: real, bound: real, xLimit: real, yLimit: real)
    requires Within(x, bound) && Within(y, bound) && Abs(x) < xLimit && Abs(y) < yLimit
    ensures Abs(x + y) < xLimit + yLimit && (x + y == 0.0 <==> x == 0.0 && y == 0.0)
  {}

  /** Corrections below one lot each change nothing, and the decider asks for them again and again. */
  lemma RebalanceChangesNothingIff(d: PerpPerpDecider, c: Contracts, p: Pair)
    requires c.Valid() && d.Evaluate(p).Rebalance? && Priced(p)
    ensures var a := d.Evaluate(p);
            Filled(c, p, a.sizeLong, a.sizeShort) == p <==>
            Abs(p.TotalDelta()) / 2.0 < c.long.lotSize * p.longLeg.currentPrice &&
            Abs(p.TotalDelta()) / 2.0 < c.short.lotSize * p.shortLeg.currentPrice
  {
    var a := d.Evaluate(p);
    RebalanceSizes(d, p);
    CorrectionsFillNothing(c, p, a.sizeLong, a.sizeShort, -(p.TotalDelta() / 2.0));
  }

  lemma CorrectionsFillNothing(c: Contracts, p: Pair, sl: real, ss: real, worth: real)
    requires c.Valid() && Priced(p) && p.status.Active?
    requires sl * p.longLeg.currentPrice == worth && ss * p.shortLeg.currentPrice == worth
    ensures Filled(c, p, sl, ss) == p <==>
            && Abs(worth) < c.long.lotSize * p.longLeg.currentPrice
            && Abs(worth) < c.short.lotSize * p.shortLeg.currentPrice
  {
    FilledNothingOf(c.long, sl, p.longLeg.currentPrice, worth);
    FilledNothingOf(c.short, ss, p.shortLeg.currentPrice, worth);
    NothingFilled(c, p, sl, ss);
  }

  lemma NothingFilled(c: Contracts, p: Pair, sl: real, ss: real)
    requires c.Valid() && p.status.Active?
    ensures Filled(c, p, sl, ss) == p <==> FilledAmount(c.long, sl) == 0.0 && FilledAmount(c.short, ss) == 0.0
  {
    assert Filled(c, p, sl, ss).longLeg.positionSize == p.longLeg.positionSize + FilledAmount(c.long, sl);
    assert Filled(c, p, sl, ss).shortLeg.positionSize == p.shortLeg.positionSize + FilledAmount(c.short, ss);
  }

  /** For whole lots the rebalance is exactly neutral, at any prices. */
  lemma RebalanceNeutralizes(d: PerpPerpDecider, c: Contracts, p: Pair)
    requires c.Valid() && d.Evaluate(p).Rebalance?
    requires WholeLots(c, d.Evaluate(p).sizeLong, d.Evaluate(p).sizeShort)
    ensures var a := d.Evaluate(p); var q := Filled(c, p, a.sizeLong, a.sizeShort);
            q.TotalDelta() == 0.0 && (d.Evaluate(q) == DoNothing <==> d.DriftLimit() >= 0.0)
  {
    var a := d.Evaluate(p);
    RebalanceDelta(d, c, p);
    RestsIffDriftSmall(d, c, p, a.sizeLong, a.sizeShort);
  }

  // ---- entering -------------------------------------------------------------------------------------

  /** The target notional buys at least one lot of either leg. */
  predicate Affordable(d: PerpPerpDecider, c: Contracts, lp: real, sp: real) {
    c.long.lotSize * lp <= d.targetNotional && c.short.lotSize * sp <= d.targetNotional
  }

  /** What the flooring leaves of delta after an entry at given prices. */
  function EntryResidual(d: PerpPerpDecider, c: Contracts, lp: real, sp: real): real
    requires c.Valid() && lp > 0.0 && sp > 0.0
  {
    Lost(c.long, d.targetNotional / lp, lp) + Lost(c.short, -(d.targetNotional / sp), sp)
  }

  ghost predicate EntersAt(d: PerpPerpDecider, p: Pair, lp: real, sp: real) {
    p.FullyExited() && d.Evaluate(p).Enter? && p.longLeg.currentPrice == lp && p.shortLeg.currentPrice == sp
  }

  function Entered(d: PerpPerpDecider, c: Contracts, p: Pair): Pair
    requires c.Valid() && d.Evaluate(p).Enter?
  {
    Filled(c, p, d.Evaluate(p).sizeLong, d.Evaluate(p).sizeShort)
  }

  lemma EntrySizes(d: PerpPerpDecider, p: Pair)
    requires p.FullyExited() && d.Evaluate(p).Enter?
    ensures var lp, sp := p.longLeg.currentPrice, p.shortLeg.currentPrice;
            && d.Evaluate(p) == Enter(d.targetNotional / lp, -(d.targetNotional / sp))
            && d.Evaluate(p).sizeLong * lp == d.targetNotional && d.Evaluate(p).sizeShort * sp == -d.targetNotional
  {
    var lp, sp := p.longLeg.currentPrice, p.shortLeg.currentPrice;
    QuotientTimes(d.targetNotional, lp);
    QuotientTimes(d.targetNotional, sp);
    assert -(d.targetNotional / sp) * sp == -(d.targetNotional / sp * sp);
  }

  lemma FlatFilled(c: Contracts, p: Pair, sl: real, ss: real)
    requires c.Valid() && p.FullyExited()
    ensures var q := Filled(c, p, sl, ss);
            && q.longLeg.positionSize == FilledAmount(c.long, sl)
            && q.shortLeg.positionSize == FilledAmount(c.short, ss)
            && q.longLeg.Notional() == sl * p.longLeg.currentPrice - Lost(c.long, sl, p.longLeg.currentPrice)
            && q.shortLeg.Notional() == ss * p.shortLeg.currentPrice - Lost(c.short, ss, p.shortLeg.currentPrice)
  {
    FilledWorth(c.long, sl, p.longLeg.currentPrice);
    FilledWorth(c.short, ss, p.shortLeg.currentPrice);
  }

  lemma EntryNotionals(d: PerpPerpDecider, c: Contracts, p: Pair)
    requires c.Valid() && p.FullyExited() && d.Evaluate(p).Enter?
    ensures var a, q := d.Evaluate(p), Entered(d, c, p);
            && a == Enter(d.targetNotional / p.longLeg.currentPrice, -(d.targetNotional / p.shortLeg.currentPrice))
            && q.longLeg.Notional() == d.targetNotional - Lost(c.long, a.sizeLong, p.longLeg.currentPrice)
            && q.shortLeg.Notional() == -d.targetNotional - Lost(c.short, a.sizeShort, p.shortLeg.currentPrice)
  {
    EntrySizes(d, p);
    FlatFilled(c, p, d.Evaluate(p).sizeLong, d.Evaluate(p).sizeShort);
  }

  lemma EntryLegOf(i: Instrument, size: real, price: real, worth: real)
    requires i.Valid() && price > 0.0 && size * price == worth
    ensures var lost := Lost(i, size, price);
            && (worth > 0.0 ==> 0.0 <= lost < i.lotSize * price)
            && (worth < 0.0 ==> -(i.lotSize * price) < lost <= 0.0)
            && (FilledAmount(i, size) != 0.0 <==> i.lotSize * price <= Abs(worth))
  {
    LostOf(i, size, price, worth);
    FilledNothingOf(i, size, price, worth);
  }

  lemma EntryLegs(d: PerpPerpDecider, c: Contracts, p: Pair)
    requires c.Valid() && p.FullyExited() && d.Evaluate(p).Enter? && Priced(p) && d.targetNotional > 0.0
    ensures var a := d.Evaluate(p); var lp, sp := p.longLeg.currentPrice, p.shortLeg.currentPrice;
            && 0.0 <= Lost(c.long, a.sizeLong, lp) < c.long.lotSize * lp
            && -(c.short.lotSize * sp) < Lost(c.short, a.sizeShort, sp) <= 0.0
            && (Entered(d, c, p).longLeg.positionSize != 0.0 <==> c.long.lotSize * lp <= d.targetNotional)
            && (Entered(d, c, p).shortLeg.positionSize != 0.0 <==> c.short.lotSize * sp <= d.targetNotional)
  {
    EntrySizes(d, p);
    EntryLegsOf(c, p, d.Evaluate(p).sizeLong, d.Evaluate(p).sizeShort, d.targetNotional);
  }

  lemma EntryLegsOf(c: Contracts, p: Pair, sl: real, ss: real, n: real)
    requires c.Valid() && p.FullyExited() && Priced(p) && n > 0.0
    requires sl * p.longLeg.currentPrice == n && ss * p.shortLeg.currentPrice == -n
    ensures var lp, sp, q := p.longLeg.currentPrice, p.shortLeg.currentPrice, Filled(c, p, sl, ss);
            && 0.0 <= Lost(c.long, sl, lp) < c.long.lotSize * lp
            && -(c.short.lotSize * sp) < Lost(c.short, ss, sp) <= 0.0
            && (q.longLeg.positionSize != 0.0 <==> c.long.lotSize * lp <= n)
            && (q.shortLeg.positionSize != 0.0 <==> c.short.lotSize * sp <= n)
  {
    EntryLegOf(c.long, sl, p.longLeg.currentPrice, n);
    EntryLegOf(c.short, ss, p.shortLeg.currentPrice, -n);
    FlatFilled(c, p, sl, ss);
  }

  /** A filled entry from flat holds the target notional on either side short of less than a lot. Both
      legs are present exactly if the target buys a lot of each; the decider then has nothing to do exactly
      if moreover the entry spread is not below the exit level and what the flooring left is within the
      drift limit, and it exits at once exactly if the spread is below that level. */
  lemma EntryLeavesRemainders(d: PerpPerpDecider, c: Contracts, p: Pair)
    requires c.Valid() && p.FullyExited() && d.Evaluate(p).Enter? && Priced(p) && d.targetNotional > 0.0
    ensures var q := Entered(d, c, p);
            var lp, sp := p.longLeg.currentPrice, p.shortLeg.currentPrice;
            var n := d.targetNotional;
            && n - c.long.lotSize * lp < q.longLeg.Notional() <= n
            && -n <= q.shortLeg.Notional() < -n + c.short.lotSize * sp
            && q.TotalDelta() == -EntryResidual(d, c, lp, sp)
            && (q.FullyEntered() <==> Affordable(d, c, lp, sp)) && (q.FullyEntered() ==> q.status == Active)
            && (d.Evaluate(q) == DoNothing <==>
                && Affordable(d, c, lp, sp) && d.ExitLevel() <= p.FundingSpread()
                && Abs(EntryResidual(d, c, lp, sp)) <= d.DriftLimit())
            && (d.Evaluate(q) == Exit <==> Affordable(d, c, lp, sp) && p.FundingSpread() < d.ExitLevel())
  {
    EntryNotionals(d, c, p);
    EntryLegs(d, c, p);
  }

  /** A configuration never enters only to exit at once, at whatever prices, exactly if its exit level
      does not exceed its entry threshold. */
  lemma NeverExitsAtOnceIff(d: PerpPerpDecider, c: Contracts)
    requires c.Valid() && d.targetNotional > 0.0
    ensures d.ExitLevel() <= d.minSpreadThreshold <==>
            forall p: Pair | p.FullyExited() && d.Evaluate(p).Enter? && Priced(p) ::
              d.Evaluate(Entered(d, c, p)) != Exit
  {
    forall p: Pair | p.FullyExited() && d.Evaluate(p).Enter? && Priced(p)
      ensures d.Evaluate(Entered(d, c, p)) == Exit ==> p.FundingSpread() < d.ExitLevel()
    {
      EntryLeavesRemainders(d, c, p);
    }
    var lp, sp := d.targetNotional / c.long.lotSize, d.targetNotional / c.short.lotSize;
    QuotientTimes(d.targetNotional, c.long.lotSize);
    QuotientTimes(d.targetNotional, c.short.lotSize);
    PositiveQuotient(d.targetNotional, c.long.lotSize);
    PositiveQuotient(d.targetNotional, c.short.lotSize);
    var p := AtThreshold(d, lp, sp);
    EntryLeavesRemainders(d, c, p);
  }

  lemma PositiveQuotient(x: real, y: real)
    requires x > 0.0 && y > 0.0
    ensures x / y > 0.0
  {}

  /** A flat pair whose spread just reaches the entry threshold. */
  function AtThreshold(d: PerpPerpDecider, lp: real, sp: real): (p: Pair)
    requires lp > 0.0 && sp > 0.0
    ensures EntersAt(d, p, lp, sp) && p.FundingSpread() == d.minSpreadThreshold
  {
    var key := InstrumentKey(Binance, BTCUSDT, Swap);
    NewPair(key, key, Positive).(
      longLeg := NewLeg(key).(currentPrice := lp, fundingRate := d.minSpreadThreshold),
      shortLeg := NewLeg(key).(currentPrice := sp))
  }

  /** At given prices every entry leaves nothing to do exactly if the target buys a lot of either leg, the
      exit level does not exceed the entry threshold, and the flooring stays within the drift limit. */
  lemma NoChurnIffThresholdsOrdered(d: PerpPerpDecider, c: Contracts, lp: real, sp: real)
    requires c.Valid() && d.targetNotional > 0.0 && lp > 0.0 && sp > 0.0
    ensures (&& Affordable(d, c, lp, sp) && d.ExitLevel() <= d.minSpreadThreshold
             && Abs(EntryResidual(d, c, lp, sp)) <= d.DriftLimit()) <==>
            forall p | EntersAt(d, p, lp, sp) :: d.Evaluate(Entered(d, c, p)) == DoNothing
  {
    forall p | EntersAt(d, p, lp, sp)
      ensures d.Evaluate(Entered(d, c, p)) == DoNothing <==>
              && Affordable(d, c, lp, sp) && d.ExitLevel() <= p.FundingSpread()
              && Abs(EntryResidual(d, c, lp, sp)) <= d.DriftLimit()
      ensures p.FundingSpread() >= d.minSpreadThreshold
    {
      EntryLeavesRemainders(d, c, p);
    }
    assert EntersAt(d, AtThreshold(d, lp, sp), lp, sp);
  }

  /** For whole lots the entry is exactly dollar neutral, at any prices and for any target. */
  lemma EntryIsDollarNeutral(d: PerpPerpDecider, c: Contracts, p: Pair)
    requires c.Valid() && p.FullyExited() && d.Evaluate(p).Enter? && d.targetNotional != 0.0
    requires WholeLots(c, d.Evaluate(p).sizeLong, d.Evaluate(p).sizeShort)
    ensures var q := Entered(d, c, p);
            && q.longLeg.Notional() == d.targetNotional && q.shortLeg.Notional() == -d.targetNotional
            && q.FullyEntered() && q.status == Active
            && (d.Evaluate(q) == DoNothing <==> d.ExitLevel() <= p.FundingSpread() && d.DriftLimit() >= 0.0)
  {
    EntryNotionals(d, c, p);
  }

  // ---- two inputs -------------------------------------------------------------------------------------

  /** One lot is one unit, all prices are given, nothing else matters. */
  function OneLot(): Contracts {
    var i := Instrument(InstrumentKey(Binance, BTCUSDT, Swap), "", 1.0, 1.0, None);
    Contracts(i, i)
  }

  function PairAt(status: PairStatus, long: real, short: real, lp: real, sp: real): Pair {
    var key := InstrumentKey(Binance, BTCUSDT, Swap);
    NewPair(key, key, Positive).(
      status := status,
      longLeg := NewLeg(key).(positionSize := long, currentPrice := lp),
      shortLeg := NewLeg(key).(positionSize := short, currentPrice := sp))
  }

  /** Half a lot too much on either leg: the decider asks for a rebalance that the flooring undoes. */
  lemma RebalanceForever()
    ensures var d, p := PerpPerpDecider(0.0, None, 1.0, 50.0), PairAt(Active, 2.0, -1.0, 1.0, 1.0);
            && d.Evaluate(p) == Rebalance(-0.5, -0.5)
            && Filled(OneLot(), p, -0.5, -0.5) == p
  {
    var d, p := PerpPerpDecider(0.0, None, 1.0, 50.0), PairAt(Active, 2.0, -1.0, 1.0, 1.0);
    assert p.TotalDelta() == 1.0 && d.DriftLimit() == 0.5;
    RebalanceChangesNothingIff(d, OneLot(), p);
  }

  /** A target of 10 buys two lots at 4 and two at 5: the entered pair is two short of neutral, which is
      more than the drift limit, so it is rebalanced at once. */
  lemma EntryRebalancedAtOnce()
    ensures var d, p := PerpPerpDecider(0.0, None, 10.0, 10.0), PairAt(Inactive, 0.0, 0.0, 4.0, 5.0);
            && d.ExitLevel() <= p.FundingSpread() && d.Evaluate(p) == Enter(2.5, -2.0)
            && Entered(d, OneLot(), p).TotalDelta() == -2.0 && d.Evaluate(Entered(d, OneLot(), p)).Rebalance?
  {
    var d, p := PerpPerpDecider(0.0, None, 10.0, 10.0), PairAt(Inactive, 0.0, 0.0, 4.0, 5.0);
    assert (2.5 as real).Floor == 2 && (2.0 as real).Floor == 2;
    assert FilledAmount(OneLot().long, 2.5) == 2.0 && FilledAmount(OneLot().short, -2.0) == -2.0;
    assert Entered(d, OneLot(), p).TotalDelta() == -2.0;
  }

  // ---- missing legs ---------------------------------------------------------------------------------

  /** What the present leg is worth, and what a lot of the missing one is. */
  function PresentNotional(p: Pair, lp: real, sp: real): real {
    if p.longLeg.positionSize != 0.0 then Abs(p.longLeg.positionSize) * lp else Abs(p.shortLeg.positionSize) * sp
  }

  function MissingLot(c: Contracts, p: Pair, lp: real, sp: real): real {
    if p.longLeg.positionSize != 0.0 then c.short.lotSize * sp else c.long.lotSize * lp
  }

  predicate OwnDirection(p: Pair) {
    p.longLeg.positionSize >= 0.0 >= p.shortLeg.positionSize
  }

  lemma MissingWorth(p: Pair, lp: real, sp: real)
    requires p.MissingLegSizes(lp, sp).Some?
    ensures var (sl, ss) := p.MissingLegSizes(lp, sp).value;
            && p.OneLegged()
            && if p.longLeg.positionSize != 0.0 then sl == 0.0 && ss * sp == -PresentNotional(p, lp, sp)
               else ss == 0.0 && sl * lp == PresentNotional(p, lp, sp)
  {
    if p.longLeg.positionSize != 0.0 {
      QuotientTimes(PresentNotional(p, lp, sp), sp);
    } else {
      QuotientTimes(PresentNotional(p, lp, sp), lp);
    }
  }

  /** Re-entering the missing leg of an orphan. Both legs are present after the fill exactly if the present
      one is worth a lot of the other. An orphan of the right direction is then hedged up to less than
      that lot, and exactly hedged if and only if the order was for whole lots; one of the wrong direction
      never is. */
  lemma MissingLegRestored(c: Contracts, p: Pair, lp: real, sp: real)
    requires c.Valid() && p.MissingLegSizes(lp, sp).Some? && lp > 0.0 && sp > 0.0
    ensures var (sl, ss) := p.MissingLegSizes(lp, sp).value;
            BothPresent(c, p, sl, ss, lp, sp) && HedgedUpTo(c, p, sl, ss, lp, sp)
  {
    var (sl, ss) := p.MissingLegSizes(lp, sp).value;
    MissingWorth(p, lp, sp);
    if p.longLeg.positionSize != 0.0 {
      ShortLegPresent(c, p, ss, lp, sp);
      ShortLegHedged(c, p, ss, lp, sp);
    } else {
      LongLegPresent(c, p, sl, lp, sp);
      LongLegHedged(c, p, sl, lp, sp);
    }
  }

  predicate BothPresent(c: Contracts, p: Pair, sl: real, ss: real, lp: real, sp: real)
    requires c.Valid()
  {
    Filled(c, p, sl, ss).FullyEntered() <==> MissingLot(c, p, lp, sp) <= PresentNotional(p, lp, sp)
  }

  predicate HedgedUpTo(c: Contracts, p: Pair, sl: real, ss: real, lp: real, sp: real)
    requires c.Valid()
  {
    var delta := DeltaAt(Filled(c, p, sl, ss), lp, sp);
    && (OwnDirection(p) ==> Abs(delta) < MissingLot(c, p, lp, sp))
    && (delta == 0.0 <==> OwnDirection(p) && WholeLots(c, sl, ss))
  }

  lemma RestoredDelta(c: Contracts, p: Pair, sl: real, ss: real, lp: real, sp: real)
    requires c.Valid()
    ensures ss == 0.0 ==> DeltaAt(Filled(c, p, sl, ss), lp, sp) == DeltaAt(p, lp, sp) + sl * lp - Lost(c.long, sl, lp)
    ensures sl == 0.0 ==> DeltaAt(Filled(c, p, sl, ss), lp, sp) == DeltaAt(p, lp, sp) + ss * sp - Lost(c.short, ss, sp)
  {
    DeltaAfterFill(c, p, sl, ss, lp, sp);
    NothingLostOfNothing(c.long, lp);
    NothingLostOfNothing(c.short, sp);
  }

  /** The order for the missing leg, seen apart from the other. */
  lemma MissingLegOrder(i: Instrument, size: real, price: real, order: real)
    requires i.Valid() && price > 0.0 && size * price == order
    ensures var lost := Lost(i, size, price);
            Within(lost, order) && Abs(lost) < i.lotSize * price && (lost == 0.0 <==> Remainder(i, size) == 0.0)
  {
    LostOf(i, size, price, order);
    LostNothingIff(i, size, price);
  }

  lemma ShortLegPresent(c: Contracts, p: Pair, ss: real, lp: real, sp: real)
    requires c.Valid() && lp > 0.0 && sp > 0.0 && p.longLeg.positionSize != 0.0 && p.shortLeg.positionSize == 0.0
    requires ss * sp == -PresentNotional(p, lp, sp)
    ensures BothPresent(c, p, 0.0, ss, lp, sp)
  {
    NothingLostOfNothing(c.long, lp);
    FilledNothingOf(c.short, ss, sp, -PresentNotional(p, lp, sp));
    PositiveWorth(p, lp, sp);
  }

  lemma ShortLegHedged(c: Contracts, p: Pair, ss: real, lp: real, sp: real)
    requires c.Valid() && lp > 0.0 && sp > 0.0 && p.longLeg.positionSize != 0.0 && p.shortLeg.positionSize == 0.0
    requires ss * sp == -PresentNotional(p, lp, sp)
    ensures HedgedUpTo(c, p, 0.0, ss, lp, sp)
  {
    var worth := PresentNotional(p, lp, sp);
    RestoredDelta(c, p, 0.0, ss, lp, sp);
    NothingLostOfNothing(c.long, lp);
    MissingLegOrder(c.short, ss, sp, -worth);
    PositiveWorth(p, lp, sp);
    MissingLegResidual(DeltaAt(p, lp, sp), worth, -worth, Lost(c.short, ss, sp), true);
  }

  lemma LongLegPresent(c: Contracts, p: Pair, sl: real, lp: real, sp: real)
    requires c.Valid() && lp > 0.0 && sp > 0.0 && p.longLeg.positionSize == 0.0 && p.shortLeg.positionSize != 0.0
    requires sl * lp == PresentNotional(p, lp, sp)
    ensures BothPresent(c, p, sl, 0.0, lp, sp)
  {
    NothingLostOfNothing(c.short, sp);
    FilledNothingOf(c.long, sl, lp, PresentNotional(p, lp, sp));
    PositiveWorth(p, lp, sp);
  }

  lemma LongLegHedged(c: Contracts, p: Pair, sl: real, lp: real, sp: real)
    requires c.Valid() && lp > 0.0 && sp > 0.0 && p.longLeg.positionSize == 0.0 && p.shortLeg.positionSize != 0.0
    requires sl * lp == PresentNotional(p, lp, sp)
    ensures HedgedUpTo(c, p, sl, 0.0, lp, sp)
  {
    var worth := PresentNotional(p, lp, sp);
    RestoredDelta(c, p, sl, 0.0, lp, sp);
    NothingLostOfNothing(c.short, sp);
    MissingLegOrder(c.long, sl, lp, worth);
    PositiveWorth(p, lp, sp);
    MissingLegResidual(DeltaAt(p, lp, sp), worth, worth, Lost(c.long, sl, lp), false);
  }

  lemma NothingLostOfNothing(i: Instrument, price: real)
    requires i.Valid()
    ensures FilledAmount(i, 0.0) == 0.0 && Remainder(i, 0.0) == 0.0 && Lost(i, 0.0, price) == 0.0
  {
    FloorTowardsZero(i, 0.0);
  }

  /** The delta of a restored pair from that of the present leg, the worth of the order for the missing one
      and what is lost of it. */
  lemma MissingLegResidual(delta: real, worth: real, order: real, lost: real, hasLong: bool)
    requires worth > 0.0 && (delta == worth || delta == -worth)
    requires Within(lost, order) && order == if hasLong then -worth else worth
    ensures var own := delta == -order;
            && (own ==> delta + order - lost == -lost)
            && (delta + order - lost == 0.0 <==> own && lost == 0.0)
  {}

  lemma PositiveWorth(p: Pair, lp: real, sp: real)
    requires p.OneLegged() && lp > 0.0 && sp > 0.0
    ensures PresentNotional(p, lp, sp) > 0.0
    ensures DeltaAt(p, lp, sp) ==
            if p.longLeg.positionSize > 0.0 || p.shortLeg.positionSize > 0.0 then PresentNotional(p, lp, sp)
            else -PresentNotional(p, lp, sp)
  {
    assert p.longLeg.positionSize == 0.0 || p.shortLeg.positionSize == 0.0;
  }

  /** For whole lots, at any prices: both legs are present exactly if the present leg's price was known,
      and the exposure is zero exactly if that leg has its own direction (or no price). */
  lemma WholeLotLegRestored(c: Contracts, p: Pair, lp: real, sp: real)
    requires c.Valid() && p.MissingLegSizes(lp, sp).Some?
    requires WholeLots(c, p.MissingLegSizes(lp, sp).value.0, p.MissingLegSizes(lp, sp).value.1)
    ensures var (sl, ss) := p.MissingLegSizes(lp, sp).value;
            var q := Filled(c, p, sl, ss);
            var presentPrice := if p.longLeg.positionSize != 0.0 then lp else sp;
            && (q.FullyEntered() <==> presentPrice != 0.0)
            && (DeltaAt(q, lp, sp) == 0.0 <==> OwnDirection(p) || presentPrice == 0.0)
  {
    var (sl, ss) := p.MissingLegSizes(lp, sp).value;
    MissingWorth(p, lp, sp);
    DeltaAfterFill(c, p, sl, ss, lp, sp);
    ZeroWorth(p.longLeg.positionSize, lp);
    ZeroWorth(p.shortLeg.positionSize, sp);
    ZeroWorth(sl, lp);
    ZeroWorth(ss, sp);
  }

  lemma ZeroWorth(x: real, price: real)
    ensures x * price == 0.0 <==> x == 0.0 || price == 0.0
    ensures Abs(x) * price == if x >= 0.0 then x * price else -(x * price)
  {}

  /** Orphan repair by the decider, at current prices. */
  lemma DeciderRepairsOrphan(d: PerpPerpDecider, c: Contracts, p: Pair)
    requires c.Valid() && p.OneLegged() && d.Evaluate(p).Enter? && OwnDirection(p) && Priced(p)
    ensures var q := Entered(d, c, p); var lp, sp := p.longLeg.currentPrice, p.shortLeg.currentPrice;
            && (q.status == Active <==> MissingLot(c, p, lp, sp) <= PresentNotional(p, lp, sp))
            && (q.status == Active <==> q.FullyEntered())
            && Abs(q.TotalDelta()) < MissingLot(c, p, lp, sp)
            && (q.TotalDelta() == 0.0 <==> WholeLots(c, d.Evaluate(p).sizeLong, d.Evaluate(p).sizeShort))
  {
    var lp, sp := p.longLeg.currentPrice, p.shortLeg.currentPrice;
    MissingLegRestored(c, p, lp, sp);
    SamePrices(c, p, d.Evaluate(p).sizeLong, d.Evaluate(p).sizeShort);
  }

  lemma SamePrices(c: Contracts, p: Pair, sl: real, ss: real)
    requires c.Valid()
    ensures var q := Filled(c, p, sl, ss);
            q.TotalDelta() == DeltaAt(q, p.longLeg.currentPrice, p.shortLeg.currentPrice)
    ensures p.status.Inactive? ==> (Filled(c, p, sl, ss).status == Active <==> Filled(c, p, sl, ss).FullyEntered())
  {}

  /** Orphan repair by the engine's recovery, at maker prices. */
  lemma RecoveryRepairsOrphan(c: Contracts, p: Pair)
    requires c.Valid() && p.RecoverySizes().Some? && OwnDirection(p)
    requires p.EntryPrices().0 > 0.0 && p.EntryPrices().1 > 0.0
    ensures var (sl, ss) := p.RecoverySizes().value; var (lp, sp) := p.EntryPrices(); var q := Filled(c, p, sl, ss);
            && (q.FullyEntered() <==> MissingLot(c, p, lp, sp) <= PresentNotional(p, lp, sp))
            && Abs(DeltaAt(q, lp, sp)) < MissingLot(c, p, lp, sp)
            && (DeltaAt(q, lp, sp) == 0.0 <==> WholeLots(c, sl, ss))
  {
    MissingLegRestored(c, p, p.EntryPrices().0, p.EntryPrices().1);
  }

  // ---- income ---------------------------------------------------------------------------------------

  /** Funding of one period, by the convention that perp_perp/types.rs gives for the carry direction: the
      long leg receives its rate on its notional and the short leg pays its own if the carry is positive,
      and the other way round if it is negative. The system itself computes no such figure. */
  function FundingIncome(p: Pair): real {
    var received := p.longLeg.Notional() * p.longLeg.fundingRate + p.shortLeg.Notional() * p.shortLeg.fundingRate;
    if p.carry == Positive then received else -received
  }

  /** The funding of what is lost of an order, and that of a whole lot. */
  function LostFunding(i: Instrument, size: real, leg: PerpLeg): real
    requires i.Valid()
  {
    Lost(i, size, leg.currentPrice) * leg.fundingRate
  }

  function LotFunding(i: Instrument, leg: PerpLeg): real {
    i.lotSize * leg.currentPrice * Abs(leg.fundingRate)
  }

  /** The income that the flooring of two orders costs. */
  function LostIncome(c: Contracts, p: Pair, sizeLong: real, sizeShort: real): real
    requires c.Valid()
  {
    var lost := LostFunding(c.long, sizeLong, p.longLeg) + LostFunding(c.short, sizeShort, p.shortLeg);
    if p.carry == Positive then lost else -lost
  }

  /** A filled entry from flat earns the spread on the target notional less what the flooring costs, which
      is at most the funding of a lot of either leg and nothing for whole lots. It earns what the threshold
      asks for exactly if the spread exceeds the threshold by as much. */
  lemma EntryEarnsTheThreshold(d: PerpPerpDecider, c: Contracts, p: Pair)
    requires c.Valid() && p.FullyExited() && d.Evaluate(p).Enter? && Priced(p) && d.targetNotional > 0.0
    ensures var a, income := d.Evaluate(p), FundingIncome(Entered(d, c, p));
            var lost := LostIncome(c, p, a.sizeLong, a.sizeShort);
            && income == d.targetNotional * p.FundingSpread() - lost
            && Abs(lost) <= LotFunding(c.long, p.longLeg) + LotFunding(c.short, p.shortLeg)
            && (WholeLots(c, a.sizeLong, a.sizeShort) ==> lost == 0.0)
            && (income >= d.targetNotional * d.minSpreadThreshold <==>
                d.targetNotional * (p.FundingSpread() - d.minSpreadThreshold) >= lost)
  {
    EntrySizes(d, p);
    FilledIncome(c, p, d.Evaluate(p).sizeLong, d.Evaluate(p).sizeShort, d.targetNotional);
    LostIncomeBound(c, p, d.Evaluate(p).sizeLong, d.Evaluate(p).sizeShort);
    DifferenceTimes(d.targetNotional, p.FundingSpread(), d.minSpreadThreshold);
  }

  lemma DifferenceTimes(n: real, x: real, y: real)
    ensures n * (x - y) == n * x - n * y
  {}

  lemma FilledIncome(c: Contracts, p: Pair, sl: real, ss: real, n: real)
    requires c.Valid() && p.FullyExited()
    requires sl * p.longLeg.currentPrice == n && ss * p.shortLeg.currentPrice == -n
    ensures FundingIncome(Filled(c, p, sl, ss)) == n * p.FundingSpread() - LostIncome(c, p, sl, ss)
  {
    FlatFilled(c, p, sl, ss);
    FilledRates(c, p, sl, ss);
    IncomeOfNotionals(Filled(c, p, sl, ss), n, Lost(c.long, sl, p.longLeg.currentPrice),
                      Lost(c.short, ss, p.shortLeg.currentPrice),
                      LostFunding(c.long, sl, p.longLeg), LostFunding(c.short, ss, p.shortLeg));
  }

  lemma FilledRates(c: Contracts, p: Pair, sl: real, ss: real)
    requires c.Valid()
    ensures var q := Filled(c, p, sl, ss);
            && q.longLeg.fundingRate == p.longLeg.fundingRate && q.shortLeg.fundingRate == p.shortLeg.fundingRate
            && q.carry == p.carry && q.FundingSpread() == p.FundingSpread()
  {}

  lemma IncomeOfNotionals(q: Pair, n: real, ll: real, ls: real, lostLong: real, lostShort: real)
    requires q.longLeg.Notional() == n - ll && q.shortLeg.Notional() == -n - ls
    requires lostLong == ll * q.longLeg.fundingRate && lostShort == ls * q.shortLeg.fundingRate
    ensures FundingIncome(q) ==
            n * q.FundingSpread() - if q.carry == Positive then lostLong + lostShort else -(lostLong + lostShort)
  {
    IncomeOf(n, ll, ls, q.longLeg.fundingRate, q.shortLeg.fundingRate);
  }

  lemma LostIncomeBound(c: Contracts, p: Pair, sl: real, ss: real)
    requires c.Valid() && Priced(p)
    ensures Abs(LostIncome(c, p, sl, ss)) <= LotFunding(c.long, p.longLeg) + LotFunding(c.short, p.shortLeg)
    ensures WholeLots(c, sl, ss) ==> LostIncome(c, p, sl, ss) == 0.0
  {
    LostFundingBound(c.long, sl, p.longLeg);
    LostFundingBound(c.short, ss, p.shortLeg);
  }

  lemma LostFundingBound(i: Instrument, size: real, leg: PerpLeg)
    requires i.Valid() && leg.currentPrice > 0.0
    ensures Abs(LostFunding(i, size, leg)) <= LotFunding(i, leg)
    ensures Remainder(i, size) == 0.0 ==> LostFunding(i, size, leg) == 0.0
  {
    LostIsSmall(i, size, leg.currentPrice);
    BoundedProduct(Lost(i, size, leg.currentPrice), i.lotSize * leg.currentPrice, leg.fundingRate);
  }

  lemma IncomeOf(n: real, ll: real, ls: real, fl: real, fs: real)
    ensures (n - ll) * fl + (-n - ls) * fs == n * (fl - fs) - (ll * fl + ls * fs)
    ensures n * (fs - fl) == -(n * (fl - fs))
  {}

  lemma BoundedProduct(x: real, bound: real, f: real)
    requires Abs(x) <= bound
    ensures Abs(x * f) <= bound * Abs(f)
  {
    assert Abs(x * f) == Abs(x) * Abs(f);
    if f != 0.0 { ScaleOrder(Abs(x), bound, Abs(f)); }
  }
}
