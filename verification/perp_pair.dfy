/** The two-legged perp pair (strategies/src/arbitrage/perp_perp/types.rs). `Pair` is the value
    of a `PerpPerpPair`; its queries are the source's read-only methods. */
module PerpPair {
  import opened Types
  import opened ArbitrageTypes

  datatype CarryDirection = Positive | Negative

  datatype FundingSnapshot = FundingSnapshot(key: InstrumentKey, fundingRate: real, markPrice: real)

  /** What the oracle knows of one instrument at the moment of a refresh. */
  datatype LegQuote = LegQuote(
    mid: Option<real>, bid: Option<real>, ask: Option<real>, askDepth: Option<real>, bidDepth: Option<real>)

  function FundedLeg(leg: PerpLeg, f: FundingSnapshot): PerpLeg {
    leg.(fundingRate := f.fundingRate,
         currentPrice := if leg.currentPrice == 0.0 && f.markPrice != 0.0 then f.markPrice else leg.currentPrice)
  }

  function PositionedLeg(leg: PerpLeg, p: Position): PerpLeg {
    leg.(positionSize := p.size, entryPrice := p.entryPrice)
  }

  function QuotedLeg(leg: PerpLeg, q: LegQuote): PerpLeg {
    leg.(currentPrice := q.mid.UnwrapOr(leg.currentPrice),
         bestBid := q.bid, bestAsk := q.ask, askDepth := q.askDepth, bidDepth := q.bidDepth)
  }

  datatype Pair = Pair(
    longLeg: PerpLeg, shortLeg: PerpLeg, carry: CarryDirection, status: PairStatus,
    positionLong: Option<Position>, positionShort: Option<Position>, tracker: Tracker)
  {
    function FundingSpread(): real {
      match carry
      case Positive => longLeg.fundingRate - shortLeg.fundingRate
      case Negative => shortLeg.fundingRate - longLeg.fundingRate
    }

    function TotalDelta(): real {
      longLeg.Notional() + shortLeg.Notional()
    }

    predicate FullyEntered() {
      longLeg.positionSize != 0.0 && shortLeg.positionSize != 0.0
    }

    predicate FullyExited() {
      longLeg.positionSize == 0.0 && shortLeg.positionSize == 0.0
    }

    predicate OneLegged() {
      !FullyEntered() && !FullyExited()
    }

    function CloseSizes(): (real, real) {
      (-longLeg.positionSize, -shortLeg.positionSize)
    }

    predicate HasSufficientDepth(sizeLong: real, sizeShort: real) {
      longLeg.DepthSufficient(sizeLong) && shortLeg.DepthSufficient(sizeShort)
    }

    /** The prices at which a missing leg is re-entered as a maker. */
    function EntryPrices(): (real, real) {
      (longLeg.bestBid.UnwrapOr(longLeg.currentPrice), shortLeg.bestAsk.UnwrapOr(shortLeg.currentPrice))
    }

    /** Sizes of the missing leg when the present one is valued at the given prices. */
    function MissingLegSizes(longPrice: real, shortPrice: real): Option<(real, real)> {
      var longHas := longLeg.positionSize != 0.0;
      var shortHas := shortLeg.positionSize != 0.0;
      if longHas == shortHas then None
      else if (!longHas && longPrice == 0.0) || (!shortHas && shortPrice == 0.0) then None
      else Some((
        if longHas then 0.0 else Abs(shortLeg.positionSize) * shortPrice / longPrice,
        if shortHas then 0.0 else -(Abs(longLeg.positionSize) * longPrice / shortPrice)))
    }

    function RecoverySizes(): Option<(real, real)> {
      var (longPrice, shortPrice) := EntryPrices();
      MissingLegSizes(longPrice, shortPrice)
    }

    function RecoverAction(): Option<DeciderAction> {
      match RecoverySizes()
      case None => None
      case Some((sizeLong, sizeShort)) => Some(Recover(sizeLong, sizeShort))
    }

    function WithStatus(s: PairStatus): Pair {
      this.(status := s)
    }

    function WithoutTerminal(): Pair {
      this.(tracker := tracker.RemoveTerminal())
    }

    function MaybeActivated(): Pair {
      if (status.Inactive? || status.Entering?) && FullyEntered() then WithStatus(Active) else this
    }

    function ApplyFunding(f: FundingSnapshot): Pair {
      if f.key == longLeg.key then this.(longLeg := FundedLeg(longLeg, f))
      else if f.key == shortLeg.key then this.(shortLeg := FundedLeg(shortLeg, f))
      else this
    }

    function ApplyPosition(p: Position): Pair {
      if p.key == longLeg.key then
        this.(longLeg := PositionedLeg(longLeg, p), positionLong := Some(p)).MaybeActivated()
      else if p.key == shortLeg.key then
        this.(shortLeg := PositionedLeg(shortLeg, p), positionShort := Some(p)).MaybeActivated()
      else this
    }

    function Refresh(longQuote: LegQuote, shortQuote: LegQuote): Pair {
      this.(longLeg := QuotedLeg(longLeg, longQuote), shortLeg := QuotedLeg(shortLeg, shortQuote))
    }
  }

  function NewPair(longKey: InstrumentKey, shortKey: InstrumentKey, carry: CarryDirection): Pair {
    Pair(NewLeg(longKey), NewLeg(shortKey), carry, Inactive, None, None, Tracker(map[], None))
  }

  class PerpPerpPair {
    const carry: CarryDirection
    const orderTracker: OrderTracker
    var longLeg: PerpLeg
    var shortLeg: PerpLeg
    var status: PairStatus
    var positionLong: Option<Position>
    var positionShort: Option<Position>

    function State(): Pair
      reads this, orderTracker, orderTracker.unwindSchedule
    {
      Pair(longLeg, shortLeg, carry, status, positionLong, positionShort, orderTracker.State())
    }

    constructor (longKey: InstrumentKey, shortKey: InstrumentKey, carry: CarryDirection)
      ensures State() == NewPair(longKey, shortKey, carry)
      ensures fresh(orderTracker) && orderTracker.unwindSchedule == null
    {
      var tracker := new OrderTracker();
      this.carry := carry;
      orderTracker := tracker;
      longLeg, shortLeg := NewLeg(longKey), NewLeg(shortKey);
      status, positionLong, positionShort := Inactive, None, None;
    }

    method ApplyFunding(f: FundingSnapshot) returns (matched: bool)
      modifies this
      ensures State() == old(State()).ApplyFunding(f)
      ensures matched <==> f.key in {old(longLeg).key, old(shortLeg).key}
    {
      matched := true;
      if f.key == longLeg.key {
        longLeg := longLeg.(fundingRate := f.fundingRate);
        if longLeg.currentPrice == 0.0 && f.markPrice != 0.0 {
          longLeg := longLeg.(currentPrice := f.markPrice);
        }
      } else if f.key == shortLeg.key {
        shortLeg := shortLeg.(fundingRate := f.fundingRate);
        if shortLeg.currentPrice == 0.0 && f.markPrice != 0.0 {
          shortLeg := shortLeg.(currentPrice := f.markPrice);
        }
      } else {
        matched := false;
      }
    }

    method ApplyPosition(p: Position)
      modifies this
      ensures State() == old(State()).ApplyPosition(p)
    {
      if p.key == longLeg.key {
        longLeg := longLeg.(positionSize := p.size, entryPrice := p.entryPrice);
        positionLong := Some(p);
        MaybeTransitionToActive();
      } else if p.key == shortLeg.key {
        shortLeg := shortLeg.(positionSize := p.size, entryPrice := p.entryPrice);
        positionShort := Some(p);
        MaybeTransitionToActive();
      }
    }

    method MaybeTransitionToActive()
      modifies this`status
      ensures State() == old(State()).MaybeActivated()
    {
      if (status.Inactive? || status.Entering?) && longLeg.positionSize != 0.0 && shortLeg.positionSize != 0.0 {
        status := Active;
      }
    }

    method RefreshPrices(longMid: Option<real>, shortMid: Option<real>)
      modifies this`longLeg, this`shortLeg
      ensures longLeg == old(longLeg).(currentPrice := longMid.UnwrapOr(old(longLeg).currentPrice))
      ensures shortLeg == old(shortLeg).(currentPrice := shortMid.UnwrapOr(old(shortLeg).currentPrice))
    {
      if longMid.Some? {
        longLeg := longLeg.(currentPrice := longMid.value);
      }
      if shortMid.Some? {
        shortLeg := shortLeg.(currentPrice := shortMid.value);
      }
    }

    method RefreshOrderbook(longQuote: LegQuote, shortQuote: LegQuote)
      modifies this`longLeg, this`shortLeg
      ensures longLeg == old(longLeg).(bestBid := longQuote.bid, bestAsk := longQuote.ask,
                                       askDepth := longQuote.askDepth, bidDepth := longQuote.bidDepth)
      ensures shortLeg == old(shortLeg).(bestBid := shortQuote.bid, bestAsk := shortQuote.ask,
                                         askDepth := shortQuote.askDepth, bidDepth := shortQuote.bidDepth)
    {
      longLeg := longLeg.(bestBid := longQuote.bid, bestAsk := longQuote.ask,
                          askDepth := longQuote.askDepth, bidDepth := longQuote.bidDepth);
      shortLeg := shortLeg.(bestBid := shortQuote.bid, bestAsk := shortQuote.ask,
                            askDepth := shortQuote.askDepth, bidDepth := shortQuote.bidDepth);
    }
  }
}
