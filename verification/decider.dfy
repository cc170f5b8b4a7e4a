/** Spread-based decisions (strategies/src/arbitrage/perp_perp/decider.rs). */
module Decider {
  import opened Types
  import opened ArbitrageTypes
  import opened PerpPair

  datatype PerpPerpDecider = PerpPerpDecider(
    minSpreadThreshold: real, exitThreshold: Option<real>, targetNotional: real, rebalanceDriftPct: real)
  {
    /** Spreads below this level close an active pair. */
    function ExitLevel(): real {
      exitThreshold.UnwrapOr(0.0)
    }

    function DriftLimit(): real {
      targetNotional * rebalanceDriftPct / 100.0
    }

    function Evaluate(p: Pair): DeciderAction {
      match p.status
      case Inactive => EvaluateInactive(p)
      case Active => EvaluateActive(p)
      case _ => DoNothing
    }

    function EvaluateInactive(p: Pair): DeciderAction {
      var longPrice, shortPrice := p.longLeg.currentPrice, p.shortLeg.currentPrice;
      if p.OneLegged() then
        match p.MissingLegSizes(longPrice, shortPrice)
        case None => DoNothing
        case Some((sizeLong, sizeShort)) => Enter(sizeLong, sizeShort)
      else if p.FullyEntered() then DoNothing
      else if p.FundingSpread() < minSpreadThreshold then DoNothing
      else if longPrice == 0.0 || shortPrice == 0.0 then DoNothing
      else Enter(targetNotional / longPrice, -(targetNotional / shortPrice))
    }

    function EvaluateActive(p: Pair): DeciderAction {
      var longPrice, shortPrice := p.longLeg.currentPrice, p.shortLeg.currentPrice;
      if p.FundingSpread() < ExitLevel() then Exit
      else if Abs(p.TotalDelta()) <= DriftLimit() then DoNothing
      else if longPrice == 0.0 || shortPrice == 0.0 then DoNothing
      else
        var halfDelta := p.TotalDelta() / 2.0;
        Rebalance(-halfDelta / longPrice, -halfDelta / shortPrice)
    }
  }
}
