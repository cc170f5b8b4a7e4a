/** What the engine decides and does on each input, in terms of rates, prices, quotes and positions
    (strategies/src/arbitrage/engine.rs, perp_perp/decider.rs). */
module Decisions {
  import opened Types
  import opened ArbitrageTypes
  import opened PerpPair
  import opened Decider
  import opened Execution
  import opened EngineLoop
  import opened Lifecycle
  import opened Closings
  import opened OpeningOrders
  import opened Reports

  // ---- the decider ---------------------------------------------------------------------------------

  /** What the carry earns per unit of notional, from the two funding rates. */
  function RateDifference(p: Pair): real {
    if p.carry == Positive then p.longLeg.fundingRate - p.shortLeg.fundingRate
    else p.shortLeg.fundingRate - p.longLeg.fundingRate
  }

  /** The flat pair is worth entering: both prices known and the rates at least the threshold apart. */
  predicate WorthEntering(d: PerpPerpDecider, p: Pair) {
    && p.longLeg.positionSize == 0.0 && p.shortLeg.positionSize == 0.0
    && p.longLeg.currentPrice != 0.0 && p.shortLeg.currentPrice != 0.0
    && RateDifference(p) >= d.minSpreadThreshold
  }

  /** Exactly one leg is present and the price of the other is known. */
  predicate Repairable(p: Pair) {
    || (p.longLeg.positionSize == 0.0 && p.shortLeg.positionSize != 0.0 && p.longLeg.currentPrice != 0.0)
    || (p.longLeg.positionSize != 0.0 && p.shortLeg.positionSize == 0.0 && p.shortLeg.currentPrice != 0.0)
  }

  /** An inactive pair is entered exactly if it is flat and worth it, for the target on either side, or if
      one leg is missing and can be priced, for the worth of the other; otherwise nothing is done. */
  lemma InactiveDecision(d: PerpPerpDecider, p: Pair)
    requires p.status == Inactive
    ensures var a := d.Evaluate(p);
            && (a.Enter? <==> WorthEntering(d, p) || Repairable(p)) && (!a.Enter? ==> a == DoNothing)
            && (WorthEntering(d, p) ==>
                  a == Enter(d.targetNotional / p.longLeg.currentPrice, -(d.targetNotional / p.shortLeg.currentPrice)))
            && (Repairable(p) ==>
                  var worthLong := Abs(p.longLeg.positionSize) * p.longLeg.currentPrice;
                  var worthShort := Abs(p.shortLeg.positionSize) * p.shortLeg.currentPrice;
                  a == if p.longLeg.positionSize == 0.0 then Enter(worthShort / p.longLeg.currentPrice, 0.0)
                       else Enter(0.0, -(worthLong / p.shortLeg.currentPrice)))
  {}

  /** An active pair is exited exactly if the rates are less apart than the exit threshold, or than zero when
      there is none. Otherwise it is rebalanced exactly if the two notionals sum to more than the drift limit
      and both prices are known, by half the sum on either leg. */
  lemma ActiveDecision(d: PerpPerpDecider, p: Pair)
    requires p.status == Active
    ensures var a := d.Evaluate(p);
            var lp, sp := p.longLeg.currentPrice, p.shortLeg.currentPrice;
            var delta := p.longLeg.positionSize * lp + p.shortLeg.positionSize * sp;
            var drifted := Abs(delta) > d.targetNotional * d.rebalanceDriftPct / 100.0 && lp != 0.0 && sp != 0.0;
            && (a == Exit <==> RateDifference(p) < if d.exitThreshold.Some? then d.exitThreshold.value else 0.0)
            && (a.Rebalance? <==> a != Exit && drifted) && (a.Exit? || a.Rebalance? || a == DoNothing)
            && (a.Rebalance? ==> a.sizeLong * lp == -delta / 2.0 && a.sizeShort * sp == -delta / 2.0)
  {
    var delta, lp, sp := p.TotalDelta(), p.longLeg.currentPrice, p.shortLeg.currentPrice;
    if d.Evaluate(p).Rebalance? {
      HalfOf(delta, lp);
      HalfOf(delta, sp);
    }
  }

  lemma HalfOf(delta: real, price: real)
    requires price != 0.0
    ensures -(delta / 2.0) / price * price == -delta / 2.0
  {}

  /** While orders are under way nothing is decided. */
  lemma TransitionalDecision(d: PerpPerpDecider, p: Pair)
    requires p.status != Inactive && p.status != Active
    ensures d.Evaluate(p) == DoNothing
  {}

  // ---- evaluations of the engine -------------------------------------------------------------------

  /** A leg whose position has been reported fails its margin check. */
  predicate AtRisk(p: Pair, env: Env) {
    || (p.positionLong.Some? && !env.longMarginOk)
    || (p.positionShort.Some? && !env.shortMarginOk)
  }

  /** The side of the book that an order would take is known to be too thin. */
  predicate TooThin(quote: LegQuote, size: real) {
    || (size > 0.0 && quote.askDepth.Some? && quote.askDepth.value < size)
    || (size < 0.0 && quote.bidDepth.Some? && quote.bidDepth.value < -size)
  }

  predicate Thin(env: Env, a: DeciderAction)
    requires a.Enter? || a.Rebalance?
  {
    TooThin(env.longQuote, a.sizeLong) || TooThin(env.shortQuote, a.sizeShort)
  }

  /** The pair as an evaluation prices it: the quotes of this moment, or the last price without a mid. */
  function Priced(s: Engine, h: Handled): Pair {
    var p := Found(s, h);
    p.(longLeg := p.longLeg.(currentPrice := h.env.longQuote.mid.UnwrapOr(p.longLeg.currentPrice),
                             bestBid := h.env.longQuote.bid, bestAsk := h.env.longQuote.ask,
                             askDepth := h.env.longQuote.askDepth, bidDepth := h.env.longQuote.bidDepth),
       shortLeg := p.shortLeg.(currentPrice := h.env.shortQuote.mid.UnwrapOr(p.shortLeg.currentPrice),
                               bestBid := h.env.shortQuote.bid, bestAsk := h.env.shortQuote.ask,
                               askDepth := h.env.shortQuote.askDepth, bidDepth := h.env.shortQuote.bidDepth))
  }

  /** What an ungated evaluation executes of a pair with no orders under way, or with an entry under way. */
  function Due(d: PerpPerpDecider, s: Engine, h: Handled): Option<DeciderAction> {
    var a := d.Evaluate(Priced(s, h));
    if AtRisk(s.pair, h.env) then (if s.pair.status == Inactive then None else Some(Exit))
    else if (a.Enter? || a.Rebalance?) && Thin(h.env, a) then None
    else Some(a)
  }

  /** The engine that evaluates. */
  function Awake(s: Engine, h: Handled): Engine {
    Engine(Found(s, h), s.paused && !Resumes(h))
  }

  lemma StepEvaluates(d: PerpPerpDecider, s: Engine, h: Handled)
    requires Evaluates(s, h)
    ensures StepOf(d, s, h) == Evaluated(Awake(s, h), d, h.env)
  {}

  lemma ThinIsGated(a: DeciderAction, s: Engine, h: Handled)
    requires a.Enter? || a.Rebalance?
    ensures DepthGated(a, Priced(s, h)) <==> Thin(h.env, a)
  {}

  lemma EvaluationPerforms(d: PerpPerpDecider, s: Engine, h: Handled)
    requires Ungated(s, h) && !s.pair.status.Recovering? && !s.pair.status.Exiting? && !s.pair.status.Unwinding?
    requires !AtRisk(s.pair, h.env)
    ensures var q := Engine(Priced(s, h), false);
            Evaluated(Awake(s, h), d, h.env) ==
            if DepthGated(d.Evaluate(q.pair), q.pair) then Idle(q)
            else Perform(d.Evaluate(q.pair), q, h.env.replies)
  {
    assert Priced(s, h) == Found(s, h).Refresh(h.env.longQuote, h.env.shortQuote);
  }

  lemma EvaluationAtRisk(d: PerpPerpDecider, s: Engine, h: Handled)
    requires Ungated(s, h) && !s.pair.status.Recovering? && !s.pair.status.Exiting? && !s.pair.status.Unwinding?
    requires AtRisk(s.pair, h.env)
    ensures var step := Evaluated(Awake(s, h), d, h.env);
            && step.executed == (if s.pair.status == Inactive then None else Some(Exit))
            && (s.pair.status == Inactive ==> step.sent == [] && step.next.pair.status == Inactive)
  {}

  /** Which action an evaluation executes: none unless it is ungated; the exit of a pair at risk that is active
      or being entered; otherwise what is decided at the quotes of this moment, unless the book is too thin
      for it. An exit is never held back by the book. */
  lemma EvaluationExecutes(d: PerpPerpDecider, s: Engine, h: Handled)
    requires Evaluates(s, h) && (s.pair.status == Inactive || s.pair.status == Entering || s.pair.status == Active)
    ensures var step := StepOf(d, s, h);
            && step.executed == (if Ungated(s, h) then Due(d, s, h) else None)
            && (step.executed == None ==> step.sent == [] && step.next.pair.status == s.pair.status)
  {
    StepEvaluates(d, s, h);
    if Ungated(s, h) {
      var a := d.Evaluate(Priced(s, h));
      DecidedActions(d, Priced(s, h));
      if AtRisk(s.pair, h.env) {
        EvaluationAtRisk(d, s, h);
      } else {
        EvaluationPerforms(d, s, h);
        if a.Enter? || a.Rebalance? { ThinIsGated(a, s, h); }
      }
    }
  }

  lemma EntryExecuted(d: PerpPerpDecider, s: Engine, h: Handled)
    requires Ungated(s, h) && s.pair.status == Inactive && !AtRisk(s.pair, h.env)
    requires Due(d, s, h).Some? && Due(d, s, h).value.Enter?
    ensures var step, o := StepOf(d, s, h), Execute(Due(d, s, h).value, Priced(s, h), h.env.replies);
            step.sent == o.sent && step.next.pair == o.pair
  {
    StepEvaluates(d, s, h);
    EvaluationPerforms(d, s, h);
    ThinIsGated(Due(d, s, h).value, s, h);
  }

  /** A post-only limit order that opens a position. */
  function MakerOrder(leg: PerpLeg, side: OrderSide, price: real, size: real): OrderRequest {
    OrderRequest(leg.key, "perp_perp_arb", side, Limit, Some(price), size, true, false)
  }

  /** End to end: an ungated evaluation of a flat inactive pair that is not at risk buys the long leg at its bid
      and sells the short leg at its ask, each for the target notional, exactly if the rates are at least the
      threshold apart and neither book is known to be too thin. It sends nothing otherwise. */
  lemma EntryIsSent(d: PerpPerpDecider, s: Engine, h: Handled)
    requires Ungated(s, h) && s.pair.status == Inactive && s.pair.FullyExited() && !AtRisk(s.pair, h.env)
    requires Priced(s, h).longLeg.currentPrice > 0.0 && Priced(s, h).shortLeg.currentPrice > 0.0
    requires d.targetNotional > 0.0
    ensures var step, p := StepOf(d, s, h), Priced(s, h);
            var lp, sp := p.longLeg.currentPrice, p.shortLeg.currentPrice;
            var sizeLong, sizeShort := d.targetNotional / lp, d.targetNotional / sp;
            var enters := && RateDifference(Found(s, h)) >= d.minSpreadThreshold
                          && !TooThin(h.env.longQuote, sizeLong) && !TooThin(h.env.shortQuote, -sizeShort);
            var long := MakerOrder(p.longLeg, Buy, h.env.longQuote.bid.UnwrapOr(lp), sizeLong);
            var short := MakerOrder(p.shortLeg, Sell, h.env.shortQuote.ask.UnwrapOr(sp), sizeShort);
            && (!enters ==> step.sent == [] && step.next.pair.status == Inactive)
            && (enters ==>
                  && step.sent == [Submission(long, h.env.replies.longReply)]
                                  + (if h.env.replies.longReply.Refused? then []
                                     else [Submission(short, h.env.replies.shortReply)])
                  && (step.next.pair.status == Entering <==> AllAccepted(step.sent)))
  {
    var p := Priced(s, h);
    EvaluationExecutes(d, s, h);
    InactiveDecision(d, p);
    PositiveShare(d.targetNotional, p.longLeg.currentPrice);
    PositiveShare(d.targetNotional, p.shortLeg.currentPrice);
    if Due(d, s, h).Some? && Due(d, s, h).value.Enter? {
      EntryExecuted(d, s, h);
      EntryOrders(p, d.targetNotional / p.longLeg.currentPrice, d.targetNotional / p.shortLeg.currentPrice,
                  h.env.replies);
    }
  }

  lemma PositiveShare(x: real, y: real)
    requires x > 0.0 && y > 0.0
    ensures x / y > 0.0
  {}

  lemma EntryOrders(p: Pair, sizeLong: real, sizeShort: real, r: Replies)
    requires sizeLong > 0.0 && sizeShort > 0.0
    ensures var o := Execute(Enter(sizeLong, -sizeShort), p, r);
            var long := MakerOrder(p.longLeg, Buy, p.longLeg.bestBid.UnwrapOr(p.longLeg.currentPrice), sizeLong);
            var short := MakerOrder(p.shortLeg, Sell, p.shortLeg.bestAsk.UnwrapOr(p.shortLeg.currentPrice), sizeShort);
            && o.sent == [Submission(long, r.longReply)]
                         + (if r.longReply.Refused? then [] else [Submission(short, r.shortReply)])
            && (o.pair.status == Entering <==> AllAccepted(o.sent) || p.status == Entering)
  {}

  /** The order is cancelled for the strategy, or its id taken by a new one. */
  predicate Replaced(t: Tracker, sent: seq<Submission>, id: string) {
    SentUnder(sent, id) || (id in t.orders && t.orders[id].status == Cancelled)
  }

  /** Maker orders for the given sizes, the long one first; the second is missing only after a refusal. */
  predicate SendsMakers(p: Pair, sizeLong: real, sizeShort: real, sent: seq<Submission>) {
    var first := if sizeLong != 0.0 then 1 else 0;
    && |sent| >= first && (AllAccepted(sent) ==> |sent| == first + if sizeShort != 0.0 then 1 else 0)
    && (first == 1 ==> IsFor(p.longLeg, sizeLong, sent[0].request))
    && (|sent| > first ==> IsFor(p.shortLeg, sizeShort, sent[first].request))
  }

  /** An ungated evaluation that decides to rebalance asks to cancel whatever is in flight, marks it cancelled
      and sends maker orders for the corrections. */
  lemma RebalanceIsSent(d: PerpPerpDecider, s: Engine, h: Handled)
    requires Ungated(s, h) && s.pair.status == Active && !AtRisk(s.pair, h.env)
    requires d.Evaluate(Priced(s, h)).Rebalance? && !Thin(h.env, d.Evaluate(Priced(s, h)))
    ensures var step, a := StepOf(d, s, h), d.Evaluate(Priced(s, h));
            && step.cancels == (set id <- s.pair.tracker.orders | !s.pair.tracker.orders[id].status.IsTerminal())
            && (forall id <- step.cancels :: Replaced(step.next.pair.tracker, step.sent, id))
            && SendsMakers(Priced(s, h), a.sizeLong, a.sizeShort, step.sent)
  {
    var p, a := Priced(s, h), d.Evaluate(Priced(s, h));
    StepEvaluates(d, s, h);
    EvaluationPerforms(d, s, h);
    ThinIsGated(a, s, h);
    MakersSent(a, p, h.env.replies);
    forall id | id in p.tracker.Pending()
      ensures Replaced(Execute(a, p, h.env.replies).pair.tracker, Execute(a, p, h.env.replies).sent, id)
    {
      PendingReplaced(a, p, h.env.replies, id);
    }
  }

  lemma MakersSent(a: DeciderAction, p: Pair, r: Replies)
    requires a.Rebalance?
    ensures SendsMakers(p, a.sizeLong, a.sizeShort, Execute(a, p, r).sent)
  {
    OpeningOrdersJoin(a, p, r);
    var sent := Execute(a, p, r).sent;
    if |sent| > 0 && a.sizeLong != 0.0 { assert sent[0] in sent && sent[0].reply == r.longReply; }
  }

  lemma PendingReplaced(a: DeciderAction, p: Pair, r: Replies, id: string)
    requires a.Rebalance? && id in p.tracker.Pending()
    ensures Replaced(Execute(a, p, r).pair.tracker, Execute(a, p, r).sent, id)
  {
    DispatchRecords(CancelReplaced(p), LegOrder(a.sizeLong, Some(RebalancePrice(p.longLeg, a.sizeLong))),
                    LegOrder(a.sizeShort, Some(RebalancePrice(p.shortLeg, a.sizeShort))), false, None, r, id);
  }

  // ---- the other inputs ----------------------------------------------------------------------------

  /** `ForceExit` exits exactly if a position is left, `GracefulExit` starts an unwind exactly if the pair is
      active, and apart from `Resume`, which evaluates, no other command sends anything. */
  lemma CommandActsIff(d: PerpPerpDecider, s: Engine, c: Command, env: Env)
    requires !c.Resume?
    ensures var step := StepOf(d, s, Handled(StrategyCommand(c), env));
            var flat := s.pair.longLeg.positionSize == 0.0 && s.pair.shortLeg.positionSize == 0.0;
            && (step.executed == Some(Exit) <==> c == ForceExit && !flat)
            && (step.executed.Some? && step.executed.value.Unwind? <==> c == GracefulExit && s.pair.status == Active)
            && (step.executed.Some? ==> step.executed.value.Exit? || step.executed.value.Unwind?)
            && (step.executed == None ==> step.sent == [] && step.next.pair == s.pair)
  {}

  /** The engine is paused after a step exactly if the step was the command to pause, or if it was paused
      before and not resumed, or if an evaluation met a pair at risk that is active or being entered. */
  lemma PausedAfterIff(d: PerpPerpDecider, s: Engine, h: Handled)
    ensures StepOf(d, s, h).next.paused <==>
            || h.input == StrategyCommand(Pause)
            || (s.paused && !Resumes(h))
            || (Ungated(s, h) && (s.pair.status == Active || s.pair.status == Entering) && AtRisk(s.pair, h.env))
  {
    match h.input {
      case OrderUpdate(e) =>
        var (pair, continuation) := TrackerTransition(s.pair.(tracker := TrackEvent(s.pair.tracker, e)));
        PerformStatus(continuation.UnwrapOr(DoNothing), s.(pair := pair), h.env.replies);
      case _ =>
        if Evaluates(s, h) { StepEvaluates(d, s, h); }
    }
  }

  /** The timer asks to cancel exactly the aged orders that have not ended, and spares entries and recoveries. */
  lemma AgedOrdersAreCancelled(d: PerpPerpDecider, s: Engine, aged: set<string>, env: Env)
    ensures var step, orders := StepOf(d, s, Handled(StaleTick(aged), env)), s.pair.tracker.orders;
            && step.next == s && step.sent == []
            && step.cancels == if s.pair.status == Entering || s.pair.status == Recovering then {}
                               else set id <- orders | id in aged && !orders[id].status.IsTerminal()
  {}

  /** An order event moves the pair on exactly if it leaves no order of a pair in transition that has not
      ended: to active with both legs present, to inactive with both at zero, and otherwise on to a recovery
      or another closing order. */
  lemma OrderEventSettles(d: PerpPerpDecider, s: Engine, h: Handled)
    requires h.input.OrderUpdate?
    ensures var step, p := StepOf(d, s, h), s.pair;
            var settled := AllEnded(TrackEvent(p.tracker, h.input.event)) && p.status != Active && p.status != Inactive;
            var opening := p.status == Entering || p.status == Recovering;
            && (!settled ==> step.executed == None && step.next.pair.status == p.status)
            && (settled && opening ==>
                  && step.next.pair.status == (if p.FullyEntered() then Active else Recovering)
                  && (step.executed.Some? <==> !p.FullyEntered() && Restorable(p))
                  && (step.executed.Some? ==> step.executed.value.Recover?))
            && (settled && !opening ==>
                  && step.next.pair.status == (if p.FullyExited() then Inactive else p.status)
                  && (step.executed.Some? <==> !p.FullyExited())
                  && (step.executed.Some? ==> if p.status == Exiting then step.executed.value.Exit?
                                              else step.executed.value.Unwind?)
                  && (p.FullyExited() && p.status == Unwinding ==> step.next.pair.tracker.schedule == None))
  {
    var q := s.pair.(tracker := TrackEvent(s.pair.tracker, h.input.event));
    AllEndedIff(q.tracker);
    assert Restorable(s.pair) <==> q.RecoverAction().Some?;
    var (pair, continuation) := TrackerTransition(q);
    PerformStatus(continuation.UnwrapOr(DoNothing), s.(pair := pair), h.env.replies);
  }

  /** Market data and position reports send nothing, nor does a funding rate of another instrument, which
      changes nothing either. */
  lemma ReportsSendNothing(d: PerpPerpDecider, s: Engine, h: Handled)
    requires h.input.MarketData? || h.input.PositionUpdate? || (h.input.FundingRate? && !Evaluates(s, h))
    ensures var step := StepOf(d, s, h);
            && step.executed == None && step.sent == [] && step.cancels == {} && step.next.paused == s.paused
            && (!h.input.PositionUpdate? ==> step.next == s)
  {}

  /** A position report makes the pair active exactly if it is about one of its legs, the pair was inactive or
      being entered and both legs are then present; it leaves any other status as it was. */
  lemma PositionActivatesIff(d: PerpPerpDecider, s: Engine, p: Position, env: Env)
    requires s.pair.longLeg.key != s.pair.shortLeg.key
    ensures var long := if p.key == s.pair.longLeg.key then p.size else s.pair.longLeg.positionSize;
            var short := if p.key == s.pair.shortLeg.key then p.size else s.pair.shortLeg.positionSize;
            StepOf(d, s, Handled(PositionUpdate(p), env)).next.pair.status ==
            if (s.pair.status == Inactive || s.pair.status == Entering) && long != 0.0 && short != 0.0
               && p.key in {s.pair.longLeg.key, s.pair.shortLeg.key}
            then Active else s.pair.status
  {}

  // ---- prices --------------------------------------------------------------------------------------

  /** The step looks at the quotes: an ungated evaluation of a pair without orders to wait for, or being entered. */
  predicate Quotes(s: Engine, h: Handled) {
    Ungated(s, h) && (s.pair.status == Inactive || s.pair.status == Entering || s.pair.status == Active)
  }

  /** The mark price of a funding rate is taken only while no price is known. */
  function Marked(leg: PerpLeg, h: Handled): real {
    if h.input.FundingRate? && h.input.funding.key == leg.key && leg.currentPrice == 0.0 then h.input.funding.markPrice
    else leg.currentPrice
  }

  predicate PricedBy(before: PerpLeg, after: PerpLeg, quotes: bool, quote: LegQuote, h: Handled) {
    && after.currentPrice == (if quotes && quote.mid.Some? then quote.mid.value else Marked(before, h))
    && (if quotes then after.bestBid == quote.bid && after.bestAsk == quote.ask
                       && after.askDepth == quote.askDepth && after.bidDepth == quote.bidDepth
        else after.bestBid == before.bestBid && after.bestAsk == before.bestAsk
             && after.askDepth == before.askDepth && after.bidDepth == before.bidDepth)
  }

  /** What a step does to the prices of a leg: the quotes of the moment replace them if it looks at them, and
      otherwise only a mark price can, in place of an unknown one. */
  lemma PriceAfterStep(d: PerpPerpDecider, s: Engine, h: Handled)
    requires s.pair.longLeg.key != s.pair.shortLeg.key
    ensures var t := StepOf(d, s, h).next;
            && PricedBy(s.pair.longLeg, t.pair.longLeg, Quotes(s, h), h.env.longQuote, h)
            && PricedBy(s.pair.shortLeg, t.pair.shortLeg, Quotes(s, h), h.env.shortQuote, h)
  {
    var step := StepOf(d, s, h);
    if Quotes(s, h) {
      StepEvaluates(d, s, h);
      var q := Priced(s, h);
      assert q == Found(s, h).Refresh(h.env.longQuote, h.env.shortQuote);
      ExecutionKnows(d.Evaluate(q), q, h.env.replies);
      ExecutionKnows(Exit, q.WithoutTerminal(), h.env.replies);
    } else {
      UnquotedLegs(d, s, h);
    }
  }

  lemma UnquotedLegs(d: PerpPerpDecider, s: Engine, h: Handled)
    requires !Quotes(s, h)
    ensures var p, q := StepOf(d, s, h).next.pair, Informed(s, h);
            p.longLeg == q.longLeg && p.shortLeg == q.shortLeg
  {
    match h.input {
      case OrderUpdate(e) =>
        var (pair, continuation) := TrackerTransition(Informed(s, h));
        PerformStatus(continuation.UnwrapOr(DoNothing), s.(pair := pair), h.env.replies);
      case StrategyCommand(c) =>
        if Evaluates(s, h) {
          StepEvaluates(d, s, h);
          UnquotedRetries(Awake(s, h), h.env.replies);
        } else {
          UnquotedCommand(d, s, c, h.env);
        }
      case _ =>
        if Evaluates(s, h) {
          StepEvaluates(d, s, h);
          UnquotedRetries(Awake(s, h), h.env.replies);
        }
    }
  }

  lemma UnquotedCommand(d: PerpPerpDecider, s: Engine, c: Command, env: Env)
    requires !c.Resume?
    ensures var p := Commanded(s, c, d, env).next.pair; p.longLeg == s.pair.longLeg && p.shortLeg == s.pair.shortLeg
  {
    match c {
      case GracefulExit =>
        var (rl, rs) := s.pair.CloseSizes();
        var (schedule, action) := NextUnwind(Some(Schedule(DEFAULT_UNWIND_CHUNKS, 0)), rl, rs);
        PerformStatus(action, s.(pair := WithSchedule(s.pair, schedule)), env.replies);
      case ForceExit =>
        PerformStatus(Exit, s, env.replies);
      case _ =>
    }
  }

  lemma UnquotedRetries(s: Engine, r: Replies)
    ensures var p := ExitRetried(s, r).next.pair; p.longLeg == s.pair.longLeg && p.shortLeg == s.pair.shortLeg
    ensures var p := RecoveryRetried(s, r).next.pair; p.longLeg == s.pair.longLeg && p.shortLeg == s.pair.shortLeg
  {
    var cleaned := s.(pair := s.pair.WithoutTerminal());
    PerformStatus(cleaned.pair.RecoverAction().UnwrapOr(DoNothing), cleaned, r);
    PerformStatus(Exit, cleaned, r);
  }
}
