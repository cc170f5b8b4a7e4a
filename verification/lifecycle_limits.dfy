/** Where the lifecycle falls short of what one would expect, with the exact conditions: unwinds that
    stall, closings with orders in flight, and what a pause does not stop. */
module LifecycleLimits {
  import opened Types
  import opened ArbitrageTypes
  import opened PerpPair
  import opened Decider
  import opened Execution
  import opened EngineLoop
  import opened Lifecycle

  // ---- stalled unwinds ---------------------------------------------------------------------------

  /** Unwinding with no order on record. */
  predicate Stalled(s: Engine) {
    s.pair.status.Unwinding? && s.pair.tracker.orders == map[]
  }

  /** The inputs that can get a stalled unwind going again. */
  predicate Revives(h: Handled) {
    h.input.OrderUpdate? || h.input == StrategyCommand(ForceExit)
  }

  /** A stalled unwind with a position left acts on exactly two inputs: an order event, which must then
      be about an order the pair does not track, and a forced exit. */
  lemma StalledUnwindActsIff(d: PerpPerpDecider, s: Engine, h: Handled)
    requires Stalled(s) && !s.pair.FullyExited()
    ensures StepOf(d, s, h).executed.Some? <==> Revives(h)
  {}

  /** A flat unwinding pair is closed by exactly the order event that leaves nothing in flight; no
      poll, position report or command closes it. */
  lemma FlatUnwindClosesIff(d: PerpPerpDecider, s: Engine, h: Handled)
    requires s.pair.status.Unwinding? && s.pair.FullyExited()
    ensures !StatusOf(StepOf(d, s, h).next, Unwinding) <==>
            h.input.OrderUpdate? && !TrackEvent(s.pair.tracker, h.input.event).HasPending()
  {}

  /** When the order event that continues an unwind meets a refusal of either leg, the pair is left
      stalled with its positions as reported. */
  lemma RefusedChunkStalls(d: PerpPerpDecider, s: Engine, e: OrderEvent, env: Env)
    requires s.pair.status.Unwinding? && !TrackEvent(s.pair.tracker, e).HasPending()
    requires || (s.pair.longLeg.positionSize != 0.0 && env.replies.longReply.Refused?)
             || (s.pair.shortLeg.positionSize != 0.0 && env.replies.shortReply.Refused?)
    ensures var t := StepOf(d, s, Handled(OrderUpdate(e), env)).next;
            Stalled(t) && SamePositions(s.pair, t.pair)
  {
    var p := s.pair.(tracker := TrackEvent(s.pair.tracker, e));
    assert p.tracker.RemoveTerminal().orders == map[];
    var a := NextUnwind(p.tracker.schedule, -p.longLeg.positionSize, -p.shortLeg.positionSize).1;
    assert p.longLeg.positionSize != 0.0 ==> a.sizeLong != 0.0;
    assert p.shortLeg.positionSize != 0.0 ==> a.sizeShort != 0.0;
  }

  /** Over any stretch of a run an unwinding pair stays so as long as there is no order event and no forced
      exit of a pair that is not flat: polls, reports, funding rates and other commands never end it. */
  lemma {:induction false} UnwindingRunStays(
    d: PerpPerpDecider, states: seq<Engine>, inputs: seq<Handled>, i: nat, j: nat)
    requires IsRun(d, states, inputs) && i <= j < |states| && StatusOf(states[i], Unwinding)
    requires forall k :: i <= k < j ==> !EndsUnwinding(states[k], inputs[k])
    ensures StatusOf(states[j], Unwinding)
    decreases j
  {
    if i < j {
      UnwindingRunStays(d, states, inputs, i, j - 1);
      UnwindingStep(d, states[j - 1], inputs[j - 1]);
    }
  }

  predicate EndsUnwinding(s: Engine, h: Handled) {
    h.input.OrderUpdate? || (h.input == StrategyCommand(ForceExit) && !s.pair.FullyExited())
  }

  lemma UnwindingStep(d: PerpPerpDecider, s: Engine, h: Handled)
    requires StatusOf(s, Unwinding) && !EndsUnwinding(s, h)
    ensures StatusOf(StepOf(d, s, h).next, Unwinding)
  {}

  /** Over any stretch of a run without those two inputs a stalled unwind stays stalled and sends
      nothing, whatever is polled, reported, quoted or commanded meanwhile. */
  lemma {:induction false} StalledRunStays(
    d: PerpPerpDecider, states: seq<Engine>, inputs: seq<Handled>, i: nat, j: nat)
    requires IsRun(d, states, inputs) && i <= j < |inputs| && Stalled(states[i])
    requires forall k :: i <= k <= j ==> !Revives(inputs[k])
    ensures Stalled(states[j]) && Stalled(states[j + 1])
    ensures StepOf(d, states[j], inputs[j]).executed.None? && StepOf(d, states[j], inputs[j]).sent == []
    decreases j
  {
    if i < j {
      StalledRunStays(d, states, inputs, i, j - 1);
    }
    StalledStep(d, states[j], inputs[j]);
  }

  lemma StalledStep(d: PerpPerpDecider, s: Engine, h: Handled)
    requires Stalled(s) && !Revives(h)
    ensures var step := StepOf(d, s, h); Stalled(step.next) && step.executed.None? && step.sent == []
  {}

  // ---- closed with orders in flight ----------------------------------------------------------------

  /** A step that makes the pair inactive leaves orders in flight exactly if there were some and it was
      not an order event: polls close a flat exiting pair without looking at the tracker. */
  lemma ClosedWithOrdersInFlightIff(d: PerpPerpDecider, s: Engine, h: Handled)
    requires !StatusOf(s, Inactive) && StatusOf(StepOf(d, s, h).next, Inactive)
    ensures StepOf(d, s, h).next.pair.tracker.HasPending() <==>
            !h.input.OrderUpdate? && s.pair.tracker.HasPending()
  {
    match h.input {
      case OrderUpdate(e) =>
        OrderEventCloses(s, e, h.env.replies);
      case FundingRate(f) =>
        PollCloses(s.(pair := s.pair.ApplyFunding(f)), d, h.env);
      case StrategyCommand(c) =>
        CommandCloses(s, c, d, h.env);
      case EvalTick =>
        PollCloses(s, d, h.env);
      case _ =>
    }
  }

  lemma PollCloses(s: Engine, d: PerpPerpDecider, env: Env)
    requires !StatusOf(s, Inactive) && StatusOf(Evaluated(s, d, env).next, Inactive)
    ensures Evaluated(s, d, env).next.pair.tracker.Pending() == s.pair.tracker.Pending()
  {
    RemoveTerminalKeepsPending(s.pair.tracker);
    var cleaned := s.(pair := s.pair.WithoutTerminal());
    PerformStatus(cleaned.pair.RecoverAction().UnwrapOr(DoNothing), cleaned, env.replies);
    var q := Refreshed(s, env);
    PerformStatus(d.Evaluate(q.pair), q, env.replies);
    PerformStatus(Exit, q.(pair := q.pair.WithoutTerminal()), env.replies);
  }

  lemma CommandCloses(s: Engine, c: Command, d: PerpPerpDecider, env: Env)
    requires !StatusOf(s, Inactive) && StatusOf(Commanded(s, c, d, env).next, Inactive)
    ensures Commanded(s, c, d, env).next.pair.tracker.Pending() == s.pair.tracker.Pending()
  {
    match c {
      case Resume =>
        PollCloses(s.(paused := false), d, env);
      case _ =>
    }
  }

  lemma OrderEventCloses(s: Engine, e: OrderEvent, r: Replies)
    requires !StatusOf(s, Inactive)
    ensures var (pair, continuation) := TrackerTransition(s.pair.(tracker := TrackEvent(s.pair.tracker, e)));
            var t := PerformIfSome(continuation, s.(pair := pair), r).next;
            StatusOf(t, Inactive) ==> !t.pair.tracker.HasPending()
  {
    var p := s.pair.(tracker := TrackEvent(s.pair.tracker, e));
    RemoveTerminalKeepsPending(p.tracker);
    var (pair, continuation) := TrackerTransition(p);
    PerformStatus(continuation.UnwrapOr(DoNothing), s.(pair := pair), r);
  }

  // ---- what a pause does not stop ------------------------------------------------------------------

  /** An order event that leaves nothing in flight, of a pair that is closing and not yet flat, or that is
      entering or recovering and can be repaired. */
  predicate Continues(s: Engine, h: Handled) {
    && h.input.OrderUpdate? && !TrackEvent(s.pair.tracker, h.input.event).HasPending()
    && match s.pair.status
       case Exiting => !s.pair.FullyExited()
       case Unwinding => !s.pair.FullyExited()
       case Entering => s.pair.RecoverySizes().Some?
       case Recovering => s.pair.RecoverySizes().Some?
       case _ => false
  }

  /** The command starts to close the pair. */
  predicate ClosesByCommand(s: Engine, h: Handled) {
    || (h.input == StrategyCommand(GracefulExit) && StatusOf(s, Active))
    || (h.input == StrategyCommand(ForceExit) && !s.pair.FullyExited())
  }

  /** While paused the engine acts exactly when an order event continues what is under way, or when a
      command starts a closing; what it then does is to exit, unwind or recover. */
  lemma PausedActsIff(d: PerpPerpDecider, s: Engine, h: Handled)
    requires s.paused && !Resumes(h)
    ensures var executed := StepOf(d, s, h).executed;
            && (executed.Some? <==> Continues(s, h) || ClosesByCommand(s, h))
            && (executed.Some? ==> Closing(executed.value) || executed.value.Recover?)
            && (ClosesByCommand(s, h) ==> Closing(executed.value))
  {}

  /** The same at every step of a run between a pause and the next resumption. */
  lemma PausedRunActsIff(d: PerpPerpDecider, states: seq<Engine>, inputs: seq<Handled>, i: nat, j: nat)
    requires IsRun(d, states, inputs) && i <= j < |inputs| && states[i].paused
    requires forall k :: i <= k <= j ==> !Resumes(inputs[k])
    ensures var executed := StepOf(d, states[j], inputs[j]).executed;
            && (executed.Some? <==> Continues(states[j], inputs[j]) || ClosesByCommand(states[j], inputs[j]))
            && (executed.Some? ==> Closing(executed.value) || executed.value.Recover?)
  {
    PausedRunOpensNothing(d, states, inputs, i, j);
    PausedActsIff(d, states[j], inputs[j]);
  }

  /** A paused engine whose long leg holds one unit, with nothing in flight. */
  function PausedHolding(status: PairStatus): Engine {
    var key := InstrumentKey(Binance, BTCUSDT, Swap);
    var other := InstrumentKey(Bybit, BTCUSDT, Swap);
    var p := NewPair(key, other, Positive);
    Engine(p.(status := status, tracker := Tracker(map[], Some(Schedule(4, 4))),
              longLeg := p.longLeg.(positionSize := 1.0, currentPrice := 1.0),
              shortLeg := p.shortLeg.(currentPrice := 1.0)), true)
  }

  /** So a pause stops no exit and no unwind: paused engines that send orders on an order event. */
  lemma PausedOrderEventCloses(d: PerpPerpDecider, e: OrderEvent, env: Env)
    ensures StepOf(d, PausedHolding(Exiting), Handled(OrderUpdate(e), env)).executed == Some(Exit)
    ensures StepOf(d, PausedHolding(Unwinding), Handled(OrderUpdate(e), env)).executed == Some(Unwind(-1.0, 0.0))
  {
    var none: map<string, TrackedOrder> := map[];
    assert TrackEvent(Tracker(none, Some(Schedule(4, 4))), e) == Tracker(none, Some(Schedule(4, 4)));
  }

  /** Nor a recovery, which buys or sells the missing leg. */
  lemma PausedOrderEventRecovers(d: PerpPerpDecider, e: OrderEvent, env: Env)
    ensures StepOf(d, PausedHolding(Recovering), Handled(OrderUpdate(e), env)).executed == Some(Recover(0.0, -1.0))
  {
    var none: map<string, TrackedOrder> := map[];
    assert TrackEvent(Tracker(none, Some(Schedule(4, 4))), e) == Tracker(none, Some(Schedule(4, 4)));
    assert PausedHolding(Recovering).pair.MissingLegSizes(1.0, 1.0) == Some((0.0, -1.0));
  }

  /** And an unwind can even start during a pause. */
  lemma PausedCommandUnwinds(d: PerpPerpDecider, env: Env)
    ensures StepOf(d, PausedHolding(Active), Handled(StrategyCommand(GracefulExit), env)).executed ==
            Some(Unwind(-0.25, 0.0))
  {}
}
