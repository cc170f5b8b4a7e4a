/** Safety of the pair lifecycle over every run of events, commands and timers. */
module Lifecycle {
  import opened Types
  import opened Instruments
  import opened ArbitrageTypes
  import opened PerpPair
  import opened Decider
  import opened Execution
  import opened EngineLoop
  import opened UnwindArithmetic

  datatype Handled = Handled(input: Input, env: Env)

  function StepOf(d: PerpPerpDecider, s: Engine, h: Handled): Step {
    Next(s, h.input, d, h.env)
  }

  /** Prices and quotes as an evaluation sees them. */
  function Refreshed(s: Engine, env: Env): Engine {
    s.(pair := s.pair.Refresh(env.longQuote, env.shortQuote))
  }

  ghost predicate IsRun(d: PerpPerpDecider, states: seq<Engine>, inputs: seq<Handled>) {
    && |states| == |inputs| + 1
    && forall i :: 0 <= i < |inputs| ==> states[i + 1] == StepOf(d, states[i], inputs[i]).next
  }

  // ---- the transition relation -----------------------------------------------------------------

  predicate StatusOf(s: Engine, status: PairStatus) {
    s.pair.status == status
  }

  /** The lifecycle diagram, with what must hold of the legs when a status is entered. */
  predicate AllowedChange(s: Engine, t: Engine) {
    var from := s.pair.status;
    t.pair.status == from ||
    match t.pair.status
    case Inactive => (from.Exiting? || from.Unwinding?) && t.pair.FullyExited()
    case Active => (from.Inactive? || from.Entering? || from.Recovering?) && t.pair.FullyEntered()
    case Entering => from.Inactive? && !t.paused
    case Recovering => from.Entering? && !t.pair.FullyEntered()
    case Exiting => from.Active? || from.Entering? || !t.pair.FullyExited()
    case Unwinding => from.Active?
  }

  lemma DispatchKeeps(p: Pair, long: LegOrder, short: LegOrder, reduceOnly: bool, next: Option<PairStatus>, r: Replies)
    ensures var q := DispatchLegs(p, long, short, reduceOnly, next, r).pair;
            && (q.status == p.status || q.status == next.UnwrapOr(p.status))
            && q.longLeg == p.longLeg && q.shortLeg == p.shortLeg
            && q.tracker.schedule == p.tracker.schedule && (p.tracker.Valid() ==> q.tracker.Valid())
  {}

  /** An action changes nothing of the pair but its orders and, to its target, the status. */
  predicate ChangedBy(action: DeciderAction, p: Pair, q: Pair) {
    && (q.status == p.status || q.status == TargetStatus(action, p.status))
    && q.longLeg == p.longLeg && q.shortLeg == p.shortLeg
    && q.tracker.schedule == p.tracker.schedule && (p.tracker.Valid() ==> q.tracker.Valid())
  }

  lemma OpeningStatus(action: DeciderAction, p: Pair, r: Replies)
    requires action.Enter? || action.Recover?
    ensures ChangedBy(action, p, Execute(action, p, r).pair)
  {
    var (lp, sp) := p.EntryPrices();
    DispatchKeeps(p, LegOrder(action.sizeLong, Some(lp)), LegOrder(action.sizeShort, Some(sp)), false,
                  Some(TargetStatus(action, p.status)), r);
  }

  lemma RebalanceStatus(sl: real, ss: real, p: Pair, r: Replies)
    ensures ChangedBy(Rebalance(sl, ss), p, Execute(Rebalance(sl, ss), p, r).pair)
  {
    DispatchKeeps(CancelReplaced(p), LegOrder(sl, Some(RebalancePrice(p.longLeg, sl))),
                  LegOrder(ss, Some(RebalancePrice(p.shortLeg, ss))), false, None, r);
  }

  lemma ExitStatus(p: Pair, r: Replies)
    ensures ChangedBy(Exit, p, Execute(Exit, p, r).pair)
  {
    DispatchKeeps(p, LegOrder(-p.longLeg.positionSize, None), LegOrder(-p.shortLeg.positionSize, None), true,
                  Some(Exiting), r);
  }

  lemma UnwindStatus(sl: real, ss: real, p: Pair, r: Replies)
    ensures ChangedBy(Unwind(sl, ss), p, Execute(Unwind(sl, ss), p, r).pair)
  {
    DispatchKeeps(p, LegOrder(sl, None), LegOrder(ss, None), true, Some(Unwinding), r);
  }

  lemma PerformStatus(action: DeciderAction, s: Engine, r: Replies)
    ensures var t := Perform(action, s, r).next;
            t.paused == s.paused && ChangedBy(action, s.pair, t.pair)
  {
    match action {
      case Enter(_, _) => OpeningStatus(action, s.pair, r);
      case Recover(_, _) => OpeningStatus(action, s.pair, r);
      case Rebalance(sl, ss) => RebalanceStatus(sl, ss, s.pair, r);
      case Exit => ExitStatus(s.pair, r);
      case Unwind(sl, ss) => UnwindStatus(sl, ss, s.pair, r);
      case DoNothing =>
    }
  }

  lemma DecidedActions(d: PerpPerpDecider, p: Pair)
    ensures var a := d.Evaluate(p);
            && (a.Enter? ==> p.status.Inactive?) && (a.Exit? || a.Rebalance? ==> p.status.Active?)
            && !a.Recover? && !a.Unwind?
  {}

  lemma EvaluatedChange(s: Engine, d: PerpPerpDecider, env: Env)
    ensures AllowedChange(s, Evaluated(s, d, env).next)
  {
    if !s.paused && env.accountOk {
      match s.pair.status {
        case Recovering =>
          var cleaned := s.(pair := s.pair.WithoutTerminal());
          PerformStatus(cleaned.pair.RecoverAction().UnwrapOr(DoNothing), cleaned, env.replies);
        case Exiting =>
          PerformStatus(Exit, s.(pair := s.pair.WithoutTerminal()), env.replies);
        case Unwinding =>
        case _ =>
          var q := Refreshed(s, env);
          DecidedActions(d, q.pair);
          PerformStatus(d.Evaluate(q.pair), q, env.replies);
          PerformStatus(Exit, q.(pair := q.pair.WithoutTerminal()), env.replies);
      }
    }
  }

  lemma OrderUpdateChange(s: Engine, e: OrderEvent, r: Replies)
    ensures var (pair, continuation) := TrackerTransition(s.pair.(tracker := TrackEvent(s.pair.tracker, e)));
            AllowedChange(s, PerformIfSome(continuation, s.(pair := pair), r).next)
  {
    var (pair, continuation) := TrackerTransition(s.pair.(tracker := TrackEvent(s.pair.tracker, e)));
    PerformStatus(continuation.UnwrapOr(DoNothing), s.(pair := pair), r);
  }

  lemma CommandedChange(s: Engine, c: Command, d: PerpPerpDecider, env: Env)
    ensures AllowedChange(s, Commanded(s, c, d, env).next)
  {
    match c {
      case GracefulExit =>
        var (rl, rs) := s.pair.CloseSizes();
        var (schedule, action) := NextUnwind(Some(Schedule(DEFAULT_UNWIND_CHUNKS, 0)), rl, rs);
        PerformStatus(action, s.(pair := WithSchedule(s.pair, schedule)), env.replies);
      case ForceExit =>
        PerformStatus(Exit, s, env.replies);
      case Resume =>
        EvaluatedChange(s.(paused := false), d, env);
      case _ =>
    }
  }

  /** Every handled event, command or timer respects the diagram. */
  lemma StepChange(d: PerpPerpDecider, s: Engine, h: Handled)
    ensures AllowedChange(s, StepOf(d, s, h).next)
  {
    match h.input {
      case OrderUpdate(e) =>
        OrderUpdateChange(s, e, h.env.replies);
      case FundingRate(f) =>
        EvaluatedChange(s.(pair := s.pair.ApplyFunding(f)), d, h.env);
      case StrategyCommand(c) =>
        CommandedChange(s, c, d, h.env);
      case EvalTick =>
        EvaluatedChange(s, d, h.env);
      case _ =>
    }
  }

  // ---- a run invariant -------------------------------------------------------------------------

  /** An unwinding pair always has its schedule, with the first chunk already dispatched. */
  predicate Consistent(s: Engine) {
    && s.pair.tracker.Valid()
    && (s.pair.status.Unwinding? ==>
          s.pair.tracker.schedule.Some? && s.pair.tracker.schedule.value.chunksDispatched >= 1)
  }

  /** Nothing but a step into Unwinding can spoil consistency. */
  lemma ConsistentAfter(s: Engine, t: Engine)
    requires Consistent(s) && t.pair.tracker.Valid() && t.pair.tracker.schedule == s.pair.tracker.schedule
    requires t.pair.status.Unwinding? ==> s.pair.status.Unwinding?
    ensures Consistent(t)
  {}

  lemma EvaluatedConsistent(s: Engine, d: PerpPerpDecider, env: Env)
    requires Consistent(s)
    ensures Consistent(Evaluated(s, d, env).next)
  {
    EvaluatedKeepsTracker(s, d, env);
    EvaluatedUnwinds(s, d, env);
    ConsistentAfter(s, Evaluated(s, d, env).next);
  }

  lemma EvaluatedUnwinds(s: Engine, d: PerpPerpDecider, env: Env)
    ensures Evaluated(s, d, env).next.pair.status.Unwinding? ==> s.pair.status.Unwinding?
  {
    var q := Refreshed(s, env);
    DecidedActions(d, q.pair);
  }

  predicate KeepsTracker(s: Engine, t: Engine) {
    s.pair.tracker.Valid() ==> t.pair.tracker.Valid() && t.pair.tracker.schedule == s.pair.tracker.schedule
  }

  lemma RetriesKeepTracker(s: Engine, r: Replies)
    ensures KeepsTracker(s, RecoveryRetried(s, r).next) && KeepsTracker(s, ExitRetried(s, r).next)
  {
    RemoveTerminalKeepsPending(s.pair.tracker);
    var cleaned := s.(pair := s.pair.WithoutTerminal());
    PerformStatus(cleaned.pair.RecoverAction().UnwrapOr(DoNothing), cleaned, r);
    PerformStatus(Exit, cleaned, r);
  }

  lemma DecisionsKeepTracker(s: Engine, d: PerpPerpDecider, env: Env)
    ensures KeepsTracker(s, Decide(s, d, env).next) && KeepsTracker(s, EmergencyExit(s, env.replies).next)
  {
    RemoveTerminalKeepsPending(s.pair.tracker);
    PerformStatus(d.Evaluate(s.pair), s, env.replies);
    PerformStatus(Exit, s.(pair := s.pair.WithoutTerminal()), env.replies);
  }

  lemma EvaluatedKeepsTracker(s: Engine, d: PerpPerpDecider, env: Env)
    ensures KeepsTracker(s, Evaluated(s, d, env).next)
  {
    RetriesKeepTracker(s, env.replies);
    DecisionsKeepTracker(Refreshed(s, env), d, env);
  }

  lemma OrderUpdateConsistent(s: Engine, e: OrderEvent, r: Replies)
    requires Consistent(s)
    ensures var (pair, continuation) := TrackerTransition(s.pair.(tracker := TrackEvent(s.pair.tracker, e)));
            Consistent(PerformIfSome(continuation, s.(pair := pair), r).next)
  {
    var p := s.pair.(tracker := TrackEvent(s.pair.tracker, e));
    RemoveTerminalKeepsPending(p.tracker);
    var (pair, continuation) := TrackerTransition(p);
    assert Consistent(s.(pair := pair));
    if continuation.Some? {
      PerformStatus(continuation.value, s.(pair := pair), r);
      assert continuation.value.Unwind? ==> pair.status.Unwinding?;
    }
  }

  lemma CommandedConsistent(s: Engine, c: Command, d: PerpPerpDecider, env: Env)
    requires Consistent(s)
    ensures Consistent(Commanded(s, c, d, env).next)
  {
    match c {
      case GracefulExit =>
        var (rl, rs) := s.pair.CloseSizes();
        var (schedule, action) := NextUnwind(Some(Schedule(DEFAULT_UNWIND_CHUNKS, 0)), rl, rs);
        PerformStatus(action, s.(pair := WithSchedule(s.pair, schedule)), env.replies);
      case ForceExit =>
        PerformStatus(Exit, s, env.replies);
      case Resume =>
        EvaluatedConsistent(s.(paused := false), d, env);
      case _ =>
    }
  }

  lemma StepConsistent(d: PerpPerpDecider, s: Engine, h: Handled)
    requires Consistent(s)
    ensures Consistent(StepOf(d, s, h).next)
  {
    match h.input {
      case OrderUpdate(e) =>
        OrderUpdateConsistent(s, e, h.env.replies);
      case FundingRate(f) =>
        EvaluatedConsistent(s.(pair := s.pair.ApplyFunding(f)), d, h.env);
      case StrategyCommand(c) =>
        CommandedConsistent(s, c, d, h.env);
      case EvalTick =>
        EvaluatedConsistent(s, d, h.env);
      case _ =>
    }
  }

  /** Over every run of a freshly started engine all changes follow the diagram, and the state in
      which an unwinding pair lacks its schedule never arises. */
  lemma {:induction false} LifecycleHoldsOnEveryRun(
    d: PerpPerpDecider, states: seq<Engine>, inputs: seq<Handled>, longKey: InstrumentKey,
    shortKey: InstrumentKey, carry: CarryDirection, n: nat)
    requires IsRun(d, states, inputs) && states[0] == NewEngine(longKey, shortKey, carry)
    requires n <= |inputs|
    ensures Consistent(states[n])
    ensures n < |inputs| ==> AllowedChange(states[n], states[n + 1])
  {
    if n > 0 {
      LifecycleHoldsOnEveryRun(d, states, inputs, longKey, shortKey, carry, n - 1);
      StepConsistent(d, states[n - 1], inputs[n - 1]);
    }
    if n < |inputs| {
      StepChange(d, states[n], inputs[n]);
    }
  }

  /** The step that ends an episode: a closing status left with both legs at zero. */
  ghost predicate ClosesAt(states: seq<Engine>, k: int)
    requires 0 <= k < |states| - 1
  {
    && (StatusOf(states[k], Exiting) || StatusOf(states[k], Unwinding))
    && StatusOf(states[k + 1], Inactive) && states[k + 1].pair.FullyExited()
  }

  ghost predicate OpensAt(states: seq<Engine>, k: int)
    requires 0 <= k < |states| - 1
  {
    !StatusOf(states[k], Active) && StatusOf(states[k + 1], Active) && states[k + 1].pair.FullyEntered()
  }

  /** No run loses an open pair: between an open and an inactive state lies a flat close. */
  lemma {:induction false} OpenPairIsClosedFlat(
    d: PerpPerpDecider, states: seq<Engine>, inputs: seq<Handled>, i: nat, j: nat)
    requires IsRun(d, states, inputs) && i <= j < |states|
    requires !StatusOf(states[i], Inactive) && StatusOf(states[j], Inactive)
    ensures exists k :: i <= k < j && ClosesAt(states, k)
    decreases j
  {
    StepChange(d, states[j - 1], inputs[j - 1]);
    if StatusOf(states[j - 1], Inactive) {
      OpenPairIsClosedFlat(d, states, inputs, i, j - 1);
    } else {
      assert ClosesAt(states, j - 1);
    }
  }

  /** No run becomes active unhedged: the step that did so had both legs present. */
  lemma {:induction false} ActivePairWasFullyEntered(
    d: PerpPerpDecider, states: seq<Engine>, inputs: seq<Handled>, i: nat, j: nat)
    requires IsRun(d, states, inputs) && i <= j < |states|
    requires !StatusOf(states[i], Active) && StatusOf(states[j], Active)
    ensures exists k :: i <= k < j && OpensAt(states, k)
    decreases j
  {
    StepChange(d, states[j - 1], inputs[j - 1]);
    if StatusOf(states[j - 1], Active) {
      ActivePairWasFullyEntered(d, states, inputs, i, j - 1);
    } else {
      assert OpensAt(states, j - 1);
    }
  }

  // ---- pausing ---------------------------------------------------------------------------------

  predicate Opens(action: Option<DeciderAction>) {
    action.Some? && (action.value.Enter? || action.value.Rebalance?)
  }

  predicate Resumes(h: Handled) {
    h.input == StrategyCommand(Resume)
  }

  lemma PausedStep(d: PerpPerpDecider, s: Engine, h: Handled)
    requires s.paused && !Resumes(h)
    ensures var step := StepOf(d, s, h);
            && step.next.paused && !Opens(step.executed)
            && (StatusOf(step.next, Entering) ==> StatusOf(s, Entering))
  {
    StepChange(d, s, h);
    match h.input {
      case OrderUpdate(e) =>
        var (pair, continuation) := TrackerTransition(s.pair.(tracker := TrackEvent(s.pair.tracker, e)));
        PerformStatus(continuation.UnwrapOr(DoNothing), s.(pair := pair), h.env.replies);
      case StrategyCommand(c) =>
        PerformStatus(Exit, s, h.env.replies);
      case _ =>
    }
  }

  /** From a pause until the operator resumes, no run enters or rebalances. */
  lemma {:induction false} PausedRunOpensNothing(
    d: PerpPerpDecider, states: seq<Engine>, inputs: seq<Handled>, i: nat, j: nat)
    requires IsRun(d, states, inputs) && i <= j < |inputs| && states[i].paused
    requires forall k :: i <= k <= j ==> !Resumes(inputs[k])
    ensures states[j].paused && states[j + 1].paused
    ensures !Opens(StepOf(d, states[j], inputs[j]).executed)
    ensures StatusOf(states[j + 1], Entering) ==> StatusOf(states[i], Entering)
    decreases j
  {
    if i < j {
      PausedRunOpensNothing(d, states, inputs, i, j - 1);
    }
    PausedStep(d, states[j], inputs[j]);
  }

  /** The engine pauses itself only in an emergency exit of a pair at risk; otherwise only the
      operator pauses it. The emergency exit leaves it paused even when its orders are refused. */
  lemma WhoPauses(d: PerpPerpDecider, s: Engine, h: Handled)
    requires !s.paused
    ensures var step := StepOf(d, s, h);
            step.next.paused ==>
              || h.input == StrategyCommand(Pause)
              || (step.executed == Some(Exit) && (s.pair.status.Active? || s.pair.status.Entering?)
                  && !(h.env.longMarginOk && h.env.shortMarginOk))
  {
    match h.input {
      case OrderUpdate(e) =>
        var (pair, continuation) := TrackerTransition(s.pair.(tracker := TrackEvent(s.pair.tracker, e)));
        PerformStatus(continuation.UnwrapOr(DoNothing), s.(pair := pair), h.env.replies);
      case _ =>
    }
  }

  lemma EmergencyPauses(d: PerpPerpDecider, s: Engine, env: Env)
    requires !s.paused && env.accountOk && (s.pair.status.Active? || s.pair.status.Entering?)
    requires MarginViolated(s.pair, env)
    ensures var step := StepOf(d, s, Handled(EvalTick, env));
            && step.executed == Some(Exit) && step.next.paused && step.cancels == s.pair.tracker.Pending()
            && (StatusOf(step.next, Exiting) <==>
                  !Failed(LegOrder(-s.pair.longLeg.positionSize, None), env.replies.longReply) &&
                  !Failed(LegOrder(-s.pair.shortLeg.positionSize, None), env.replies.shortReply))
  {}

  // ---- closing orders --------------------------------------------------------------------------

  predicate Closing(action: DeciderAction) {
    action.Exit? || action.Unwind?
  }

  /** Positions of two pairs agree. */
  predicate SamePositions(p: Pair, q: Pair) {
    && p.longLeg.key == q.longLeg.key && p.longLeg.positionSize == q.longLeg.positionSize
    && p.shortLeg.key == q.shortLeg.key && p.shortLeg.positionSize == q.shortLeg.positionSize
  }

  /** With nothing in flight and a reported position left, an order event makes an unwinding pair ask
      for another closing order that moves it, sized on the reported positions: the unwind cannot stall
      on the schedule. */
  lemma UnwindContinues(d: PerpPerpDecider, s: Engine, e: OrderEvent, env: Env)
    requires s.pair.status.Unwinding? && !s.pair.FullyExited()
    requires !TrackEvent(s.pair.tracker, e).HasPending()
    ensures var step := StepOf(d, s, Handled(OrderUpdate(e), env));
            && step.executed == Some(NextUnwind(s.pair.tracker.schedule, -s.pair.longLeg.positionSize,
                                                -s.pair.shortLeg.positionSize).1)
            && step.sent != [] && step.next.pair.status.Unwinding?
  {
    var p := s.pair.(tracker := TrackEvent(s.pair.tracker, e));
    var (rl, rs) := p.CloseSizes();
    var a := NextUnwind(p.tracker.schedule, rl, rs).1;
    NonZeroChunk(p.tracker.schedule, rl);
    NonZeroChunk(p.tracker.schedule, rs);
    PerformStatus(a, s.(pair := TrackerTransition(p).0), env.replies);
  }

  lemma NonZeroChunk(s: Option<Schedule>, remaining: real)
    ensures NextUnwind(s, remaining, remaining).1.sizeLong == 0.0 <==> remaining == 0.0
  {}

  // ---- orders the engine does not know of -------------------------------------------------------

  predicate AllAcceptedTracked(o: Outcome) {
    forall sub <- o.sent :: sub.reply.Accepted? ==> sub.reply.clientOrderId in o.pair.tracker.Pending()
  }

  /** With fresh client ids, a dispatch leaves every accepted order in the tracker, except when the
      long order was accepted and the short one refused: then the long order is live on its exchange
      while the pair neither tracks it nor changes status. */
  lemma AcceptedOrdersTracked(p: Pair, long: LegOrder, short: LegOrder, reduceOnly: bool,
                              next: Option<PairStatus>, r: Replies)
    requires r.longReply.Accepted? ==> r.longReply.clientOrderId !in p.tracker.orders
    requires r.shortReply.Accepted? ==> r.shortReply.clientOrderId !in p.tracker.orders
    ensures var o := DispatchLegs(p, long, short, reduceOnly, next, r);
            && (AllAcceptedTracked(o) <==> !(long.size != 0.0 && r.longReply.Accepted? && Failed(short, r.shortReply)))
            && (!o.ok ==> o.pair == p)
  {
    var o := DispatchLegs(p, long, short, reduceOnly, next, r);
    if long.size != 0.0 && r.longReply.Accepted? && Failed(short, r.shortReply) {
      var sub := Submission(Request(p.longLeg.key, long, reduceOnly).value, r.longReply);
      assert sub == o.sent[0] && sub in o.sent;
    }
  }
}
