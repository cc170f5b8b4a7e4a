/** The event loop's handlers (strategies/src/arbitrage/engine.rs) for a perp pair. `Engine` is the
    value of an `ArbitrageEngine`, and `Next` the effect of one handled event, command or timer. */
module EngineLoop {
  import opened Types
  import opened ArbitrageTypes
  import opened PerpPair
  import opened Decider
  import opened Execution

  datatype Engine = Engine(pair: Pair, paused: bool)

  /** What the outside answers while one event is handled: router replies, oracle quotes and the
      verdicts of the margin policy. */
  datatype Env = Env(
    replies: Replies, longQuote: LegQuote, shortQuote: LegQuote,
    accountOk: bool, longMarginOk: bool, shortMarginOk: bool)

  datatype Command = GracefulExit | ForceExit | Pause | Resume | GetStatus

  datatype Input =
    | MarketData
    | OrderUpdate(event: OrderEvent)
    | FundingRate(funding: FundingSnapshot)
    | PositionUpdate(position: Position)
    | StrategyCommand(command: Command)
    | StaleTick(aged: set<string>)
    | EvalTick

  /** The new state and what was done on the way. */
  datatype Step = Step(
    next: Engine, executed: Option<DeciderAction>, sent: seq<Submission>, cancels: set<string>)

  function Idle(s: Engine): Step {
    Step(s, None, [], {})
  }

  function Perform(action: DeciderAction, s: Engine, r: Replies): Step {
    var o := Execute(action, s.pair, r);
    Step(s.(pair := o.pair), Some(action), o.sent, CancelRequests(action, s.pair))
  }

  function PerformIfSome(action: Option<DeciderAction>, s: Engine, r: Replies): Step {
    if action.Some? then Perform(action.value, s, r) else Idle(s)
  }

  // ---- order tracking -------------------------------------------------------------------------

  function TrackEvent(t: Tracker, e: OrderEvent): Tracker {
    var o := e.order;
    t.UpdateFill(if o.clientOrderId in t.orders then o.clientOrderId else o.internalId,
                 o.filledSize, FromOrderEvent(e))
  }

  /** The next unwind dispatch: a chunk while the schedule lasts, then everything that is left. */
  function NextUnwind(s: Option<Schedule>, remainingLong: real, remainingShort: real)
    : (Option<Schedule>, DeciderAction)
  {
    if s.Some? && !s.value.IsComplete()
    then (Some(s.value.Advanced()), Unwind(s.value.Chunk(remainingLong), s.value.Chunk(remainingShort)))
    else (s, Unwind(remainingLong, remainingShort))
  }

  function WithSchedule(p: Pair, s: Option<Schedule>): Pair {
    p.(tracker := p.tracker.(schedule := s))
  }

  /** Once nothing is in flight, a transitional status moves on, with an optional follow-up action. */
  function TrackerTransition(p: Pair): (Pair, Option<DeciderAction>) {
    if p.tracker.HasPending() then (p, None)
    else match p.status
      case Entering =>
        if p.FullyEntered() then (p.WithStatus(Active).WithoutTerminal(), None)
        else (p.WithStatus(Recovering).WithoutTerminal(), p.RecoverAction())
      case Exiting =>
        if p.FullyExited() then (p.WithStatus(Inactive).WithoutTerminal(), None)
        else (p.WithoutTerminal(), Some(Exit))
      case Recovering =>
        if p.FullyEntered() then (p.WithStatus(Active).WithoutTerminal(), None)
        else (p.WithoutTerminal(), p.RecoverAction())
      case Unwinding =>
        if p.FullyExited() then (WithSchedule(p, None).WithStatus(Inactive).WithoutTerminal(), None)
        else
          var (rl, rs) := p.CloseSizes();
          var (schedule, action) := NextUnwind(p.tracker.schedule, rl, rs);
          (WithSchedule(p, schedule).WithoutTerminal(), Some(action))
      case _ => (p, None)
  }

  // ---- evaluation -----------------------------------------------------------------------------

  predicate MarginViolated(p: Pair, env: Env) {
    (p.positionLong.Some? && !env.longMarginOk) || (p.positionShort.Some? && !env.shortMarginOk)
  }

  predicate DepthGated(a: DeciderAction, p: Pair) {
    (a.Enter? || a.Rebalance? || a.Recover?) && !p.HasSufficientDepth(a.sizeLong, a.sizeShort)
  }

  function EmergencyExit(s: Engine, r: Replies): Step {
    var o := Perform(Exit, s.(pair := s.pair.WithoutTerminal()), r);
    o.(next := o.next.(paused := true), cancels := s.pair.tracker.Pending())
  }

  function Decide(s: Engine, d: PerpPerpDecider, env: Env): Step {
    var action := d.Evaluate(s.pair);
    if DepthGated(action, s.pair) then Idle(s) else Perform(action, s, env.replies)
  }

  function RecoveryRetried(s: Engine, r: Replies): Step {
    if s.pair.FullyEntered() then Idle(s.(pair := s.pair.WithStatus(Active).WithoutTerminal()))
    else if s.pair.tracker.HasPending() then Idle(s)
    else
      var cleaned := s.pair.WithoutTerminal();
      PerformIfSome(cleaned.RecoverAction(), s.(pair := cleaned), r)
  }

  function ExitRetried(s: Engine, r: Replies): Step {
    if s.pair.FullyExited() then Idle(s.(pair := s.pair.WithStatus(Inactive).WithoutTerminal()))
    else if s.pair.tracker.HasPending() then Idle(s)
    else Perform(Exit, s.(pair := s.pair.WithoutTerminal()), r)
  }

  function Evaluated(s: Engine, d: PerpPerpDecider, env: Env): Step {
    if s.paused || !env.accountOk then Idle(s)
    else match s.pair.status
      case Recovering => RecoveryRetried(s, env.replies)
      case Exiting => ExitRetried(s, env.replies)
      case Unwinding => Idle(s)
      case _ =>
        var refreshed := s.(pair := s.pair.Refresh(env.longQuote, env.shortQuote));
        if !MarginViolated(refreshed.pair, env) then Decide(refreshed, d, env)
        else if refreshed.pair.status.Active? || refreshed.pair.status.Entering?
        then EmergencyExit(refreshed, env.replies)
        else Idle(refreshed)
  }

  // ---- commands and events ---------------------------------------------------------------------

  function Commanded(s: Engine, c: Command, d: PerpPerpDecider, env: Env): Step {
    match c
    case GracefulExit =>
      if s.pair.status != Active then Idle(s)
      else
        var (rl, rs) := s.pair.CloseSizes();
        var (schedule, action) := NextUnwind(Some(Schedule(DEFAULT_UNWIND_CHUNKS, 0)), rl, rs);
        Perform(action, s.(pair := WithSchedule(s.pair, schedule)), env.replies)
    case ForceExit =>
      if s.pair.FullyExited() then Idle(s) else Perform(Exit, s, env.replies)
    case Pause => Idle(s.(paused := true))
    case Resume => Evaluated(s.(paused := false), d, env)
    case GetStatus => Idle(s)
  }

  function Next(s: Engine, input: Input, d: PerpPerpDecider, env: Env): Step {
    match input
    case MarketData => Idle(s)
    case OrderUpdate(e) =>
      var (pair, continuation) := TrackerTransition(s.pair.(tracker := TrackEvent(s.pair.tracker, e)));
      PerformIfSome(continuation, s.(pair := pair), env.replies)
    case FundingRate(f) =>
      var funded := s.(pair := s.pair.ApplyFunding(f));
      if f.key in {s.pair.longLeg.key, s.pair.shortLeg.key} then Evaluated(funded, d, env) else Idle(funded)
    case PositionUpdate(p) => Idle(s.(pair := s.pair.ApplyPosition(p)))
    case StrategyCommand(c) => Commanded(s, c, d, env)
    case StaleTick(aged) =>
      if s.pair.status.Entering? || s.pair.status.Recovering? then Idle(s)
      else Idle(s).(cancels := aged * s.pair.tracker.Pending())
    case EvalTick => Evaluated(s, d, env)
  }

  function NewEngine(longKey: InstrumentKey, shortKey: InstrumentKey, carry: CarryDirection): Engine {
    Engine(NewPair(longKey, shortKey, carry), false)
  }

  // ---- the engine object -----------------------------------------------------------------------

  class ArbitrageEngine {
    const pair: PerpPerpPair
    const decider: PerpPerpDecider
    var paused: bool

    function State(): Engine
      reads this, pair, pair.orderTracker, pair.orderTracker.unwindSchedule
    {
      Engine(pair.State(), paused)
    }

    constructor (pair: PerpPerpPair, decider: PerpPerpDecider)
      ensures this.pair == pair && this.decider == decider
      ensures State() == Engine(pair.State(), false)
    {
      this.pair := pair;
      this.decider := decider;
      paused := false;
    }

    method HandleCommand(c: Command, env: Env)
      returns (executed: Option<DeciderAction>, sent: seq<Submission>, cancels: set<string>)
      modifies this`paused, pair, pair.orderTracker
      ensures Step(State(), executed, sent, cancels) == Commanded(old(State()), c, decider, env)
    {
      executed, sent, cancels := None, [], {};
      match c {
        case GracefulExit =>
          if pair.status != Active {
            return;
          }
          var (remainingLong, remainingShort) := pair.State().CloseSizes();
          var schedule := new UnwindSchedule(DEFAULT_UNWIND_CHUNKS);
          executed := NextUnwindAction(schedule, remainingLong, remainingShort);
          pair.orderTracker.unwindSchedule := schedule;
          if executed.Some? {
            var ok;
            sent, cancels, ok := RunExecute(executed.value, pair, env.replies);
          }
        case ForceExit =>
          if pair.State().FullyExited() {
            return;
          }
          var ok;
          sent, cancels, ok := RunExecute(Exit, pair, env.replies);
          executed := Some(Exit);
        case Pause =>
          paused := true;
        case Resume =>
          paused := false;
          executed, sent, cancels := EvaluateAndExecute(env);
        case GetStatus =>
      }
    }

    method HandleEvent(input: Input, env: Env)
      returns (executed: Option<DeciderAction>, sent: seq<Submission>, cancels: set<string>)
      requires !input.StrategyCommand?
      modifies this`paused, pair, pair.orderTracker, pair.orderTracker.unwindSchedule
      ensures Step(State(), executed, sent, cancels) == Next(old(State()), input, decider, env)
    {
      executed, sent, cancels := None, [], {};
      match input {
        case MarketData =>
        case OrderUpdate(e) =>
          UpdateTracker(e);
          executed := CheckTrackerTransitions();
          if executed.Some? {
            var ok;
            sent, cancels, ok := RunExecute(executed.value, pair, env.replies);
          }
        case FundingRate(f) =>
          var matched := pair.ApplyFunding(f);
          if matched {
            executed, sent, cancels := EvaluateAndExecute(env);
          }
        case PositionUpdate(p) =>
          pair.ApplyPosition(p);
        case StaleTick(aged) =>
          if !(pair.status.Entering? || pair.status.Recovering?) {
            cancels := aged * pair.orderTracker.AllPending();
          }
        case EvalTick =>
          executed, sent, cancels := EvaluateAndExecute(env);
      }
    }

    method UpdateTracker(e: OrderEvent)
      modifies pair.orderTracker`orders
      ensures State() == old(State()).(
        pair := old(pair.State()).(tracker := TrackEvent(old(pair.State()).tracker, e)))
    {
      var status := FromOrderEvent(e);
      var found := pair.orderTracker.UpdateFill(e.order.clientOrderId, e.order.filledSize, status);
      if !found {
        var _ := pair.orderTracker.UpdateFill(e.order.internalId, e.order.filledSize, status);
      }
    }

    method CheckTrackerTransitions() returns (continuation: Option<DeciderAction>)
      modifies pair`status, pair.orderTracker, pair.orderTracker.unwindSchedule
      ensures (pair.State(), continuation) == TrackerTransition(old(pair.State()))
    {
      if pair.orderTracker.HasPending() || !pair.status.IsTransitional() {
        return None;
      }
      continuation := None;
      match pair.status {
        case Entering =>
          if pair.State().FullyEntered() {
            pair.status := Active;
          } else {
            continuation := pair.State().RecoverAction();
            pair.status := Recovering;
          }
        case Exiting =>
          if pair.State().FullyExited() {
            pair.status := Inactive;
          } else {
            continuation := Some(Exit);
          }
        case Recovering =>
          if pair.State().FullyEntered() {
            pair.status := Active;
          } else {
            continuation := pair.State().RecoverAction();
          }
        case Unwinding =>
          if pair.State().FullyExited() {
            pair.orderTracker.unwindSchedule := null;
            pair.status := Inactive;
          } else {
            var (remainingLong, remainingShort) := pair.State().CloseSizes();
            var schedule := pair.orderTracker.unwindSchedule;
            if schedule != null && !schedule.IsComplete() {
              continuation := NextUnwindAction(schedule, remainingLong, remainingShort);
            } else {
              continuation := Some(Unwind(remainingLong, remainingShort));
            }
          }
      }
      pair.orderTracker.RemoveTerminal();
    }

    method EvaluateAndExecute(env: Env)
      returns (executed: Option<DeciderAction>, sent: seq<Submission>, cancels: set<string>)
      modifies this`paused, pair, pair.orderTracker`orders
      ensures Step(State(), executed, sent, cancels) == Evaluated(old(State()), decider, env)
    {
      executed, sent, cancels := None, [], {};
      if paused || !env.accountOk {
        return;
      }
      match pair.status {
        case Recovering =>
          executed, sent, cancels := RetryRecovery(env.replies);
        case Exiting =>
          executed, sent, cancels := RetryExit(env.replies);
        case Unwinding =>
        case _ =>
          pair.RefreshPrices(env.longQuote.mid, env.shortQuote.mid);
          pair.RefreshOrderbook(env.longQuote, env.shortQuote);
          assert pair.State() == old(pair.State()).Refresh(env.longQuote, env.shortQuote);
          executed, sent, cancels := GateAndDecide(env);
      }
    }

    method RetryRecovery(r: Replies)
      returns (executed: Option<DeciderAction>, sent: seq<Submission>, cancels: set<string>)
      modifies pair`status, pair.orderTracker`orders
      ensures Step(State(), executed, sent, cancels) == RecoveryRetried(old(State()), r)
    {
      executed, sent, cancels := None, [], {};
      if pair.State().FullyEntered() {
        pair.status := Active;
        pair.orderTracker.RemoveTerminal();
      } else if !pair.orderTracker.HasPending() {
        pair.orderTracker.RemoveTerminal();
        executed := pair.State().RecoverAction();
        if executed.Some? {
          var ok;
          sent, cancels, ok := RunExecute(executed.value, pair, r);
        }
      }
    }

    method RetryExit(r: Replies)
      returns (executed: Option<DeciderAction>, sent: seq<Submission>, cancels: set<string>)
      modifies pair`status, pair.orderTracker`orders
      ensures Step(State(), executed, sent, cancels) == ExitRetried(old(State()), r)
    {
      executed, sent, cancels := None, [], {};
      if pair.State().FullyExited() {
        pair.status := Inactive;
        pair.orderTracker.RemoveTerminal();
      } else if !pair.orderTracker.HasPending() {
        pair.orderTracker.RemoveTerminal();
        executed := Some(Exit);
        var ok;
        sent, cancels, ok := RunExecute(Exit, pair, r);
      }
    }

    /** The margin gate, the decision and the depth gate, on refreshed prices. */
    method GateAndDecide(env: Env)
      returns (executed: Option<DeciderAction>, sent: seq<Submission>, cancels: set<string>)
      modifies this`paused, pair`status, pair.orderTracker`orders
      ensures Step(State(), executed, sent, cancels) ==
              var s := old(State());
              if !MarginViolated(s.pair, env) then Decide(s, decider, env)
              else if s.pair.status.Active? || s.pair.status.Entering? then EmergencyExit(s, env.replies)
              else Idle(s)
    {
      executed, sent, cancels := None, [], {};
      var ok;
      if (pair.positionLong.Some? && !env.longMarginOk) || (pair.positionShort.Some? && !env.shortMarginOk) {
        if pair.status.Active? || pair.status.Entering? {
          var pending := pair.orderTracker.AllPending();
          pair.orderTracker.RemoveTerminal();
          executed := Some(Exit);
          sent, cancels, ok := RunExecute(Exit, pair, env.replies);
          cancels := pending;
          paused := true;
        }
        return;
      }
      var action := decider.Evaluate(pair.State());
      if DepthGated(action, pair.State()) {
        return;
      }
      executed := Some(action);
      sent, cancels, ok := RunExecute(action, pair, env.replies);
    }
  }
}
