/** The orders that close a pair (strategies/src/arbitrage/engine.rs, perp_perp/execution.rs), read off what
    a step sends: their sizes, what they leave once filled, and that none is sent twice. */
module Closings {
  import opened Types
  import opened Instruments
  import opened ArbitrageTypes
  import opened PerpPair
  import opened Decider
  import opened Execution
  import opened EngineLoop
  import opened UnwindArithmetic
  import opened Lifecycle

  // ---- what is sent --------------------------------------------------------------------------------

  /** A reduce-only market order for a leg, of a signed size. */
  predicate MarketOrder(leg: PerpLeg, size: real, r: OrderRequest) {
    && r.key == leg.key && r.reduceOnly && !r.postOnly && r.orderType == Market && r.price == None
    && r.side == (if size > 0.0 then Buy else Sell) && r.size == Abs(size)
  }

  /** The order of the long leg and then that of the short leg, each if there is something to do; the
      second is missing only if the first was refused. */
  predicate SendsPair(p: Pair, sizeLong: real, sizeShort: real, sent: seq<Submission>) {
    var first := if sizeLong != 0.0 then 1 else 0;
    var both := first + if sizeShort != 0.0 then 1 else 0;
    && first <= |sent| <= both
    && (|sent| < both ==> first == 1 && sent[0].reply.Refused?)
    && (|sent| == 2 ==> sent[0].reply.Accepted?)
    && (first == 1 ==> MarketOrder(p.longLeg, sizeLong, sent[0].request))
    && (|sent| > first ==> MarketOrder(p.shortLeg, sizeShort, sent[first].request))
  }

  /** A step sends these orders, and if they are accepted its target status is reached with them in flight. */
  predicate Dispatches(p: Pair, sizeLong: real, sizeShort: real, target: PairStatus, step: Step) {
    && SendsPair(p, sizeLong, sizeShort, step.sent)
    && (AllAccepted(step.sent) ==> StatusOf(step.next, target) && AllInFlight(step.next.pair.tracker, step.sent))
  }

  predicate AllInFlight(t: Tracker, sent: seq<Submission>) {
    forall sub <- sent :: sub.reply.Accepted? && sub.reply.clientOrderId in t.Pending()
  }

  /** Among how many chunks an unwind order divides the position: as many as the schedule has left, or one
      when it has none. A command starts with four. */
  function Parts(s: Engine, h: Handled): real {
    if !h.input.OrderUpdate? then DEFAULT_UNWIND_CHUNKS as real
    else
      match s.pair.tracker.schedule
      case None => 1.0
      case Some(sched) =>
        if sched.numChunks > sched.chunksDispatched then (sched.numChunks - sched.chunksDispatched) as real else 1.0
  }

  lemma ClosingOrders(p: Pair, sl: real, ss: real, target: PairStatus, r: Replies)
    ensures var o := DispatchLegs(p, LegOrder(sl, None), LegOrder(ss, None), true, Some(target), r);
            && SendsPair(p, sl, ss, o.sent)
            && (AllAccepted(o.sent) ==> o.pair.status == target && AllInFlight(o.pair.tracker, o.sent))
  {
    DispatchRecords(p, LegOrder(sl, None), LegOrder(ss, None), true, Some(target), r, "");
  }

  lemma SameOrders(p: Pair, q: Pair, sl: real, ss: real, sent: seq<Submission>)
    requires SamePositions(p, q)
    ensures SendsPair(p, sl, ss, sent) <==> SendsPair(q, sl, ss, sent)
  {}

  lemma ExitDispatches(p: Pair, s: Engine, r: Replies)
    requires SamePositions(p, s.pair)
    ensures ExitsBoth(p, Perform(Exit, s, r))
  {
    var sl, ss := -p.longLeg.positionSize, -p.shortLeg.positionSize;
    ClosingOrders(s.pair, sl, ss, Exiting, r);
    SameOrders(p, s.pair, sl, ss, Perform(Exit, s, r).sent);
  }

  lemma UnwindDispatches(p: Pair, s: Engine, sl: real, ss: real, r: Replies)
    requires SamePositions(p, s.pair)
    ensures Dispatches(p, sl, ss, Unwinding, Perform(Unwind(sl, ss), s, r))
  {
    ClosingOrders(s.pair, sl, ss, Unwinding, r);
    SameOrders(p, s.pair, sl, ss, Perform(Unwind(sl, ss), s, r).sent);
  }

  predicate ExitsBoth(p: Pair, step: Step) {
    Dispatches(p, -p.longLeg.positionSize, -p.shortLeg.positionSize, Exiting, step)
  }

  lemma SameExits(p: Pair, q: Pair, step: Step)
    requires SamePositions(p, q)
    ensures ExitsBoth(p, step) <==> ExitsBoth(q, step)
  {}

  lemma RetriedExit(s: Engine, r: Replies)
    requires ExitRetried(s, r).executed == Some(Exit)
    ensures ExitsBoth(s.pair, ExitRetried(s, r))
  {
    ExitDispatches(s.pair, s.(pair := s.pair.WithoutTerminal()), r);
  }

  lemma DecidedExit(s: Engine, d: PerpPerpDecider, env: Env)
    ensures Decide(s, d, env).executed == Some(Exit) ==> ExitsBoth(s.pair, Decide(s, d, env))
  {
    ExitDispatches(s.pair, s, env.replies);
  }

  lemma EmergencyExits(s: Engine, r: Replies)
    ensures ExitsBoth(s.pair, EmergencyExit(s, r))
  {
    ExitDispatches(s.pair, s.(pair := s.pair.WithoutTerminal()), r);
  }

  lemma EvaluatedExitIs(s: Engine, d: PerpPerpDecider, env: Env)
    requires Evaluated(s, d, env).executed == Some(Exit)
    ensures Evaluated(s, d, env) in
              {ExitRetried(s, env.replies), Decide(Refreshed(s, env), d, env),
               EmergencyExit(Refreshed(s, env), env.replies)}
  {}

  lemma EvaluatedExit(s: Engine, d: PerpPerpDecider, env: Env)
    requires Evaluated(s, d, env).executed == Some(Exit)
    ensures ExitsBoth(s.pair, Evaluated(s, d, env))
  {
    var step := Evaluated(s, d, env);
    EvaluatedExitIs(s, d, env);
    if step == ExitRetried(s, env.replies) {
      RetriedExit(s, env.replies);
    } else {
      DecidedExit(Refreshed(s, env), d, env);
      EmergencyExits(Refreshed(s, env), env.replies);
      SameExits(s.pair, Refreshed(s, env).pair, step);
    }
  }

  lemma ContinuedExit(d: PerpPerpDecider, s: Engine, h: Handled)
    requires h.input.OrderUpdate? && StepOf(d, s, h).executed == Some(Exit)
    ensures ExitsBoth(s.pair, StepOf(d, s, h))
  {
    var pair := TrackerTransition(s.pair.(tracker := TrackEvent(s.pair.tracker, h.input.event))).0;
    ExitDispatches(s.pair, s.(pair := pair), h.env.replies);
  }

  lemma ContinuedUnwind(d: PerpPerpDecider, s: Engine, h: Handled)
    requires h.input.OrderUpdate? && StepOf(d, s, h).executed.Some? && StepOf(d, s, h).executed.value.Unwind?
    ensures UnwindsBoth(d, s, h)
  {
    var sl, ss := -s.pair.longLeg.positionSize / Parts(s, h), -s.pair.shortLeg.positionSize / Parts(s, h);
    var pair := TrackerTransition(s.pair.(tracker := TrackEvent(s.pair.tracker, h.input.event))).0;
    ContinuedSizes(d, s, h);
    UnwindDispatches(s.pair, s.(pair := pair), sl, ss, h.env.replies);
  }

  lemma ContinuedSizes(d: PerpPerpDecider, s: Engine, h: Handled)
    requires h.input.OrderUpdate? && StepOf(d, s, h).executed.Some? && StepOf(d, s, h).executed.value.Unwind?
    ensures var p := s.pair.(tracker := TrackEvent(s.pair.tracker, h.input.event));
            var sl, ss := -s.pair.longLeg.positionSize / Parts(s, h), -s.pair.shortLeg.positionSize / Parts(s, h);
            && TrackerTransition(p).1 == Some(Unwind(sl, ss)) && SamePositions(s.pair, TrackerTransition(p).0)
            && StepOf(d, s, h) == Perform(Unwind(sl, ss), s.(pair := TrackerTransition(p).0), h.env.replies)
  {}

  predicate UnwindsBoth(d: PerpPerpDecider, s: Engine, h: Handled)
    requires StepOf(d, s, h).executed.Some? && StepOf(d, s, h).executed.value.Unwind?
  {
    var sl, ss := -s.pair.longLeg.positionSize / Parts(s, h), -s.pair.shortLeg.positionSize / Parts(s, h);
    StepOf(d, s, h).executed == Some(Unwind(sl, ss)) && Dispatches(s.pair, sl, ss, Unwinding, StepOf(d, s, h))
  }

  lemma UnwindsOnlyByCommand(d: PerpPerpDecider, s: Engine, h: Handled)
    requires !h.input.OrderUpdate? && StepOf(d, s, h).executed.Some? && StepOf(d, s, h).executed.value.Unwind?
    ensures h.input == StrategyCommand(GracefulExit) && s.pair.status.Active?
  {}

  /** Whatever step executes an exit sends one order per leg that is not flat, against its whole reported
      position, and with both accepted the pair is exiting with these orders in flight. */
  lemma ExitClosesBothLegs(d: PerpPerpDecider, s: Engine, h: Handled)
    requires StepOf(d, s, h).executed == Some(Exit)
    ensures var step := StepOf(d, s, h);
            Dispatches(s.pair, -s.pair.longLeg.positionSize, -s.pair.shortLeg.positionSize, Exiting, step)
  {
    match h.input {
      case OrderUpdate(_) =>
        ContinuedExit(d, s, h);
      case FundingRate(f) =>
        EvaluatedExit(s.(pair := s.pair.ApplyFunding(f)), d, h.env);
        SameExits(s.pair, s.pair.ApplyFunding(f), StepOf(d, s, h));
      case StrategyCommand(c) =>
        if c.ForceExit? {
          ExitDispatches(s.pair, s, h.env.replies);
        } else {
          EvaluatedExit(s.(paused := false), d, h.env);
        }
      case EvalTick =>
        EvaluatedExit(s, d, h.env);
    }
  }

  /** The same for an unwind, with an equal part of either position: one of the chunks that are left. */
  lemma UnwindClosesItsPart(d: PerpPerpDecider, s: Engine, h: Handled)
    requires StepOf(d, s, h).executed.Some? && StepOf(d, s, h).executed.value.Unwind?
    ensures var step := StepOf(d, s, h);
            var sl, ss := -s.pair.longLeg.positionSize / Parts(s, h), -s.pair.shortLeg.positionSize / Parts(s, h);
            step.executed == Some(Unwind(sl, ss)) && Dispatches(s.pair, sl, ss, Unwinding, step)
  {
    if h.input.OrderUpdate? {
      ContinuedUnwind(d, s, h);
    } else {
      UnwindsOnlyByCommand(d, s, h);
      var (rl, rs) := s.pair.CloseSizes();
      var (after, action) := NextUnwind(Some(Schedule(DEFAULT_UNWIND_CHUNKS, 0)), rl, rs);
      UnwindDispatches(s.pair, s.(pair := WithSchedule(s.pair, after)), action.sizeLong, action.sizeShort,
                       h.env.replies);
    }
  }

  // ---- what the orders leave -----------------------------------------------------------------------

  /** What an order that fills completely adds to the position of its leg: its size floored to the lot. */
  function FillOf(i: Instrument, r: OrderRequest): real
    requires i.Valid()
  {
    if r.side == Buy then i.NormalizeQuantity(r.size) else -i.NormalizeQuantity(r.size)
  }

  /** The position in `key` after all accepted orders have filled. */
  function AfterFills(i: Instrument, key: InstrumentKey, position: real, sent: seq<Submission>): real
    requires i.Valid()
  {
    if sent == [] then position
    else
      var n := |sent| - 1;
      AfterFills(i, key, position, sent[..n])
      + if sent[n].reply.Accepted? && sent[n].request.key == key then FillOf(i, sent[n].request) else 0.0
  }

  lemma FewFills(i: Instrument, key: InstrumentKey, position: real, sent: seq<Submission>)
    requires i.Valid() && |sent| <= 2 && AllAccepted(sent)
    ensures AfterFills(i, key, position, sent) ==
            position + (if |sent| > 0 && sent[0].request.key == key then FillOf(i, sent[0].request) else 0.0)
                     + (if |sent| > 1 && sent[1].request.key == key then FillOf(i, sent[1].request) else 0.0)
  {
    if |sent| == 2 { assert sent[..1] == [sent[0]]; }
    if |sent| >= 1 { assert [sent[0]][..0] == []; }
  }

  lemma MarketFill(i: Instrument, leg: PerpLeg, size: real, r: OrderRequest)
    requires i.Valid() && MarketOrder(leg, size, r) && size != 0.0
    ensures FillOf(i, r) == FilledAmount(i, size)
  {}

  lemma NothingFilled(i: Instrument)
    requires i.Valid()
    ensures FilledAmount(i, 0.0) == 0.0
  {
    FloorTowardsZero(i, 0.0);
  }

  lemma LongFills(p: Pair, sl: real, ss: real, sent: seq<Submission>, i: Instrument, position: real)
    requires SendsPair(p, sl, ss, sent) && AllAccepted(sent) && p.longLeg.key != p.shortLeg.key && i.Valid()
    ensures AfterFills(i, p.longLeg.key, position, sent) == position + FilledAmount(i, sl)
  {
    FewFills(i, p.longLeg.key, position, sent);
    NothingFilled(i);
    if sl != 0.0 { MarketFill(i, p.longLeg, sl, sent[0].request); }
  }

  lemma ShortFills(p: Pair, sl: real, ss: real, sent: seq<Submission>, i: Instrument, position: real)
    requires SendsPair(p, sl, ss, sent) && AllAccepted(sent) && p.longLeg.key != p.shortLeg.key && i.Valid()
    ensures AfterFills(i, p.shortLeg.key, position, sent) == position + FilledAmount(i, ss)
  {
    FewFills(i, p.shortLeg.key, position, sent);
    NothingFilled(i);
    if ss != 0.0 { MarketFill(i, p.shortLeg, ss, sent[|sent| - 1].request); }
  }

  /** Filled in full, an exit leaves of either leg what its position has beyond whole lots, so the pair is
      flat exactly if both positions are whole lots. */
  lemma ExitLeavesRemainders(d: PerpPerpDecider, s: Engine, h: Handled, long: Instrument, short: Instrument)
    requires StepOf(d, s, h).executed == Some(Exit) && AllAccepted(StepOf(d, s, h).sent)
    requires s.pair.longLeg.key != s.pair.shortLeg.key && long.Valid() && short.Valid()
    ensures var sent := StepOf(d, s, h).sent; var l, r := s.pair.longLeg, s.pair.shortLeg;
            && AfterFills(long, l.key, l.positionSize, sent) == Remainder(long, l.positionSize)
            && AfterFills(short, r.key, r.positionSize, sent) == Remainder(short, r.positionSize)
            && (AfterFills(long, l.key, l.positionSize, sent) == 0.0 <==> IsMultiple(l.positionSize, long.lotSize))
            && (AfterFills(short, r.key, r.positionSize, sent) == 0.0 <==> IsMultiple(r.positionSize, short.lotSize))
  {
    var x, y := s.pair.longLeg.positionSize, s.pair.shortLeg.positionSize;
    ExitClosesBothLegs(d, s, h);
    LongFills(s.pair, -x, -y, StepOf(d, s, h).sent, long, x);
    ShortFills(s.pair, -x, -y, StepOf(d, s, h).sent, short, y);
    OppositeFill(long, x);
    OppositeFill(short, y);
    WholeLotsIff(long, x);
    WholeLotsIff(short, y);
  }

  lemma OppositeFill(i: Instrument, size: real)
    requires i.Valid()
    ensures size + FilledAmount(i, -size) == Remainder(i, size)
  {
    NothingFilled(i);
  }

  /** A market order that only reduces the given leg: against its position and no larger. */
  predicate Reduces(leg: PerpLeg, r: OrderRequest) {
    && r.key == leg.key && r.reduceOnly && r.orderType == Market && r.price == None
    && r.side == (if leg.positionSize > 0.0 then Sell else Buy)
    && 0.0 < r.size <= Abs(leg.positionSize)
  }

  predicate AllReduce(p: Pair, sent: seq<Submission>) {
    forall sub <- sent :: Reduces(p.longLeg, sub.request) || Reduces(p.shortLeg, sub.request)
  }

  lemma SmallOrdersReduce(p: Pair, sl: real, ss: real, sent: seq<Submission>)
    requires SendsPair(p, sl, ss, sent)
    requires Within(-sl, p.longLeg.positionSize) && Within(-ss, p.shortLeg.positionSize)
    ensures AllReduce(p, sent)
  {}

  /** So every order of an exit or unwind is a reduce-only market order against the reported position of
      its leg and not larger than it. */
  lemma ClosingNeverIncreases(d: PerpPerpDecider, s: Engine, h: Handled)
    ensures var step := StepOf(d, s, h);
            step.executed.Some? && Closing(step.executed.value) ==> AllReduce(s.pair, step.sent)
  {
    var executed := StepOf(d, s, h).executed;
    if executed == Some(Exit) {
      ExitClosesBothLegs(d, s, h);
      SmallOrdersReduce(s.pair, -s.pair.longLeg.positionSize, -s.pair.shortLeg.positionSize, StepOf(d, s, h).sent);
    } else if executed.Some? && executed.value.Unwind? {
      UnwindReduces(d, s, h);
    }
  }

  lemma UnwindReduces(d: PerpPerpDecider, s: Engine, h: Handled)
    requires StepOf(d, s, h).executed.Some? && StepOf(d, s, h).executed.value.Unwind?
    ensures AllReduce(s.pair, StepOf(d, s, h).sent)
  {
    var long, short, k := -s.pair.longLeg.positionSize, -s.pair.shortLeg.positionSize, Parts(s, h);
    UnwindClosesItsPart(d, s, h);
    PartOf(long, k);
    PartOf(short, k);
    SmallOrdersReduce(s.pair, long / k, short / k, StepOf(d, s, h).sent);
  }

  lemma PartOf(x: real, k: real)
    requires k >= 1.0
    ensures Within(-(x / k), -x)
  {}

  // ---- one closing order at a time -----------------------------------------------------------------

  /** The input asks for an evaluation: a poll, a funding rate of either leg, or a resumption. */
  predicate Evaluates(s: Engine, h: Handled) {
    || h.input.EvalTick? || Resumes(h)
    || (h.input.FundingRate? && h.input.funding.key in {s.pair.longLeg.key, s.pair.shortLeg.key})
  }

  /** The evaluation is neither paused nor stopped by the account gate. */
  predicate Ungated(s: Engine, h: Handled) {
    Evaluates(s, h) && (!s.paused || Resumes(h)) && h.env.accountOk
  }

  predicate AllEnded(t: Tracker) {
    forall id <- t.orders :: t.orders[id].status.IsTerminal()
  }

  lemma AllEndedIff(t: Tracker)
    ensures AllEnded(t) <==> !t.HasPending()
  {
    if !AllEnded(t) {
      var id :| id in t.orders && !t.orders[id].status.IsTerminal();
      assert id in t.Pending();
    }
  }

  /** An evaluation of an exiting pair sends the exit again exactly if it is ungated, a position is left and
      every order on record has ended; it makes the pair inactive exactly if it is ungated and the pair flat. */
  lemma ExitIsRetriedIff(d: PerpPerpDecider, s: Engine, h: Handled)
    requires StatusOf(s, Exiting) && Evaluates(s, h)
    ensures var step := StepOf(d, s, h); var p := s.pair;
            var flat := p.longLeg.positionSize == 0.0 && p.shortLeg.positionSize == 0.0;
            && (step.executed == Some(Exit) <==> Ungated(s, h) && !flat && AllEnded(p.tracker))
            && (step.executed != Some(Exit) ==> step.executed == None && step.sent == [])
            && (StatusOf(step.next, Inactive) <==> Ungated(s, h) && flat)
  {
    AllEndedIff(s.pair.tracker);
    var q := s.(pair := s.pair.WithoutTerminal());
    PerformStatus(Exit, q, h.env.replies);
    PerformStatus(Exit, q.(paused := false), h.env.replies);
    if h.input.FundingRate? {
      PerformStatus(Exit, q.(pair := s.pair.ApplyFunding(h.input.funding).WithoutTerminal()), h.env.replies);
    }
  }

  /** The pair as the evaluation finds it. */
  function Found(s: Engine, h: Handled): Pair {
    if h.input.FundingRate? then s.pair.ApplyFunding(h.input.funding) else s.pair
  }

  /** One leg is missing and its maker price is known. */
  predicate Restorable(p: Pair) {
    var long, short := p.longLeg.positionSize == 0.0, p.shortLeg.positionSize == 0.0;
    && (long <==> !short)
    && (long ==> p.longLeg.bestBid.UnwrapOr(p.longLeg.currentPrice) != 0.0)
    && (short ==> p.shortLeg.bestAsk.UnwrapOr(p.shortLeg.currentPrice) != 0.0)
  }

  /** The same for a recovering pair, which must have a missing leg that can be bought or sold. */
  lemma RecoveryIsRetriedIff(d: PerpPerpDecider, s: Engine, h: Handled)
    requires StatusOf(s, Recovering) && Evaluates(s, h)
    ensures var step := StepOf(d, s, h); var p := Found(s, h);
            var both := p.longLeg.positionSize != 0.0 && p.shortLeg.positionSize != 0.0;
            var recovers := step.executed.Some? && step.executed.value.Recover?;
            && (recovers <==> Ungated(s, h) && AllEnded(s.pair.tracker) && Restorable(p))
            && (!recovers ==> step.executed == None && step.sent == [])
            && (StatusOf(step.next, Active) <==> Ungated(s, h) && both)
  {
    AllEndedIff(s.pair.tracker);
    var q := Found(s, h).WithoutTerminal();
    assert Restorable(Found(s, h)) <==> q.RecoverAction().Some?;
    if q.RecoverAction().Some? {
      PerformStatus(q.RecoverAction().value, s.(pair := q), h.env.replies);
      PerformStatus(q.RecoverAction().value, Engine(q, false), h.env.replies);
    }
  }

  /** The event ends the order on record under `id`; an internal id counts if its client id is unknown. */
  predicate Ends(s: Engine, h: Handled, id: string) {
    h.input.OrderUpdate? && h.input.event.IsTerminal() &&
    var o := h.input.event.order;
    o.clientOrderId == id || (o.clientOrderId !in s.pair.tracker.orders && o.internalId == id)
  }

  predicate InFlight(s: Engine, id: string) {
    id in s.pair.tracker.orders && !s.pair.tracker.orders[id].status.IsTerminal()
  }

  predicate IsClosing(status: PairStatus) {
    status.Exiting? || status.Unwinding?
  }

  predicate Forces(h: Handled) {
    h.input == StrategyCommand(ForceExit)
  }

  lemma StaysInFlight(t: Tracker, e: OrderEvent, id: string)
    requires id in t.Pending()
    requires !(e.IsTerminal() && (e.order.clientOrderId == id
                                  || (e.order.clientOrderId !in t.orders && e.order.internalId == id)))
    ensures id in TrackEvent(t, e).Pending()
  {}

  /** One step with an order of a closing pair in flight that does not end it. */
  lemma WaitingStep(d: PerpPerpDecider, s: Engine, h: Handled, id: string)
    requires IsClosing(s.pair.status) && InFlight(s, id) && !Ends(s, h, id) && !Forces(h)
    ensures var step := StepOf(d, s, h);
            && step.sent == [] && step.executed == None
            && (|| (step.next.pair.status == s.pair.status && InFlight(step.next, id))
                || (StatusOf(s, Exiting) && StatusOf(step.next, Inactive) && step.next.pair.FullyExited()))
  {
    assert id in s.pair.tracker.Pending();
    if h.input.OrderUpdate? {
      StaysInFlight(s.pair.tracker, h.input.event, id);
    }
  }

  /** From the dispatch of an exit or an unwind order on, as long as any one of its orders has not ended,
      no step of any run sends another order except under `ForceExit`, or after a poll has found the pair flat
      and closed it. */
  lemma {:induction false} ClosingOrdersAreNotRepeated(
    d: PerpPerpDecider, states: seq<Engine>, inputs: seq<Handled>, sub: Submission, i: nat, j: nat)
    requires IsRun(d, states, inputs) && i < j <= |inputs|
    requires var step := StepOf(d, states[i], inputs[i]);
             step.executed.Some? && Closing(step.executed.value) && sub in step.sent && AllAccepted(step.sent)
    requires forall k :: i < k <= j && k < |inputs| ==>
               !Forces(inputs[k]) && !Ends(states[k], inputs[k], sub.reply.clientOrderId)
    ensures || (exists k :: i < k < j && ClosesAt(states, k))
            || (IsClosing(states[j].pair.status) && InFlight(states[j], sub.reply.clientOrderId)
                && (j < |inputs| ==> StepOf(d, states[j], inputs[j]).sent == []))
    decreases j
  {
    if i + 1 == j {
      if StepOf(d, states[i], inputs[i]).executed == Some(Exit) {
        ExitClosesBothLegs(d, states[i], inputs[i]);
      } else {
        UnwindClosesItsPart(d, states[i], inputs[i]);
      }
    } else {
      ClosingOrdersAreNotRepeated(d, states, inputs, sub, i, j - 1);
      if !(exists k :: i < k < j - 1 && ClosesAt(states, k)) {
        WaitingStep(d, states[j - 1], inputs[j - 1], sub.reply.clientOrderId);
        assert !StatusOf(states[j], Inactive) || ClosesAt(states, j - 1);
      }
    }
    if j < |inputs| && IsClosing(states[j].pair.status) && InFlight(states[j], sub.reply.clientOrderId) {
      WaitingStep(d, states[j], inputs[j], sub.reply.clientOrderId);
    }
  }
}
