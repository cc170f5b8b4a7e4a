/** What a pair knows over every run: of its legs the last reports, of its orders the last events
    (strategies/src/arbitrage/engine.rs, perp_perp/types.rs). */
module Reports {
  import opened Types
  import opened ArbitrageTypes
  import opened PerpPair
  import opened Decider
  import opened Execution
  import opened EngineLoop
  import opened Lifecycle

  // ---- one step ------------------------------------------------------------------------------------

  /** The pair with what the input itself reports. */
  function Informed(s: Engine, h: Handled): Pair {
    match h.input
    case OrderUpdate(e) => s.pair.(tracker := TrackEvent(s.pair.tracker, e))
    case FundingRate(f) => s.pair.ApplyFunding(f)
    case PositionUpdate(p) => s.pair.ApplyPosition(p)
    case _ => s.pair
  }

  /** Apart from prices, quotes, status, schedule and ended orders, `q` knows what `p` knows. */
  predicate SameKnowledge(p: Pair, q: Pair) {
    && SameLeg(p.longLeg, q.longLeg) && SameLeg(p.shortLeg, q.shortLeg) && p.carry == q.carry
    && p.positionLong == q.positionLong && p.positionShort == q.positionShort
    && (forall id <- q.tracker.orders :: id in p.tracker.orders && q.tracker.orders[id] == p.tracker.orders[id])
  }

  predicate SameLeg(l: PerpLeg, m: PerpLeg) {
    l.key == m.key && l.positionSize == m.positionSize && l.entryPrice == m.entryPrice && l.fundingRate == m.fundingRate
  }

  /** The step executes its action on the pair `q`. */
  predicate ActsOn(step: Step, q: Pair, r: Replies) {
    if step.executed == None then step.sent == [] && step.next.pair == q
    else var o := Execute(step.executed.value, q, r); step.sent == o.sent && step.next.pair == o.pair
  }

  ghost predicate ActsKnowing(step: Step, p: Pair, r: Replies) {
    exists q :: SameKnowledge(p, q) && ActsOn(step, q, r)
  }

  lemma ActsThus(step: Step, p: Pair, q: Pair, r: Replies)
    requires SameKnowledge(p, q) && ActsOn(step, q, r)
    ensures ActsKnowing(step, p, r)
  {}

  lemma EvaluationKnows(s: Engine, d: PerpPerpDecider, env: Env)
    ensures ActsKnowing(Evaluated(s, d, env), s.pair, env.replies)
  {
    var step := Evaluated(s, d, env);
    var refreshed := Refreshed(s, env).pair;
    if s.paused || !env.accountOk || s.pair.status.Unwinding? {
      ActsThus(step, s.pair, s.pair, env.replies);
    } else if s.pair.status.Recovering? || s.pair.status.Exiting? {
      if step.next.pair == s.pair && step.executed == None {
        ActsThus(step, s.pair, s.pair, env.replies);
      } else if step.executed == None {
        ActsThus(step, s.pair, step.next.pair, env.replies);
      } else {
        ActsThus(step, s.pair, s.pair.WithoutTerminal(), env.replies);
      }
    } else if MarginViolated(refreshed, env) && (s.pair.status.Active? || s.pair.status.Entering?) {
      ActsThus(step, s.pair, refreshed.WithoutTerminal(), env.replies);
    } else {
      ActsThus(step, s.pair, refreshed, env.replies);
    }
  }

  lemma CommandKnows(d: PerpPerpDecider, s: Engine, c: Command, env: Env)
    ensures ActsKnowing(Commanded(s, c, d, env), s.pair, env.replies)
  {
    var step := Commanded(s, c, d, env);
    if c.Resume? {
      EvaluationKnows(s.(paused := false), d, env);
    } else if c.GracefulExit? && s.pair.status.Active? {
      ActsThus(step, s.pair, WithSchedule(s.pair, Some(Schedule(DEFAULT_UNWIND_CHUNKS, 1))), env.replies);
    } else {
      ActsThus(step, s.pair, s.pair, env.replies);
    }
  }

  lemma StepKnows(d: PerpPerpDecider, s: Engine, h: Handled)
    ensures ActsKnowing(StepOf(d, s, h), Informed(s, h), h.env.replies)
  {
    var step, p := StepOf(d, s, h), Informed(s, h);
    match h.input {
      case OrderUpdate(_) =>
        ActsThus(step, p, TrackerTransition(p).0, h.env.replies);
      case FundingRate(_) =>
        EvaluationKnows(s.(pair := p), d, h.env);
        if h.input.funding.key !in {s.pair.longLeg.key, s.pair.shortLeg.key} {
          ActsThus(step, p, p, h.env.replies);
        }
      case EvalTick =>
        EvaluationKnows(s, d, h.env);
      case StrategyCommand(c) =>
        CommandKnows(d, s, c, h.env);
      case _ =>
        ActsThus(step, p, p, h.env.replies);
    }
  }

  /** Executing an action changes orders and status only. */
  lemma ExecutionKnows(action: DeciderAction, p: Pair, r: Replies)
    ensures var q := Execute(action, p, r).pair; q == p.(tracker := q.tracker, status := q.status)
  {}

  // ---- the legs ------------------------------------------------------------------------------------

  /** The last report of a position in `key`. */
  function LastPosition(inputs: seq<Handled>, key: InstrumentKey): Option<Position> {
    if inputs == [] then None
    else
      var n := |inputs| - 1;
      if inputs[n].input.PositionUpdate? && inputs[n].input.position.key == key then Some(inputs[n].input.position)
      else LastPosition(inputs[..n], key)
  }

  /** The last funding rate of `key`, at first zero. */
  function LastRate(inputs: seq<Handled>, key: InstrumentKey): real {
    if inputs == [] then 0.0
    else
      var n := |inputs| - 1;
      if inputs[n].input.FundingRate? && inputs[n].input.funding.key == key then inputs[n].input.funding.fundingRate
      else LastRate(inputs[..n], key)
  }

  /** The leg is that of the last reports, and so is the position kept for the margin check. */
  predicate Shows(leg: PerpLeg, held: Option<Position>, key: InstrumentKey, position: Option<Position>, rate: real) {
    && leg.key == key && held == position && leg.fundingRate == rate
    && leg.positionSize == (if position.Some? then position.value.size else 0.0)
    && leg.entryPrice == (if position.Some? then position.value.entryPrice else 0.0)
  }

  lemma InformedThen(d: PerpPerpDecider, s: Engine, h: Handled)
    ensures var p, q := Informed(s, h), StepOf(d, s, h).next.pair;
            && SameLeg(p.longLeg, q.longLeg) && SameLeg(p.shortLeg, q.shortLeg) && p.carry == q.carry
            && p.positionLong == q.positionLong && p.positionShort == q.positionShort
  {
    var step := StepOf(d, s, h);
    StepKnows(d, s, h);
    var q :| SameKnowledge(Informed(s, h), q) && ActsOn(step, q, h.env.replies);
    if step.executed.Some? {
      ExecutionKnows(step.executed.value, q, h.env.replies);
    }
  }

  /** The pair shows, for both legs, what `seen` reported last. */
  predicate ShowsAll(p: Pair, seen: seq<Handled>, longKey: InstrumentKey, shortKey: InstrumentKey) {
    && Shows(p.longLeg, p.positionLong, longKey, LastPosition(seen, longKey), LastRate(seen, longKey))
    && Shows(p.shortLeg, p.positionShort, shortKey, LastPosition(seen, shortKey), LastRate(seen, shortKey))
  }

  lemma SeenOneMore(seen: seq<Handled>, h: Handled, key: InstrumentKey)
    ensures LastPosition(seen + [h], key) == if h.input.PositionUpdate? && h.input.position.key == key
                                             then Some(h.input.position) else LastPosition(seen, key)
    ensures LastRate(seen + [h], key) == if h.input.FundingRate? && h.input.funding.key == key
                                         then h.input.funding.fundingRate else LastRate(seen, key)
  {
    assert (seen + [h])[..|seen|] == seen;
  }

  lemma InformedShows(s: Engine, h: Handled, seen: seq<Handled>, longKey: InstrumentKey, shortKey: InstrumentKey)
    requires ShowsAll(s.pair, seen, longKey, shortKey) && longKey != shortKey
    ensures ShowsAll(Informed(s, h), seen + [h], longKey, shortKey) && Informed(s, h).carry == s.pair.carry
  {
    SeenOneMore(seen, h, longKey);
    SeenOneMore(seen, h, shortKey);
  }

  lemma StepShows(d: PerpPerpDecider, s: Engine, h: Handled, seen: seq<Handled>, longKey: InstrumentKey,
                  shortKey: InstrumentKey)
    requires ShowsAll(s.pair, seen, longKey, shortKey) && longKey != shortKey
    ensures var q := StepOf(d, s, h).next.pair;
            ShowsAll(q, seen + [h], longKey, shortKey) && q.carry == s.pair.carry
  {
    InformedShows(s, h, seen, longKey, shortKey);
    InformedThen(d, s, h);
  }

  /** In every state of every run of a fresh engine the legs show the last position and the last funding rate
      reported for their instruments, and nothing else changes them. */
  lemma {:induction false} PairShowsLastReports(
    d: PerpPerpDecider, states: seq<Engine>, inputs: seq<Handled>, longKey: InstrumentKey,
    shortKey: InstrumentKey, carry: CarryDirection, n: nat)
    requires IsRun(d, states, inputs) && states[0] == NewEngine(longKey, shortKey, carry)
    requires n <= |inputs| && longKey != shortKey
    ensures ShowsAll(states[n].pair, inputs[..n], longKey, shortKey) && states[n].pair.carry == carry
  {
    if n > 0 {
      PairShowsLastReports(d, states, inputs, longKey, shortKey, carry, n - 1);
      StepShows(d, states[n - 1], inputs[n - 1], inputs[..n - 1], longKey, shortKey);
      assert inputs[..n] == inputs[..n - 1] + [inputs[n - 1]];
    }
  }

  // ---- the orders ----------------------------------------------------------------------------------

  /** The event is booked under `id`: by its client id, or by its internal id if that client id is unknown. */
  predicate Names(s: Engine, h: Handled, id: string) {
    h.input.OrderUpdate? &&
    var o := h.input.event.order;
    if o.clientOrderId in s.pair.tracker.orders then o.clientOrderId == id else o.internalId == id
  }

  /** What the order under `id`, dispatched by step `i`, has filled according to the events up to step `j`. */
  function LastFill(states: seq<Engine>, inputs: seq<Handled>, id: string, i: nat, j: nat): real
    requires i < j <= |inputs| && |inputs| < |states|
  {
    if j == i + 1 then 0.0
    else if Names(states[j - 1], inputs[j - 1], id) then inputs[j - 1].input.event.order.filledSize
    else LastFill(states, inputs, id, i, j - 1)
  }

  /** The record is that of the order sent, with another fill and status. */
  predicate RecordOf(t: Tracker, sub: Submission, filled: real)
    requires sub.reply.Accepted?
  {
    var id := sub.reply.clientOrderId;
    id in t.orders &&
    t.orders[id] == TrackedOrder(id, sub.request.key, t.orders[id].status,
                                 if sub.request.side == Buy then sub.request.size else -sub.request.size,
                                 filled, sub.reply.price)
  }

  predicate DifferentIds(sent: seq<Submission>) {
    |sent| == 2 && sent[0].reply.Accepted? && sent[1].reply.Accepted? ==>
      sent[0].reply.clientOrderId != sent[1].reply.clientOrderId
  }

  /** What executing an action does to the order under `id`. */
  lemma ExecutionRecords(action: DeciderAction, p: Pair, r: Replies, id: string)
    ensures var o := Execute(action, p, r);
            && |o.sent| <= 2
            && (!SentUnder(o.sent, id) && id in o.pair.tracker.orders ==>
                  id in p.tracker.orders &&
                  o.pair.tracker.orders[id].(status := Pending) == p.tracker.orders[id].(status := Pending))
            && (AllAccepted(o.sent) && DifferentIds(o.sent) ==> forall sub <- o.sent :: OnRecord(o.pair.tracker, sub))
  {
    var (lp, sp) := p.EntryPrices();
    match action {
      case Enter(sl, ss) =>
        DispatchRecords(p, LegOrder(sl, Some(lp)), LegOrder(ss, Some(sp)), false, Some(Entering), r, id);
      case Recover(sl, ss) =>
        DispatchRecords(p, LegOrder(sl, Some(lp)), LegOrder(ss, Some(sp)), false, Some(Recovering), r, id);
      case Rebalance(sl, ss) =>
        DispatchRecords(CancelReplaced(p), LegOrder(sl, Some(RebalancePrice(p.longLeg, sl))),
                        LegOrder(ss, Some(RebalancePrice(p.shortLeg, ss))), false, None, r, id);
      case Exit =>
        DispatchRecords(p, LegOrder(-p.longLeg.positionSize, None), LegOrder(-p.shortLeg.positionSize, None), true,
                        Some(Exiting), r, id);
      case Unwind(sl, ss) =>
        DispatchRecords(p, LegOrder(sl, None), LegOrder(ss, None), true, Some(Unwinding), r, id);
      case DoNothing =>
    }
  }

  /** A step keeps what is on record of an order, but for the fill and the status of an event that names it. */
  lemma StepBooks(d: PerpPerpDecider, s: Engine, h: Handled, id: string)
    requires var step := StepOf(d, s, h); id in step.next.pair.tracker.orders && !SentUnder(step.sent, id)
    ensures id in s.pair.tracker.orders
    ensures StepOf(d, s, h).next.pair.tracker.orders[id].(status := Pending) ==
            s.pair.tracker.orders[id].(
              status := Pending,
              filledQty := if Names(s, h, id) then h.input.event.order.filledSize
                           else s.pair.tracker.orders[id].filledQty)
  {
    var step := StepOf(d, s, h);
    StepKnows(d, s, h);
    var q :| SameKnowledge(Informed(s, h), q) && ActsOn(step, q, h.env.replies);
    if step.executed.Some? {
      ExecutionRecords(step.executed.value, q, h.env.replies, id);
    }
    assert id in q.tracker.orders;
  }

  lemma StepPutsOnRecord(d: PerpPerpDecider, s: Engine, h: Handled)
    requires AllAccepted(StepOf(d, s, h).sent) && DifferentIds(StepOf(d, s, h).sent)
    ensures forall sub <- StepOf(d, s, h).sent :: OnRecord(StepOf(d, s, h).next.pair.tracker, sub)
  {
    var step := StepOf(d, s, h);
    StepKnows(d, s, h);
    var q :| SameKnowledge(Informed(s, h), q) && ActsOn(step, q, h.env.replies);
    if step.executed.Some? {
      ExecutionRecords(step.executed.value, q, h.env.replies, "");
    }
  }

  /** Step `i` dispatched the order, with everything it sent accepted. */
  predicate DispatchedAt(d: PerpPerpDecider, states: seq<Engine>, inputs: seq<Handled>, sub: Submission, i: nat)
    requires i < |inputs| && i < |states|
  {
    var sent := StepOf(d, states[i], inputs[i]).sent;
    sub in sent && AllAccepted(sent) && DifferentIds(sent)
  }

  /** No step between `i` and `m` sends another order under the same client id. */
  ghost predicate NotSentBetween(
    d: PerpPerpDecider, states: seq<Engine>, inputs: seq<Handled>, id: string, i: nat, m: nat)
    requires m <= |inputs| && m <= |states|
  {
    forall k :: i < k < m ==> !SentUnder(StepOf(d, states[k], inputs[k]).sent, id)
  }

  /** Step `k` keeps the record of `id` as `StepBooks` says. */
  predicate BookedAt(states: seq<Engine>, inputs: seq<Handled>, id: string, k: int)
    requires 0 <= k < |inputs| && k + 1 < |states|
  {
    var before, after := states[k].pair.tracker.orders, states[k + 1].pair.tracker.orders;
    id in after ==>
      && id in before
      && after[id].(status := Pending) ==
         before[id].(status := Pending, filledQty := if Names(states[k], inputs[k], id)
                                                     then inputs[k].input.event.order.filledSize
                                                     else before[id].filledQty)
  }

  lemma {:induction false} RecordFollows(
    states: seq<Engine>, inputs: seq<Handled>, sub: Submission, i: nat, j: nat, m: nat)
    requires i < j <= m <= |inputs| < |states| && sub.reply.Accepted?
    requires RecordOf(states[i + 1].pair.tracker, sub, 0.0)
    requires forall k :: i < k < m ==> BookedAt(states, inputs, sub.reply.clientOrderId, k)
    requires sub.reply.clientOrderId in states[j].pair.tracker.orders
    ensures RecordOf(states[j].pair.tracker, sub, LastFill(states, inputs, sub.reply.clientOrderId, i, j))
    decreases j
  {
    if j > i + 1 {
      assert BookedAt(states, inputs, sub.reply.clientOrderId, j - 1);
      RecordFollows(states, inputs, sub, i, j - 1, m);
    }
  }

  /** Over every run, as long as an order is on record it is there with the instrument, the signed size and the
      price it was dispatched with, and with the fill of the last event that named it. */
  lemma RecordShowsLastFill(
    d: PerpPerpDecider, states: seq<Engine>, inputs: seq<Handled>, sub: Submission, i: nat, j: nat)
    requires IsRun(d, states, inputs) && i < j <= |inputs| && DispatchedAt(d, states, inputs, sub, i)
    requires sub.reply.Accepted? && NotSentBetween(d, states, inputs, sub.reply.clientOrderId, i, j)
    requires sub.reply.clientOrderId in states[j].pair.tracker.orders
    ensures RecordOf(states[j].pair.tracker, sub, LastFill(states, inputs, sub.reply.clientOrderId, i, j))
  {
    StepPutsOnRecord(d, states[i], inputs[i]);
    forall k | i < k < j ensures BookedAt(states, inputs, sub.reply.clientOrderId, k) {
      if sub.reply.clientOrderId in states[k + 1].pair.tracker.orders {
        StepBooks(d, states[k], inputs[k], sub.reply.clientOrderId);
      }
    }
    RecordFollows(states, inputs, sub, i, j, j);
  }
}
