/** A graceful exit from command to flat: the engine, its tracker, the unwind schedule and the lot
    flooring together. */
module GracefulExits {
  import opened Types
  import opened Instruments
  import opened ArbitrageTypes
  import opened PerpPair
  import opened Decider
  import opened Execution
  import opened EngineLoop
  import opened UnwindArithmetic
  import opened Lifecycle
  import opened Closings

  function Drive(d: PerpPerpDecider, s: Engine, inputs: seq<Handled>): Engine
    decreases |inputs|
  {
    if inputs == [] then s else Drive(d, StepOf(d, s, inputs[0]).next, inputs[1..])
  }

  /** All orders sent on the way. */
  function SentOn(d: PerpPerpDecider, s: Engine, inputs: seq<Handled>): seq<Submission>
    decreases |inputs|
  {
    if inputs == [] then [] else StepOf(d, s, inputs[0]).sent + SentOn(d, StepOf(d, s, inputs[0]).next, inputs[1..])
  }

  /** Terminal events, in any order, for exactly the orders in flight. */
  ghost predicate EndsAll(p: Pair, endings: seq<Handled>) {
    && endings != []
    && (forall j :: 0 <= j < |endings| ==> EndsOne(p, endings[j]))
    && (forall j, k :: 0 <= j < k < |endings| ==> EndedId(endings[j]) != EndedId(endings[k]))
    && (forall id <- p.tracker.Pending() :: exists j :: 0 <= j < |endings| && EndedId(endings[j]) == id)
  }

  predicate EndsOne(p: Pair, h: Handled) {
    h.input.OrderUpdate? && h.input.event.IsTerminal() && h.input.event.order.clientOrderId in p.tracker.Pending()
  }

  function EndedId(h: Handled): string {
    if h.input.OrderUpdate? then h.input.event.order.clientOrderId else ""
  }

  /** The pair as it is once the tracker has been emptied. */
  function Quiet(p: Pair): Pair {
    p.(tracker := Tracker(map[], p.tracker.schedule))
  }

  lemma QuietTransition(p: Pair)
    requires !p.tracker.HasPending() && p.status.Unwinding?
    ensures TrackerTransition(p) == TrackerTransition(Quiet(p))
  {}

  /** The step that an engine takes once its tracker has been drained. */
  function Drained(s: Engine, r: Replies): Step {
    var (pair, continuation) := TrackerTransition(Quiet(s.pair));
    PerformIfSome(continuation, s.(pair := pair), r)
  }

  function Tracked(p: Pair, h: Handled): Pair
    requires h.input.OrderUpdate?
  {
    p.(tracker := TrackEvent(p.tracker, h.input.event))
  }

  lemma OneEnded(p: Pair, h: Handled)
    requires EndsOne(p, h)
    ensures Tracked(p, h).tracker.Pending() == p.tracker.Pending() - {EndedId(h)}
    ensures Quiet(Tracked(p, h)) == Quiet(p)
  {}

  lemma RestEnd(p: Pair, endings: seq<Handled>)
    requires EndsAll(p, endings) && |endings| > 1
    ensures EndsOne(p, endings[0]) && EndsAll(Tracked(p, endings[0]), endings[1..])
  {
    assert EndsOne(p, endings[0]);
    OneEnded(p, endings[0]);
    var q, rest := Tracked(p, endings[0]), endings[1..];
    forall j | 0 <= j < |rest| ensures EndsOne(q, rest[j]) {
      assert EndsOne(p, endings[j + 1]);
    }
    forall id | id in q.tracker.Pending() ensures exists j :: 0 <= j < |rest| && EndedId(rest[j]) == id {
      var j :| 0 <= j < |endings| && EndedId(endings[j]) == id;
      assert rest[j - 1] == endings[j];
    }
  }

  lemma LastEnding(d: PerpPerpDecider, s: Engine, h: Handled)
    requires s.pair.status.Unwinding? && EndsOne(s.pair, h) && s.pair.tracker.Pending() == {EndedId(h)}
    ensures StepOf(d, s, h) == Drained(s, h.env.replies)
  {
    OneEnded(s.pair, h);
    assert Tracked(s.pair, h).tracker.Pending() == {};
    QuietTransition(Tracked(s.pair, h));
  }

  lemma EarlierEnding(d: PerpPerpDecider, s: Engine, h: Handled, other: string)
    requires EndsOne(s.pair, h) && other in s.pair.tracker.Pending() && other != EndedId(h)
    ensures StepOf(d, s, h) == Idle(s.(pair := Tracked(s.pair, h)))
  {
    OneEnded(s.pair, h);
    assert other in Tracked(s.pair, h).tracker.Pending();
  }

  lemma SameQuietSameDrained(s: Engine, t: Engine, r: Replies)
    requires Quiet(s.pair) == Quiet(t.pair) && s.paused == t.paused
    ensures Drained(s, r) == Drained(t, r)
  {}

  lemma PeelEnding(d: PerpPerpDecider, s: Engine, endings: seq<Handled>)
    requires s.pair.status.Unwinding? && EndsAll(s.pair, endings) && |endings| > 1
    ensures endings[0].input.OrderUpdate?
    ensures var t := s.(pair := Tracked(s.pair, endings[0]));
            && EndsAll(t.pair, endings[1..])
            && Drive(d, s, endings) == Drive(d, t, endings[1..])
            && SentOn(d, s, endings) == SentOn(d, t, endings[1..])
  {
    assert EndsOne(s.pair, endings[0]) && EndsOne(s.pair, endings[1]);
    RestEnd(s.pair, endings);
    EarlierEnding(d, s, endings[0], EndedId(endings[1]));
    var t := s.(pair := Tracked(s.pair, endings[0]));
    assert [] + SentOn(d, t, endings[1..]) == SentOn(d, t, endings[1..]);
  }

  lemma OnlyEnding(d: PerpPerpDecider, s: Engine, endings: seq<Handled>)
    requires s.pair.status.Unwinding? && EndsAll(s.pair, endings) && |endings| == 1
    ensures Drive(d, s, endings) == Drained(s, endings[0].env.replies).next
    ensures SentOn(d, s, endings) == Drained(s, endings[0].env.replies).sent
  {
    assert EndsOne(s.pair, endings[0]);
    assert s.pair.tracker.Pending() == {EndedId(endings[0])};
    LastEnding(d, s, endings[0]);
    var step := StepOf(d, s, endings[0]);
    assert endings[1..] == [] && step.sent + [] == step.sent;
    assert Drive(d, step.next, []) == step.next && SentOn(d, step.next, []) == [];
  }

  /** Draining the tracker in any order fires one transition, on an empty tracker. */
  lemma {:induction false} DrainFires(d: PerpPerpDecider, s: Engine, endings: seq<Handled>)
    requires s.pair.status.Unwinding? && EndsAll(s.pair, endings)
    ensures Drive(d, s, endings) == Drained(s, endings[|endings| - 1].env.replies).next
    ensures SentOn(d, s, endings) == Drained(s, endings[|endings| - 1].env.replies).sent
    decreases |endings|
  {
    if |endings| == 1 {
      OnlyEnding(d, s, endings);
    } else {
      PeelEnding(d, s, endings);
      var t := s.(pair := Tracked(s.pair, endings[0]));
      SameQuietSameDrained(s, t, endings[|endings| - 1].env.replies);
      DrainFires(d, t, endings[1..]);
    }
  }

  /** One chunk's aftermath: both positions are reported, then its orders end. */
  datatype Round = Round(longReport: Position, shortReport: Position, reportEnv: Env, endings: seq<Handled>)

  function Inputs(r: Round): seq<Handled> {
    [Handled(PositionUpdate(r.longReport), r.reportEnv), Handled(PositionUpdate(r.shortReport), r.reportEnv)]
    + r.endings
  }

  datatype Lots = Lots(long: Instrument, short: Instrument, longLots: nat, shortLots: nat) {
    predicate Valid() {
      long.Valid() && short.Valid() && longLots + shortLots > 0
    }

    /** Long leg long, short leg short, `i` of `n` chunks closed. */
    predicate Holds(p: Pair, n: nat, i: nat)
      requires i <= n
    {
      && p.longLeg.positionSize == LotPosition(1, LotsLeft(longLots, n, i), long.lotSize)
      && p.shortLeg.positionSize == LotPosition(-1, LotsLeft(shortLots, n, i), short.lotSize)
    }
  }

  /** The orders that were sent fill in full, which is reported, and then end. */
  ghost predicate FillsSent(l: Lots, s: Engine, sent: seq<Submission>, r: Round)
    requires l.Valid()
  {
    var long, short := s.pair.longLeg, s.pair.shortLeg;
    && r.longReport.key == long.key && r.longReport.size == AfterFills(l.long, long.key, long.positionSize, sent)
    && r.shortReport.key == short.key && r.shortReport.size == AfterFills(l.short, short.key, short.positionSize, sent)
    && EndsAll(s.pair, r.endings)
  }

  /** Chunk `i + 1` of `n` has been sent and nothing of it has been filled yet. */
  predicate ChunkInFlight(l: Lots, s: Engine, sent: seq<Submission>, n: nat, i: nat)
    requires i < n
  {
    && s.pair.status == Unwinding && s.pair.longLeg.key != s.pair.shortLeg.key
    && s.pair.tracker.schedule == Some(Schedule(n, i + 1))
    && l.Holds(s.pair, n, i)
    && SendsPair(s.pair, Schedule(n, i).Chunk(-s.pair.longLeg.positionSize),
                 Schedule(n, i).Chunk(-s.pair.shortLeg.positionSize), sent)
  }

  predicate Closed(s: Engine) {
    s.pair.status == Inactive && s.pair.FullyExited() && s.pair.tracker == Tracker(map[], None)
  }

  lemma LotsZero(sign: int, r: nat, i: Instrument)
    requires i.Valid() && (sign == 1 || sign == -1)
    ensures LotPosition(sign, r, i.lotSize) == 0.0 <==> r == 0
  {}

  /** A chunk whose orders are accepted and filled leads to the next chunk, and the last one to a flat,
      inactive pair without further orders. */
  lemma RoundAdvances(d: PerpPerpDecider, l: Lots, s: Engine, sent: seq<Submission>, n: nat, i: nat, r: Round)
    requires l.Valid() && i < n && ChunkInFlight(l, s, sent, n, i) && AllAccepted(sent) && FillsSent(l, s, sent, r)
    ensures var t, more := Drive(d, s, Inputs(r)), SentOn(d, s, Inputs(r));
            if i + 1 < n then ChunkInFlight(l, t, more, n, i + 1) else Closed(t) && more == []
  {
    var s2 := s.(pair := Reported(s.pair, r));
    TwoReports(d, s, r);
    ReportedHolds(l, s, sent, n, i, r);
    SameTrackerEndsAll(s.pair, s2.pair, r.endings);
    DrainFires(d, s2, r.endings);
    DrainedAdvances(l, s2, n, i + 1, r.endings[|r.endings| - 1].env.replies);
  }

  lemma DrainedAdvances(l: Lots, s: Engine, n: nat, i: nat, r: Replies)
    requires l.Valid() && 1 <= i <= n && s.pair.status == Unwinding && s.pair.longLeg.key != s.pair.shortLeg.key
    requires s.pair.tracker.schedule == Some(Schedule(n, i)) && l.Holds(s.pair, n, i)
    ensures var step := Drained(s, r);
            if i < n then ChunkInFlight(l, step.next, step.sent, n, i) else Closed(step.next) && step.sent == []
  {
    if i < n {
      MoreToClose(l, s.pair, n, i);
      NextChunkDispatched(l, s, n, i, r);
    } else {
      NothingToClose(l, s.pair, n);
      FlatIsClosed(s, r);
    }
  }

  lemma MoreToClose(l: Lots, p: Pair, n: nat, i: nat)
    requires l.Valid() && i < n && l.Holds(p, n, i)
    ensures !p.FullyExited()
  {
    LotsZero(1, LotsLeft(l.longLots, n, i), l.long);
    LotsZero(-1, LotsLeft(l.shortLots, n, i), l.short);
    UnwindClosesExactly(l.longLots, n, i);
    UnwindClosesExactly(l.shortLots, n, i);
  }

  lemma NothingToClose(l: Lots, p: Pair, n: nat)
    requires l.Valid() && n >= 1 && l.Holds(p, n, n)
    ensures p.FullyExited()
  {}

  lemma FlatIsClosed(s: Engine, r: Replies)
    requires s.pair.status == Unwinding && s.pair.FullyExited()
    ensures Closed(Drained(s, r).next) && Drained(s, r).sent == []
  {}

  lemma ReportedHolds(l: Lots, s: Engine, sent: seq<Submission>, n: nat, i: nat, r: Round)
    requires l.Valid() && i < n && ChunkInFlight(l, s, sent, n, i) && AllAccepted(sent) && FillsSent(l, s, sent, r)
    ensures var p := Reported(s.pair, r);
            && l.Holds(p, n, i + 1)
            && p.status == Unwinding && p.tracker == s.pair.tracker
            && p.longLeg.key == s.pair.longLeg.key && p.shortLeg.key == s.pair.shortLeg.key
  {
    var x, y := s.pair.longLeg.positionSize, s.pair.shortLeg.positionSize;
    LongFills(s.pair, Schedule(n, i).Chunk(-x), Schedule(n, i).Chunk(-y), sent, l.long, x);
    ShortFills(s.pair, Schedule(n, i).Chunk(-x), Schedule(n, i).Chunk(-y), sent, l.short, y);
    FilledChunk(l.long, Schedule(n, i), 1, LotsLeft(l.longLots, n, i));
    FilledChunk(l.short, Schedule(n, i), -1, LotsLeft(l.shortLots, n, i));
    LeftAfterChunk(l.longLots, n, i);
    LeftAfterChunk(l.shortLots, n, i);
  }

  lemma NextChunkDispatched(l: Lots, s: Engine, n: nat, i: nat, r: Replies)
    requires l.Valid() && i < n && s.pair.status == Unwinding && s.pair.longLeg.key != s.pair.shortLeg.key
    requires s.pair.tracker.schedule == Some(Schedule(n, i)) && l.Holds(s.pair, n, i)
    requires !s.pair.FullyExited()
    ensures ChunkInFlight(l, Drained(s, r).next, Drained(s, r).sent, n, i)
  {
    var sl := Schedule(n, i).Chunk(-s.pair.longLeg.positionSize);
    var ss := Schedule(n, i).Chunk(-s.pair.shortLeg.positionSize);
    var pair := TrackerTransition(Quiet(s.pair)).0;
    QuietContinues(s, Schedule(n, i), r);
    UnwindStatus(sl, ss, pair, r);
    UnwindDispatches(s.pair, s.(pair := pair), sl, ss, r);
  }

  lemma QuietContinues(s: Engine, sched: Schedule, r: Replies)
    requires s.pair.status == Unwinding && !s.pair.FullyExited()
    requires s.pair.tracker.schedule == Some(sched) && !sched.IsComplete()
    ensures var pair := TrackerTransition(Quiet(s.pair)).0;
            && pair == WithSchedule(Quiet(s.pair), Some(sched.Advanced()))
            && Drained(s, r) == Perform(Unwind(sched.Chunk(-s.pair.longLeg.positionSize),
                                               sched.Chunk(-s.pair.shortLeg.positionSize)), s.(pair := pair), r)
  {
    assert Quiet(s.pair).tracker.RemoveTerminal().orders == map[];
  }

  lemma SameTrackerEndsAll(p: Pair, q: Pair, endings: seq<Handled>)
    requires p.tracker == q.tracker && EndsAll(p, endings)
    ensures EndsAll(q, endings)
  {}

  function Reported(p: Pair, r: Round): Pair {
    p.ApplyPosition(r.longReport).ApplyPosition(r.shortReport)
  }

  lemma TwoReports(d: PerpPerpDecider, s: Engine, r: Round)
    ensures var t := s.(pair := Reported(s.pair, r));
            && Drive(d, s, Inputs(r)) == Drive(d, t, r.endings)
            && SentOn(d, s, Inputs(r)) == SentOn(d, t, r.endings)
  {
    var h1 := Handled(PositionUpdate(r.longReport), r.reportEnv);
    var h2 := Handled(PositionUpdate(r.shortReport), r.reportEnv);
    assert Inputs(r) == [h1] + ([h2] + r.endings);
    ReportFirst(d, s, r.longReport, r.reportEnv, [h2] + r.endings);
    ReportFirst(d, s.(pair := s.pair.ApplyPosition(r.longReport)), r.shortReport, r.reportEnv, r.endings);
  }

  lemma ReportFirst(d: PerpPerpDecider, s: Engine, p: Position, env: Env, rest: seq<Handled>)
    ensures var t := s.(pair := s.pair.ApplyPosition(p)); var inputs := [Handled(PositionUpdate(p), env)] + rest;
            Drive(d, s, inputs) == Drive(d, t, rest) && SentOn(d, s, inputs) == SentOn(d, t, rest)
  {
    var h := Handled(PositionUpdate(p), env);
    assert StepOf(d, s, h) == Idle(s.(pair := s.pair.ApplyPosition(p)));
    assert ([h] + rest)[0] == h && ([h] + rest)[1..] == rest;
    assert [] + SentOn(d, StepOf(d, s, h).next, rest) == SentOn(d, StepOf(d, s, h).next, rest);
  }

  /** A graceful exit in progress: an engine and the orders it sent last. */
  datatype Progress = Progress(engine: Engine, sent: seq<Submission>)

  /** From `before` to `after` the orders sent last are accepted and filled. */
  ghost predicate RoundStep(d: PerpPerpDecider, l: Lots, before: Progress, r: Round, after: Progress)
    requires l.Valid()
  {
    && AllAccepted(before.sent) && FillsSent(l, before.engine, before.sent, r)
    && after == Progress(Drive(d, before.engine, Inputs(r)), SentOn(d, before.engine, Inputs(r)))
  }

  lemma GracefulExitStarts(d: PerpPerpDecider, l: Lots, s: Engine, env: Env)
    requires l.Valid() && s.pair.status == Active && s.pair.longLeg.key != s.pair.shortLeg.key
    requires l.Holds(s.pair, DEFAULT_UNWIND_CHUNKS, 0)
    ensures var step := StepOf(d, s, Handled(StrategyCommand(GracefulExit), env));
            AllAccepted(step.sent) ==> ChunkInFlight(l, step.next, step.sent, DEFAULT_UNWIND_CHUNKS, 0)
  {
    var h := Handled(StrategyCommand(GracefulExit), env);
    UnwindClosesItsPart(d, s, h);
    assert StepOf(d, s, h).next.pair.tracker.schedule == Some(Schedule(DEFAULT_UNWIND_CHUNKS, 1));
  }

  /** GracefulExit on an active pair of whole lots, with every order it sends accepted and filled in full:
      after exactly four chunks the pair is flat and inactive with nothing more sent, and it is still
      unwinding before that. */
  lemma {:induction false} GracefulExitCloses(
    d: PerpPerpDecider, l: Lots, s: Engine, env: Env, run: seq<Progress>, rounds: seq<Round>, i: nat)
    requires l.Valid() && s.pair.status == Active && s.pair.longLeg.key != s.pair.shortLeg.key
    requires l.Holds(s.pair, DEFAULT_UNWIND_CHUNKS, 0)
    requires |rounds| == DEFAULT_UNWIND_CHUNKS && |run| == |rounds| + 1
    requires var step := StepOf(d, s, Handled(StrategyCommand(GracefulExit), env));
             run[0] == Progress(step.next, step.sent)
    requires forall j :: 0 <= j < |rounds| ==> RoundStep(d, l, run[j], rounds[j], run[j + 1])
    requires i <= DEFAULT_UNWIND_CHUNKS
    ensures if i < DEFAULT_UNWIND_CHUNKS then ChunkInFlight(l, run[i].engine, run[i].sent, DEFAULT_UNWIND_CHUNKS, i)
            else Closed(run[i].engine) && run[i].sent == []
  {
    if i == 0 {
      assert RoundStep(d, l, run[0], rounds[0], run[0 + 1]);
      GracefulExitStarts(d, l, s, env);
    } else {
      GracefulExitCloses(d, l, s, env, run, rounds, i - 1);
      assert RoundStep(d, l, run[i - 1], rounds[i - 1], run[i - 1 + 1]);
      RoundAdvances(d, l, run[i - 1].engine, run[i - 1].sent, DEFAULT_UNWIND_CHUNKS, i - 1, rounds[i - 1]);
    }
  }
}
