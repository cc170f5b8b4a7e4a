/** The account manager actor (core/src/manager/account.rs): a snapshot cache per exchange with one
    fetch in flight and a queue of commands waiting for it. */
module AccountManager {
  import opened Types
  import opened Collateral
  import opened SingleFlight

  datatype Query =
    | ModelQuery
    | PartitionsQuery
    | BalancesQuery(asset: Option<Currency>, partition: Option<PartitionRef>, includeZero: bool)
    | CollateralQuery(quoteAsset: Currency, partition: Option<PartitionRef>)
    | MarginQuery(partition: Option<PartitionRef>)
    | ReconcileQuery
    | SnapshotQuery

  /** `id` stands for the reply channel. */
  datatype Command = Command(id: nat, exchange: Exchange, query: Query)

  datatype AccountError = PartitionNotFound | NoSnapshotCached | FetchFailed(reason: string)

  datatype MarginMode = Cross | Portfolio

  datatype Reply =
    | ModelReply(model: AccountModel)
    | PartitionsReply(partitions: seq<PartitionRef>)
    | BalancesReply(balances: seq<BalanceView>)
    | CollateralReply(summary: CollateralSummary)
    | MarginReply(mode: MarginMode)
    | SnapshotReply(snapshot: AccountSnapshot)
    | ErrorReply(error: AccountError)

  datatype Answer = Answer(command: Command, reply: Reply)

  datatype Event = SnapshotUpdated(exchange: Exchange) | SnapshotReconciled(exchange: Exchange)

  /** What handling one message lets out: replies, broadcasts and fetches started. */
  datatype Output = Output(answers: seq<Answer>, events: seq<Event>, started: seq<Exchange>)

  datatype Actor = Actor(
    snapshots: map<Exchange, AccountSnapshot>, pending: map<Exchange, seq<Command>>, fetching: set<Exchange>)
  {
    function Queue(e: Exchange): seq<Command> {
      if e in pending then pending[e] else []
    }
  }

  // ---- answers from the cache -----------------------------------------------------------------------

  function SelectBalances(
    s: AccountSnapshot, asset: Option<Currency>, partition: Option<PartitionRef>, includeZero: bool): seq<BalanceView>
  {
    Filter((b: BalanceView) => includeZero || b.total != 0.0 || b.unrealizedPnl != 0.0,
           Filter((b: BalanceView) => partition.None? || b.partition == partition,
                  Filter((b: BalanceView) => asset.None? || b.asset == asset.value, s.balances)))
  }

  function ReplyFrom(s: AccountSnapshot, c: Command): Reply {
    match c.query
    case ModelQuery => ModelReply(s.model)
    case PartitionsQuery => PartitionsReply(s.partitions)
    case BalancesQuery(asset, partition, zero) => BalancesReply(SelectBalances(s, asset, partition, zero))
    case CollateralQuery(asset, partition) =>
      (match Summarize(s, c.exchange, asset, partition)
       case Some(summary) => CollateralReply(summary)
       case None => ErrorReply(PartitionNotFound))
    case MarginQuery(partition) =>
      if UnknownPartition(s, partition) then ErrorReply(PartitionNotFound)
      else MarginReply(if s.model.Unified? then Portfolio else Cross)
    case ReconcileQuery => SnapshotReply(s)
    case SnapshotQuery => SnapshotReply(s)
  }

  function Dispatched(snapshots: map<Exchange, AccountSnapshot>, c: Command): Answer {
    Answer(c, if c.exchange in snapshots then ReplyFrom(snapshots[c.exchange], c) else ErrorReply(NoSnapshotCached))
  }

  function DispatchEvents(snapshots: map<Exchange, AccountSnapshot>, c: Command): seq<Event> {
    if c.query.ReconcileQuery? && c.exchange in snapshots then [SnapshotReconciled(c.exchange)] else []
  }

  function DispatchAll(snapshots: map<Exchange, AccountSnapshot>, cs: seq<Command>): seq<Answer> {
    seq(|cs|, i requires 0 <= i < |cs| => Dispatched(snapshots, cs[i]))
  }

  function AllDispatchEvents(snapshots: map<Exchange, AccountSnapshot>, cs: seq<Command>): seq<Event> {
    if cs == [] then [] else AllDispatchEvents(snapshots, cs[..|cs| - 1]) + DispatchEvents(snapshots, cs[|cs| - 1])
  }

  function RejectAll(cs: seq<Command>, e: AccountError): seq<Answer> {
    seq(|cs|, i requires 0 <= i < |cs| => Answer(cs[i], ErrorReply(e)))
  }

  // ---- the steps ------------------------------------------------------------------------------------

  function FetchStarted(a: Actor, e: Exchange): (Actor, seq<Exchange>) {
    if e in a.fetching then (a, []) else (a.(fetching := a.fetching + {e}), [e])
  }

  function Enqueued(a: Actor, c: Command): (Actor, Output) {
    var (b, started) := FetchStarted(a, c.exchange);
    (b.(pending := b.pending[c.exchange := b.Queue(c.exchange) + [c]]), Output([], [], started))
  }

  /** `stale` tells whether the cached snapshot, if any, is too old. */
  function OnCommand(a: Actor, c: Command, stale: bool): (Actor, Output) {
    if c.query.ReconcileQuery? || c.exchange !in a.snapshots then Enqueued(a, c)
    else
      var (b, started) := if stale then FetchStarted(a, c.exchange) else (a, []);
      (b, Output([Dispatched(b.snapshots, c)], DispatchEvents(b.snapshots, c), started))
  }

  predicate HasReconcile(cs: seq<Command>) {
    exists c <- cs :: c.query.ReconcileQuery?
  }

  function OnFetchResult(a: Actor, e: Exchange, r: Result<AccountSnapshot, string>): (Actor, Output) {
    var waiting := a.Queue(e);
    var cleared := a.(fetching := a.fetching - {e}, pending := a.pending - {e});
    match r
    case Ok(s) =>
      var b := cleared.(snapshots := a.snapshots[e := s]);
      (b, Output(DispatchAll(b.snapshots, waiting),
                 (if HasReconcile(waiting) then [] else [SnapshotUpdated(e)])
                 + AllDispatchEvents(b.snapshots, waiting), []))
    case Err(reason) => (cleared, Output(RejectAll(waiting, FetchFailed(reason)), [], []))
  }

  class AccountManagerActor {
    var snapshots: map<Exchange, AccountSnapshot>
    var pending: map<Exchange, seq<Command>>
    var fetching: set<Exchange>

    function State(): Actor
      reads this
    {
      Actor(snapshots, pending, fetching)
    }

    constructor ()
      ensures State() == Actor(map[], map[], {})
    {
      snapshots, pending, fetching := map[], map[], {};
    }

    method StartFetch(e: Exchange) returns (started: seq<Exchange>)
      modifies this`fetching
      ensures (State(), started) == FetchStarted(old(State()), e)
    {
      started := [];
      if e !in fetching {
        fetching := fetching + {e};
        started := [e];
      }
    }

    method Push(c: Command)
      modifies this`pending
      ensures pending == old(pending)[c.exchange := old(State()).Queue(c.exchange) + [c]]
    {
      if c.exchange !in pending {
        pending := pending[c.exchange := []];
      }
      pending := pending[c.exchange := pending[c.exchange] + [c]];
    }

    method HandleCommand(c: Command, stale: bool) returns (out: Output)
      modifies this`pending, this`fetching
      ensures (State(), out) == OnCommand(old(State()), c, stale)
    {
      var started := [];
      if c.query.ReconcileQuery? || c.exchange !in snapshots {
        if c.exchange !in fetching {
          started := StartFetch(c.exchange);
        }
        Push(c);
        return Output([], [], started);
      }
      if stale {
        if c.exchange !in fetching {
          started := StartFetch(c.exchange);
        }
      }
      var answer, events := DispatchCommand(c);
      return Output([answer], events, started);
    }

    method DispatchCommand(c: Command) returns (answer: Answer, events: seq<Event>)
      ensures answer == Dispatched(snapshots, c) && events == DispatchEvents(snapshots, c)
    {
      events := [];
      if c.exchange !in snapshots {
        return Answer(c, ErrorReply(NoSnapshotCached)), events;
      }
      if c.query.ReconcileQuery? {
        events := [SnapshotReconciled(c.exchange)];
      }
      answer := Answer(c, ReplyFrom(snapshots[c.exchange], c));
    }

    /** Answers `waiting` from the cache, in order. */
    method DispatchQueue(waiting: seq<Command>) returns (answers: seq<Answer>, events: seq<Event>)
      ensures answers == DispatchAll(snapshots, waiting) && events == AllDispatchEvents(snapshots, waiting)
    {
      answers, events := [], [];
      for i := 0 to |waiting|
        invariant answers == DispatchAll(snapshots, waiting[..i])
        invariant events == AllDispatchEvents(snapshots, waiting[..i])
      {
        var answer, more := DispatchCommand(waiting[i]);
        assert waiting[..i + 1][..i] == waiting[..i];
        answers, events := answers + [answer], events + more;
      }
      assert waiting[..|waiting|] == waiting;
    }

    static method RejectQueue(waiting: seq<Command>, e: AccountError) returns (answers: seq<Answer>)
      ensures answers == RejectAll(waiting, e)
    {
      answers := [];
      for i := 0 to |waiting|
        invariant answers == RejectAll(waiting[..i], e)
      {
        answers := answers + [Answer(waiting[i], ErrorReply(e))];
      }
      assert waiting[..|waiting|] == waiting;
    }

    method HandleFetchResult(e: Exchange, r: Result<AccountSnapshot, string>) returns (out: Output)
      modifies this
      ensures (State(), out) == OnFetchResult(old(State()), e, r)
    {
      fetching := fetching - {e};
      var waiting := if e in pending then pending[e] else [];
      pending := pending - {e};
      match r {
        case Ok(s) =>
          snapshots := snapshots[e := s];
          var announced := if HasReconcile(waiting) then [] else [SnapshotUpdated(e)];
          var answers, events := DispatchQueue(waiting);
          out := Output(answers, announced + events, []);
        case Err(reason) =>
          var answers := RejectQueue(waiting, FetchFailed(reason));
          out := Output(answers, [], []);
      }
    }
  }

  // ---- every reachable state ------------------------------------------------------------------------

  datatype Message =
    | Receive(command: Command, stale: bool)
    | Deliver(exchange: Exchange, result: Result<AccountSnapshot, string>)

  /** The actor with the fetches that are under way and the commands received and answered so far. */
  datatype System = System(
    actor: Actor, inFlight: multiset<Exchange>, received: multiset<Command>, answered: multiset<Command>)

  function Commands(answers: seq<Answer>): seq<Command> {
    seq(|answers|, i requires 0 <= i < |answers| => answers[i].command)
  }

  function Handle(a: Actor, m: Message): (Actor, Output) {
    match m
    case Receive(c, stale) => OnCommand(a, c, stale)
    case Deliver(e, r) => OnFetchResult(a, e, r)
  }

  function Next(s: System, m: Message): System {
    var (a, out) := Handle(s.actor, m);
    System(a,
           (if m.Deliver? then s.inFlight - multiset{m.exchange} else s.inFlight) + multiset(out.started),
           if m.Receive? then s.received + multiset{m.command} else s.received,
           s.answered + multiset(Commands(out.answers)))
  }

  const INITIAL := System(Actor(map[], map[], {}), multiset{}, multiset{}, multiset{})

  /** Results are delivered for fetches that are under way. */
  predicate Possible(s: System, m: Message) {
    m.Deliver? ==> m.exchange in s.inFlight
  }

  ghost predicate StepAt(states: seq<System>, messages: seq<Message>, i: nat)
    requires i < |messages| < |states|
  {
    Possible(states[i], messages[i]) && states[i + 1] == Next(states[i], messages[i])
  }

  ghost predicate IsRun(states: seq<System>, messages: seq<Message>) {
    && |states| == |messages| + 1 && states[0] == INITIAL
    && forall i :: 0 <= i < |messages| ==> StepAt(states, messages, i)
  }

  function ExchangeOf(c: Command): Exchange {
    c.exchange
  }

  function FlowOf(s: System): Flow<Exchange, Command> {
    Flow(s.actor.pending, s.actor.fetching, s.inFlight, s.received, s.answered)
  }

  predicate MustWait(a: Actor, c: Command) {
    c.query.ReconcileQuery? || c.exchange !in a.snapshots
  }

  /** The step of the coalescing protocol that a message is. */
  function ProtocolStep(s: System, m: Message): Flow<Exchange, Command> {
    var f := FlowOf(s);
    match m
    case Receive(c, stale) =>
      if MustWait(s.actor, c) then f.Enqueued(c.exchange, c)
      else (if stale then f.Fetching(c.exchange) else f).Answered(c)
    case Deliver(e, _) => f.Delivered(e)
  }

  lemma CommandsOfDispatched(snapshots: map<Exchange, AccountSnapshot>, cs: seq<Command>, e: AccountError)
    ensures Commands(DispatchAll(snapshots, cs)) == cs && Commands(RejectAll(cs, e)) == cs
  {}

  lemma WaitRefines(s: System, c: Command, stale: bool)
    requires MustWait(s.actor, c)
    ensures FlowOf(Next(s, Receive(c, stale))) == ProtocolStep(s, Receive(c, stale))
  {
    var (a, out) := Enqueued(s.actor, c);
    AtMostOne(out.started);
    assert Commands(out.answers) == [];
    AtMostOne(Commands(out.answers));
    assert s.answered + multiset{} == s.answered && s.inFlight + multiset{} == s.inFlight;
  }

  lemma AnswerRefines(s: System, c: Command, stale: bool)
    requires !MustWait(s.actor, c)
    ensures FlowOf(Next(s, Receive(c, stale))) == ProtocolStep(s, Receive(c, stale))
  {
    var out := OnCommand(s.actor, c, stale).1;
    AtMostOne(out.started);
    assert Commands(out.answers) == [c];
    AtMostOne([c]);
    assert s.inFlight + multiset{} == s.inFlight;
  }

  lemma FetchAnswers(a: Actor, e: Exchange, r: Result<AccountSnapshot, string>)
    ensures var (b, out) := OnFetchResult(a, e, r);
            && Commands(out.answers) == a.Queue(e) && out.started == []
            && b.pending == a.pending - {e} && b.fetching == a.fetching - {e}
  {
    CommandsOfDispatched(a.snapshots, a.Queue(e), FetchFailed(if r.Err? then r.error else ""));
    if r.Ok? {
      CommandsOfDispatched(a.snapshots[e := r.value], a.Queue(e), PartitionNotFound);
    }
  }

  lemma DeliverRefines(s: System, e: Exchange, r: Result<AccountSnapshot, string>)
    ensures FlowOf(Next(s, Deliver(e, r))) == ProtocolStep(s, Deliver(e, r))
  {
    FetchAnswers(s.actor, e, r);
    var left := s.inFlight - multiset{e};
    AtMostOne<Exchange>([]);
    assert left + multiset{} == left;
  }

  /** Every message is a step of the coalescing protocol and keeps it sound. */
  lemma StepSound(s: System, m: Message)
    requires Sound(FlowOf(s), ExchangeOf) && Possible(s, m)
    ensures FlowOf(Next(s, m)) == ProtocolStep(s, m) && Sound(FlowOf(Next(s, m)), ExchangeOf)
  {
    var f := FlowOf(s);
    match m {
      case Receive(c, stale) =>
        if MustWait(s.actor, c) { WaitRefines(s, c, stale); } else { AnswerRefines(s, c, stale); }
        EnqueuedIsSound(f, ExchangeOf, c);
        FetchingIsSound(f, ExchangeOf, c.exchange);
        AnsweredIsSound(if stale then f.Fetching(c.exchange) else f, ExchangeOf, c);
      case Deliver(e, r) =>
        DeliverRefines(s, e, r);
        DeliveredIsSound(f, ExchangeOf, e);
    }
  }

  /** In every reachable state an exchange with queued commands has exactly one fetch in flight, and
      every received command is queued or has been answered exactly once. */
  lemma {:induction false} CommandsNeverLost(states: seq<System>, messages: seq<Message>, n: nat)
    requires IsRun(states, messages) && n <= |messages|
    ensures Sound(FlowOf(states[n]), ExchangeOf)
  {
    if n == 0 {
      IdleIsSound(ExchangeOf);
    } else {
      CommandsNeverLost(states, messages, n - 1);
      assert StepAt(states, messages, n - 1);
      StepSound(states[n - 1], messages[n - 1]);
    }
  }

  /** Once all fetches in flight have been delivered nobody is waiting any more. */
  lemma NobodyStranded(states: seq<System>, messages: seq<Message>, n: nat, c: Command)
    requires IsRun(states, messages) && n <= |messages| && states[n].inFlight == multiset{}
    ensures states[n].answered[c] == states[n].received[c]
    ensures states[n].actor.Queue(c.exchange) == []
  {
    CommandsNeverLost(states, messages, n);
    NothingUnderWay(FlowOf(states[n]), ExchangeOf, c);
  }

  lemma QueuedForIt(states: seq<System>, messages: seq<Message>, n: nat, e: Exchange)
    requires IsRun(states, messages) && n <= |messages|
    ensures forall c <- states[n].actor.Queue(e) :: c.exchange == e
  {
    CommandsNeverLost(states, messages, n);
    forall c | c in states[n].actor.Queue(e) ensures c.exchange == e {
      assert c in FlowOf(states[n]).Queue(e) && ExchangeOf(c) == e;
    }
  }

  function CountReconciles(cs: seq<Command>): nat {
    if cs == [] then 0 else CountReconciles(cs[..|cs| - 1]) + if cs[|cs| - 1].query.ReconcileQuery? then 1 else 0
  }

  function Repeat(e: Event, n: nat): seq<Event> {
    seq(n, _ => e)
  }

  lemma {:induction false} ReconcileEvents(snapshots: map<Exchange, AccountSnapshot>, cs: seq<Command>, e: Exchange)
    requires e in snapshots && forall c <- cs :: c.exchange == e
    ensures AllDispatchEvents(snapshots, cs) == Repeat(SnapshotReconciled(e), CountReconciles(cs))
    ensures CountReconciles(cs) > 0 <==> HasReconcile(cs)
  {
    if cs != [] {
      var init, last := cs[..|cs| - 1], cs[|cs| - 1];
      assert cs == init + [last];
      ReconcileEvents(snapshots, init, e);
      assert HasReconcile(cs) <==> HasReconcile(init) || last.query.ReconcileQuery?;
    }
  }

  /** A successful fetch answers every queued command from exactly the fetched snapshot and announces
      one reconciliation per queued reconcile, or a single update if there is none. A failed one
      answers all with its reason and announces nothing. */
  lemma FetchServesTheQueue(
    states: seq<System>, messages: seq<Message>, n: nat, e: Exchange, r: Result<AccountSnapshot, string>)
    requires IsRun(states, messages) && n < |messages| && messages[n] == Deliver(e, r)
    ensures var a := states[n].actor; var out := Handle(a, messages[n]).1; var waiting := a.Queue(e);
            && |out.answers| == |waiting| && out.started == []
            && (forall i :: 0 <= i < |waiting| ==>
                  out.answers[i] == Answer(waiting[i], if r.Ok? then ReplyFrom(r.value, waiting[i])
                                                       else ErrorReply(FetchFailed(r.error))))
            && out.events == (if r.Err? then []
                              else if CountReconciles(waiting) == 0 then [SnapshotUpdated(e)]
                              else Repeat(SnapshotReconciled(e), CountReconciles(waiting)))
  {
    QueuedForIt(states, messages, n, e);
    FetchEvents(states[n].actor, e, r);
  }

  lemma FetchEvents(a: Actor, e: Exchange, r: Result<AccountSnapshot, string>)
    requires forall c <- a.Queue(e) :: c.exchange == e
    ensures var waiting := a.Queue(e);
            OnFetchResult(a, e, r).1.events ==
              (if r.Err? then []
               else if CountReconciles(waiting) == 0 then [SnapshotUpdated(e)]
               else Repeat(SnapshotReconciled(e), CountReconciles(waiting)))
  {
    var waiting := a.Queue(e);
    if r.Ok? {
      ReconcileEvents(a.snapshots[e := r.value], waiting, e);
      var all := Repeat(SnapshotReconciled(e), CountReconciles(waiting));
      assert [] + all == all;
    }
  }

  /** No reachable step answers with the missing-snapshot error, and a reconcile is never answered
      from what was cached when it arrived. */
  lemma NeverUncached(states: seq<System>, messages: seq<Message>, n: nat, answer: Answer)
    requires IsRun(states, messages) && n < |messages|
    requires answer in Handle(states[n].actor, messages[n]).1.answers
    ensures answer.reply != ErrorReply(NoSnapshotCached)
    ensures answer.command.query.ReconcileQuery? ==>
              messages[n].Deliver? && messages[n].exchange == answer.command.exchange
  {
    var a := states[n].actor;
    match messages[n] {
      case Receive(c, stale) =>
        assert OnCommand(a, c, stale).1.answers in {[], [Dispatched(a.snapshots, c)]};
      case Deliver(e, r) =>
        QueuedForIt(states, messages, n, e);
        DeliveredAnswer(a, e, r, answer);
    }
  }

  lemma DeliveredAnswer(a: Actor, e: Exchange, r: Result<AccountSnapshot, string>, answer: Answer)
    requires answer in OnFetchResult(a, e, r).1.answers && forall c <- a.Queue(e) :: c.exchange == e
    ensures answer.reply != ErrorReply(NoSnapshotCached) && answer.command.exchange == e
  {}
}
