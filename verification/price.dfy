/** The price manager actor (core/src/manager/price.rs): a book cache fed by a websocket, with REST
    fetches coalesced per instrument. */
module PriceManager {
  import opened SingleFlight
  import opened Types

  /** `id` stands for the reply channel; a forced request always goes to REST. */
  datatype Request = Request(id: nat, key: InstrumentKey, forced: bool)

  datatype Answer = Answer(request: Request, reply: Result<OrderBookSnapshot, string>)

  datatype Output = Output(answers: seq<Answer>, updates: seq<OrderBookSnapshot>, started: seq<InstrumentKey>)

  datatype Actor = Actor(
    cache: map<InstrumentKey, OrderBookSnapshot>, pending: map<InstrumentKey, seq<Request>>,
    fetching: set<InstrumentKey>)
  {
    function Queue(k: InstrumentKey): seq<Request> {
      if k in pending then pending[k] else []
    }
  }

  function AnswerAll(rs: seq<Request>, reply: Result<OrderBookSnapshot, string>): seq<Answer> {
    seq(|rs|, i requires 0 <= i < |rs| => Answer(rs[i], reply))
  }

  function OnRequest(a: Actor, r: Request): (Actor, Output) {
    if !r.forced && r.key in a.cache then (a, Output([Answer(r, Ok(a.cache[r.key]))], [], []))
    else
      (a.(pending := a.pending[r.key := a.Queue(r.key) + [r]], fetching := a.fetching + {r.key}),
       Output([], [], if r.key in a.fetching then [] else [r.key]))
  }

  /** The cache takes the book and whoever waits for it is served. */
  function Stored(a: Actor, k: InstrumentKey, s: OrderBookSnapshot): (Actor, Output) {
    (a.(cache := a.cache[k := s], pending := a.pending - {k}), Output(AnswerAll(a.Queue(k), Ok(s)), [s], []))
  }

  function OnRestResult(a: Actor, k: InstrumentKey, r: Result<OrderBookSnapshot, string>): (Actor, Output) {
    var b := a.(fetching := a.fetching - {k});
    match r
    case Ok(s) => Stored(b, k, s)
    case Err(reason) => (b.(pending := b.pending - {k}), Output(AnswerAll(a.Queue(k), Err(reason)), [], []))
  }

  class PriceManagerActor {
    var cache: map<InstrumentKey, OrderBookSnapshot>
    var pending: map<InstrumentKey, seq<Request>>
    var fetching: set<InstrumentKey>

    function State(): Actor
      reads this
    {
      Actor(cache, pending, fetching)
    }

    constructor ()
      ensures State() == Actor(map[], map[], {})
    {
      cache, pending, fetching := map[], map[], {};
    }

    /** Expiry and capacity may drop any entries of the cache at any time. */
    method Evict(keys: set<InstrumentKey>)
      modifies this`cache
      ensures State() == old(State()).(cache := old(cache) - keys)
    {
      cache := cache - keys;
    }

    method StartRestFetch(k: InstrumentKey) returns (started: seq<InstrumentKey>)
      modifies this`fetching
      ensures fetching == old(fetching) + {k} && started == if k in old(fetching) then [] else [k]
    {
      started := [];
      if k !in fetching {
        fetching := fetching + {k};
        started := [k];
      }
    }

    method Push(r: Request)
      modifies this`pending
      ensures pending == old(pending)[r.key := old(State()).Queue(r.key) + [r]]
    {
      if r.key !in pending {
        pending := pending[r.key := []];
      }
      pending := pending[r.key := pending[r.key] + [r]];
    }

    method HandleCommand(r: Request) returns (out: Output)
      modifies this`pending, this`fetching
      ensures (State(), out) == OnRequest(old(State()), r)
    {
      var started := [];
      if r.forced {
        Push(r);
        started := StartRestFetch(r.key);
      } else if r.key in cache {
        return Output([Answer(r, Ok(cache[r.key]))], [], []);
      } else {
        Push(r);
        if r.key !in fetching {
          started := StartRestFetch(r.key);
        }
      }
      assert fetching == old(fetching) + {r.key};
      out := Output([], [], started);
    }

    /** Removes and serves the waiters of `k`. */
    method Serve(k: InstrumentKey, reply: Result<OrderBookSnapshot, string>) returns (answers: seq<Answer>)
      modifies this`pending
      ensures pending == old(pending) - {k} && answers == AnswerAll(old(State()).Queue(k), reply)
    {
      answers := [];
      if k in pending {
        var waiters := pending[k];
        pending := pending - {k};
        for i := 0 to |waiters|
          invariant answers == AnswerAll(waiters[..i], reply)
          invariant pending == old(pending) - {k}
        {
          answers := answers + [Answer(waiters[i], reply)];
        }
        assert waiters[..|waiters|] == waiters;
      }
    }

    method HandleWsUpdate(s: OrderBookSnapshot) returns (out: Output)
      modifies this`cache, this`pending
      ensures (State(), out) == Stored(old(State()), s.key, s)
    {
      cache := cache[s.key := s];
      var answers := Serve(s.key, Ok(s));
      out := Output(answers, [s], []);
    }

    method HandleRestResult(k: InstrumentKey, r: Result<OrderBookSnapshot, string>) returns (out: Output)
      modifies this
      ensures (State(), out) == OnRestResult(old(State()), k, r)
    {
      fetching := fetching - {k};
      match r {
        case Ok(s) =>
          cache := cache[k := s];
          var answers := Serve(k, Ok(s));
          out := Output(answers, [s], []);
        case Err(reason) =>
          var answers := Serve(k, Err(reason));
          out := Output(answers, [], []);
      }
    }
  }

  // ---- every reachable state ------------------------------------------------------------------------

  datatype Message =
    | Receive(request: Request)
    | WsUpdate(book: OrderBookSnapshot)
    | Deliver(key: InstrumentKey, result: Result<OrderBookSnapshot, string>)
    | Expire(keys: set<InstrumentKey>)

  datatype System = System(
    actor: Actor, inFlight: multiset<InstrumentKey>, received: multiset<Request>, answered: multiset<Request>)

  function Requests(answers: seq<Answer>): seq<Request> {
    seq(|answers|, i requires 0 <= i < |answers| => answers[i].request)
  }

  function Handle(a: Actor, m: Message): (Actor, Output) {
    match m
    case Receive(r) => OnRequest(a, r)
    case WsUpdate(s) => Stored(a, s.key, s)
    case Deliver(k, r) => OnRestResult(a, k, r)
    case Expire(keys) => (a.(cache := a.cache - keys), Output([], [], []))
  }

  function Next(s: System, m: Message): System {
    var (a, out) := Handle(s.actor, m);
    System(a,
           (if m.Deliver? then s.inFlight - multiset{m.key} else s.inFlight) + multiset(out.started),
           if m.Receive? then s.received + multiset{m.request} else s.received,
           s.answered + multiset(Requests(out.answers)))
  }

  const INITIAL := System(Actor(map[], map[], {}), multiset{}, multiset{}, multiset{})

  predicate Possible(s: System, m: Message) {
    m.Deliver? ==> m.key in s.inFlight
  }

  ghost predicate StepAt(states: seq<System>, messages: seq<Message>, i: nat)
    requires i < |messages| < |states|
  {
    Possible(states[i], messages[i]) && states[i + 1] == Next(states[i], messages[i])
  }

  ghost predicate IsRun(states: seq<System>, messages: seq<Message>) {
    && |states| == |messages| + 1 && states[0] == INITIAL
    && forall i :: 0 <= i < |messages| ==> StepAt(states, messages, i)
  }

  lemma RunStep(states: seq<System>, messages: seq<Message>, i: nat)
    requires IsRun(states, messages) && i < |messages|
    ensures |states| == |messages| + 1
    ensures Possible(states[i], messages[i]) && states[i + 1] == Next(states[i], messages[i])
  {
    assert StepAt(states, messages, i);
  }

  function KeyOf(r: Request): InstrumentKey {
    r.key
  }

  function FlowOf(s: System): Flow<InstrumentKey, Request> {
    Flow(s.actor.pending, s.actor.fetching, s.inFlight, s.received, s.answered)
  }

  predicate IsCached(a: Actor, r: Request) {
    !r.forced && r.key in a.cache
  }

  /** The step of the coalescing protocol that a message is: a websocket update serves the queue as a
      delivery does, but leaves the fetch under way. */
  function ProtocolStep(s: System, m: Message): Flow<InstrumentKey, Request> {
    var f := FlowOf(s);
    match m
    case Receive(r) => if IsCached(s.actor, r) then f.Answered(r) else f.Enqueued(r.key, r)
    case WsUpdate(book) => f.Served(book.key)
    case Deliver(k, _) => f.Delivered(k)
    case Expire(_) => f
  }

  lemma CachedRefines(s: System, r: Request)
    requires IsCached(s.actor, r)
    ensures FlowOf(Next(s, Receive(r))) == ProtocolStep(s, Receive(r))
  {
    var out := OnRequest(s.actor, r).1;
    assert Requests(out.answers) == [r];
    AtMostOne([r]);
    AtMostOne<InstrumentKey>([]);
    assert s.inFlight + multiset{} == s.inFlight;
  }

  lemma WaitRefines(s: System, r: Request)
    requires !IsCached(s.actor, r)
    ensures FlowOf(Next(s, Receive(r))) == ProtocolStep(s, Receive(r))
  {
    var out := OnRequest(s.actor, r).1;
    AtMostOne(out.started);
    assert Requests(out.answers) == [];
    AtMostOne(Requests(out.answers));
    assert s.answered + multiset{} == s.answered && s.inFlight + multiset{} == s.inFlight;
    if r.key in s.actor.fetching { assert s.actor.fetching + {r.key} == s.actor.fetching; }
  }

  function ReplyOf(m: Message): Result<OrderBookSnapshot, string>
    requires m.WsUpdate? || m.Deliver?
  {
    if m.WsUpdate? then Ok(m.book) else m.result
  }

  lemma RequestsOfAll(rs: seq<Request>, reply: Result<OrderBookSnapshot, string>)
    ensures Requests(AnswerAll(rs, reply)) == rs
  {}

  lemma BookAnswers(a: Actor, m: Message)
    requires m.WsUpdate? || m.Deliver?
    ensures var k := if m.WsUpdate? then m.book.key else m.key;
            var (b, out) := Handle(a, m);
            && Requests(out.answers) == a.Queue(k) && out.started == []
            && b.pending == a.pending - {k} && b.fetching == if m.WsUpdate? then a.fetching else a.fetching - {k}
  {
    RequestsOfAll(a.Queue(if m.WsUpdate? then m.book.key else m.key), ReplyOf(m));
  }

  lemma BookRefines(s: System, m: Message)
    requires m.WsUpdate? || m.Deliver?
    ensures FlowOf(Next(s, m)) == ProtocolStep(s, m)
  {
    BookAnswers(s.actor, m);
    var inFlight := if m.Deliver? then s.inFlight - multiset{m.key} else s.inFlight;
    AtMostOne<InstrumentKey>([]);
    assert inFlight + multiset{} == inFlight;
  }

  lemma ExpiryRefines(s: System, keys: set<InstrumentKey>)
    ensures FlowOf(Next(s, Expire(keys))) == FlowOf(s)
  {
    assert Requests([]) == [];
  }

  lemma StepRefines(s: System, m: Message)
    ensures FlowOf(Next(s, m)) == ProtocolStep(s, m)
  {
    match m {
      case Receive(r) => if IsCached(s.actor, r) { CachedRefines(s, r); } else { WaitRefines(s, r); }
      case Expire(keys) => ExpiryRefines(s, keys);
      case _ => BookRefines(s, m);
    }
  }

  /** Every message is a step of the coalescing protocol and keeps it sound. */
  lemma StepSound(s: System, m: Message)
    requires Sound(FlowOf(s), KeyOf) && Possible(s, m)
    ensures Sound(FlowOf(Next(s, m)), KeyOf)
  {
    StepRefines(s, m);
    var f := FlowOf(s);
    match m {
      case Receive(r) =>
        AnsweredIsSound(f, KeyOf, r);
        EnqueuedIsSound(f, KeyOf, r);
      case WsUpdate(book) =>
        ServedIsSound(f, KeyOf, book.key);
      case Deliver(k, _) =>
        DeliveredIsSound(f, KeyOf, k);
      case Expire(_) =>
    }
  }

  /** In every reachable state, whatever the cache drops and however the two sources race, an
      instrument with waiters has exactly one fetch in flight, and every request is waiting or has
      been answered exactly once. */
  lemma {:induction false} RequestsNeverLost(states: seq<System>, messages: seq<Message>, n: nat)
    requires IsRun(states, messages) && n <= |messages|
    ensures Sound(FlowOf(states[n]), KeyOf)
  {
    if n == 0 {
      IdleIsSound(KeyOf);
    } else {
      RequestsNeverLost(states, messages, n - 1);
      assert StepAt(states, messages, n - 1);
      StepSound(states[n - 1], messages[n - 1]);
    }
  }

  /** With all fetches delivered nobody waits. */
  lemma NobodyStranded(states: seq<System>, messages: seq<Message>, n: nat, r: Request)
    requires IsRun(states, messages) && n <= |messages| && states[n].inFlight == multiset{}
    ensures states[n].answered[r] == states[n].received[r] && states[n].actor.Queue(r.key) == []
  {
    RequestsNeverLost(states, messages, n);
    NothingUnderWay(FlowOf(states[n]), KeyOf, r);
  }

  /** A message that brings a book, or a failure, for `k`. */
  predicate Serves(m: Message, k: InstrumentKey) {
    (m.WsUpdate? && m.book.key == k) || (m.Deliver? && m.key == k)
  }

  lemma StillQueued(s: System, m: Message, r: Request)
    requires r in s.actor.Queue(r.key) && !Serves(m, r.key)
    ensures r in Next(s, m).actor.Queue(r.key)
  {}

  lemma {:induction false} KeepsWaiting(states: seq<System>, messages: seq<Message>, i: nat, j: nat, r: Request)
    requires IsRun(states, messages) && i <= j <= |messages| && r in states[i].actor.Queue(r.key)
    requires forall l :: i <= l < j ==> !Serves(messages[l], r.key)
    ensures r in states[j].actor.Queue(r.key)
    decreases j
  {
    if i < j {
      KeepsWaiting(states, messages, i, j - 1, r);
      RunStep(states, messages, j - 1);
      StillQueued(states[j - 1], messages[j - 1], r);
    }
  }

  lemma Served(s: System, m: Message, r: Request)
    requires r in s.actor.Queue(r.key) && Serves(m, r.key)
    ensures Answer(r, ReplyOf(m)) in Handle(s.actor, m).1.answers
    ensures Next(s, m).actor.Queue(r.key) == []
  {
    var queue, answers := s.actor.Queue(r.key), Handle(s.actor, m).1.answers;
    assert answers == AnswerAll(queue, ReplyOf(m));
    var n :| 0 <= n < |queue| && queue[n] == r;
    assert answers[n] == Answer(r, ReplyOf(m));
  }

  /** A waiting request keeps waiting until the first message from either source for its instrument
      and is then answered with exactly what that message brought. */
  lemma FirstSourceAnswers(states: seq<System>, messages: seq<Message>, i: nat, j: nat, r: Request)
    requires IsRun(states, messages) && i <= j < |messages| && r in states[i].actor.Queue(r.key)
    requires Serves(messages[j], r.key) && forall l :: i <= l < j ==> !Serves(messages[l], r.key)
    ensures r in states[j].actor.Queue(r.key) && states[j + 1].actor.Queue(r.key) == []
    ensures Answer(r, ReplyOf(messages[j])) in Handle(states[j].actor, messages[j]).1.answers
  {
    KeepsWaiting(states, messages, i, j, r);
    RunStep(states, messages, j);
    Served(states[j], messages[j], r);
  }
}
