/** The book cache of the price manager over every run (core/src/manager/price.rs). */
module PriceCache {
  import opened Types
  import opened SingleFlight
  import opened PriceManager

  /** The book that a message brings for `k`. */
  function Brings(m: Message, k: InstrumentKey): Option<OrderBookSnapshot> {
    match m
    case WsUpdate(book) => if book.key == k then Some(book) else None
    case Deliver(key, result) => if key == k && result.Ok? then Some(result.value) else None
    case _ => None
  }

  /** The last book received for `k`, unless it has been dropped since. */
  function LastBook(messages: seq<Message>, k: InstrumentKey): Option<OrderBookSnapshot> {
    if messages == [] then None
    else
      var n := |messages| - 1;
      if Brings(messages[n], k).Some? then Brings(messages[n], k)
      else if messages[n].Expire? && k in messages[n].keys then None
      else LastBook(messages[..n], k)
  }

  predicate Caches(a: Actor, k: InstrumentKey, book: Option<OrderBookSnapshot>) {
    if book.Some? then k in a.cache && a.cache[k] == book.value else k !in a.cache
  }

  lemma StepCaches(a: Actor, m: Message, k: InstrumentKey, book: Option<OrderBookSnapshot>)
    requires Caches(a, k, book)
    ensures Caches(Handle(a, m).0, k, if Brings(m, k).Some? then Brings(m, k)
                                      else if m.Expire? && k in m.keys then None else book)
  {}

  /** In every reachable state the cache holds for each instrument the last book received from either source,
      unless it has been dropped since; failed fetches and requests change nothing. */
  lemma {:induction false} CacheIsLastBook(states: seq<System>, messages: seq<Message>, n: nat, k: InstrumentKey)
    requires IsRun(states, messages) && n <= |messages|
    ensures Caches(states[n].actor, k, LastBook(messages[..n], k))
  {
    if n > 0 {
      CacheIsLastBook(states, messages, n - 1, k);
      RunStep(states, messages, n - 1);
      assert messages[..n][..n - 1] == messages[..n - 1];
      StepCaches(states[n - 1].actor, messages[n - 1], k, LastBook(messages[..n - 1], k));
    }
  }

  /** A request is answered in its own step exactly if it is not forced and such a book is there, with that
      book; otherwise it waits, and a fetch is started exactly if none is under way. */
  lemma AnsweredAtOnceIff(states: seq<System>, messages: seq<Message>, n: nat, r: Request)
    requires IsRun(states, messages) && n < |messages| && messages[n] == Receive(r)
    ensures var out, book := Handle(states[n].actor, messages[n]).1, LastBook(messages[..n], r.key);
            var waits := r.forced || book == None;
            && out.updates == []
            && out.answers == (if waits then [] else [Answer(r, Ok(book.value))])
            && (waits ==> r in states[n + 1].actor.Queue(r.key))
            && out.started == (if waits && states[n].inFlight[r.key] == 0 then [r.key] else [])
  {
    CacheIsLastBook(states, messages, n, r.key);
    RequestsNeverLost(states, messages, n);
    RunStep(states, messages, n);
    assert FlowOf(states[n]).inFlight[r.key] == if r.key in states[n].actor.fetching then 1 else 0;
  }

  /** Every book received is passed on to the subscribers, once, and nothing else is. */
  lemma BooksArePassedOn(a: Actor, m: Message, k: InstrumentKey)
    requires (m.WsUpdate? && m.book.key == k) || (m.Deliver? && m.key == k)
    ensures Handle(a, m).1.updates == if Brings(m, k).Some? then [Brings(m, k).value] else []
  {}
}
