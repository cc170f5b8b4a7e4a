/** The coalescing protocol that the account and price actors share (core/src/manager/account.rs,
    core/src/manager/price.rs): requests wait in a queue per key, and a key has at most one fetch under
    way, whose delivery serves the whole queue. */
module SingleFlight {

  /** The queues and marks of an actor, with the fetches that are really under way and everything
      received and answered so far. */
  datatype Flow<K(==), R(==)> = Flow(
    queues: map<K, seq<R>>, fetching: set<K>, inFlight: multiset<K>, received: multiset<R>, answered: multiset<R>)
  {
    function Queue(k: K): seq<R> {
      if k in queues then queues[k] else []
    }

    /** A fetch is started unless the key is marked already. */
    function Fetching(k: K): Flow<K, R> {
      if k in fetching then this else this.(fetching := fetching + {k}, inFlight := inFlight + multiset{k})
    }

    function Answered(r: R): Flow<K, R> {
      this.(received := received + multiset{r}, answered := answered + multiset{r})
    }

    function Queued(k: K, r: R): Flow<K, R> {
      this.(received := received + multiset{r}, queues := queues[k := Queue(k) + [r]])
    }

    function Enqueued(k: K, r: R): Flow<K, R> {
      Fetching(k).Queued(k, r)
    }

    /** Everybody who waits for `k` is answered. */
    function Served(k: K): Flow<K, R> {
      this.(queues := queues - {k}, answered := answered + multiset(Queue(k)))
    }

    function Delivered(k: K): Flow<K, R> {
      Served(k).(fetching := fetching - {k}, inFlight := inFlight - multiset{k})
    }
  }

  /** A list with one element or none, as a multiset. */
  lemma AtMostOne<T>(s: seq<T>)
    requires |s| <= 1
    ensures multiset(s) == if s == [] then multiset{} else multiset{s[0]}
  {
    if |s| == 1 { assert s == [s[0]]; }
  }

  function Idle<K(==), R(==)>(): Flow<K, R> {
    Flow(map[], {}, multiset{}, multiset{}, multiset{})
  }

  /** A request is queued or answered, never both or twice. */
  ghost predicate Accounted<K, R>(f: Flow<K, R>, keyOf: R -> K, r: R) {
    f.received[r] == f.answered[r] + multiset(f.Queue(keyOf(r)))[r]
  }

  /** A key has one fetch under way exactly if it is marked, whoever waits waits for a marked key, and
      every request is accounted for. */
  ghost predicate Sound<K(!new), R(!new)>(f: Flow<K, R>, keyOf: R -> K) {
    && (forall k :: f.inFlight[k] == if k in f.fetching then 1 else 0)
    && (forall k :: f.Queue(k) != [] ==> k in f.fetching)
    && (forall k, r :: r in f.Queue(k) ==> keyOf(r) == k)
    && (forall r :: Accounted(f, keyOf, r))
  }

  lemma FetchingIsSound<K(!new), R(!new)>(f: Flow<K, R>, keyOf: R -> K, k: K)
    requires Sound(f, keyOf)
    ensures Sound(f.Fetching(k), keyOf)
  {
    var g := f.Fetching(k);
    assert forall x :: g.Queue(x) == f.Queue(x);
    forall x ensures Accounted(g, keyOf, x) {
      assert Accounted(f, keyOf, x);
    }
  }

  lemma AnsweredIsSound<K(!new), R(!new)>(f: Flow<K, R>, keyOf: R -> K, r: R)
    requires Sound(f, keyOf)
    ensures Sound(f.Answered(r), keyOf)
  {
    var g := f.Answered(r);
    assert forall x :: g.Queue(x) == f.Queue(x);
    forall x ensures Accounted(g, keyOf, x) {
      assert Accounted(f, keyOf, x);
    }
  }

  lemma QueuedAccounts<K, R>(f: Flow<K, R>, keyOf: R -> K, r: R, x: R)
    requires Accounted(f, keyOf, x)
    ensures Accounted(f.Queued(keyOf(r), r), keyOf, x)
  {
    var queue := f.Queue(keyOf(r));
    assert multiset(queue + [r]) == multiset(queue) + multiset{r};
  }

  lemma QueuedIsSound<K(!new), R(!new)>(f: Flow<K, R>, keyOf: R -> K, r: R)
    requires Sound(f, keyOf) && keyOf(r) in f.fetching
    ensures Sound(f.Queued(keyOf(r), r), keyOf)
  {
    var k := keyOf(r);
    var g := f.Queued(k, r);
    assert g.Queue(k) == f.Queue(k) + [r] && forall x :: x != k ==> g.Queue(x) == f.Queue(x);
    forall x ensures Accounted(g, keyOf, x) {
      QueuedAccounts(f, keyOf, r, x);
    }
  }

  lemma EnqueuedIsSound<K(!new), R(!new)>(f: Flow<K, R>, keyOf: R -> K, r: R)
    requires Sound(f, keyOf)
    ensures Sound(f.Enqueued(keyOf(r), r), keyOf)
  {
    FetchingIsSound(f, keyOf, keyOf(r));
    QueuedIsSound(f.Fetching(keyOf(r)), keyOf, r);
  }

  lemma ServedAccounts<K(!new), R(!new)>(f: Flow<K, R>, keyOf: R -> K, k: K, x: R)
    requires Accounted(f, keyOf, x) && (x in f.Queue(k) ==> keyOf(x) == k)
    ensures Accounted(f.Served(k), keyOf, x)
  {}

  lemma ServedIsSound<K(!new), R(!new)>(f: Flow<K, R>, keyOf: R -> K, k: K)
    requires Sound(f, keyOf)
    ensures Sound(f.Served(k), keyOf)
  {
    var g := f.Served(k);
    assert g.Queue(k) == [] && forall x :: x != k ==> g.Queue(x) == f.Queue(x);
    forall x ensures Accounted(g, keyOf, x) {
      ServedAccounts(f, keyOf, k, x);
    }
  }

  /** A delivery may drop the mark because it leaves nobody waiting. */
  lemma DeliveredIsSound<K(!new), R(!new)>(f: Flow<K, R>, keyOf: R -> K, k: K)
    requires Sound(f, keyOf) && k in f.inFlight
    ensures Sound(f.Delivered(k), keyOf)
  {
    ServedIsSound(f, keyOf, k);
    var g, h := f.Served(k), f.Delivered(k);
    assert g.Queue(k) == [] && forall x :: h.Queue(x) == g.Queue(x);
    forall x ensures Accounted(h, keyOf, x) {
      assert Accounted(g, keyOf, x);
    }
  }

  lemma IdleIsSound<K(!new), R(!new)>(keyOf: R -> K)
    ensures Sound(Idle<K, R>(), keyOf)
  {}

  /** With nothing under way nobody waits and every request has been answered as often as received. */
  lemma NothingUnderWay<K(!new), R(!new)>(f: Flow<K, R>, keyOf: R -> K, r: R)
    requires Sound(f, keyOf) && f.inFlight == multiset{}
    ensures f.Queue(keyOf(r)) == [] && f.answered[r] == f.received[r]
  {
    assert f.inFlight[keyOf(r)] == 0 && Accounted(f, keyOf, r);
  }
}
