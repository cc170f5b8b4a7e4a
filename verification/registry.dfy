/** The instrument registry (core/src/registry.rs): one primary map and three indices over it. The
    read-write lock makes every operation one atomic step. */
module Registry {
  import opened Types
  import opened Instruments

  datatype SymbolKey = SymbolKey(exchange: Exchange, symbol: string, instrumentType: InstrumentType)

  datatype Indices = Indices(
    instruments: map<InstrumentKey, Instrument>, byExchange: map<Exchange, seq<InstrumentKey>>,
    byPair: map<Pairs, seq<InstrumentKey>>, bySymbol: map<SymbolKey, InstrumentKey>)

  const EMPTY := Indices(map[], map[], map[], map[])

  function SymbolOf(i: Instrument): SymbolKey {
    SymbolKey(i.key.exchange, i.exchangeSymbol, i.key.instrumentType)
  }

  function KeysAt<T>(index: map<T, seq<InstrumentKey>>, t: T): seq<InstrumentKey> {
    if t in index then index[t] else []
  }

  function Pushed<T>(index: map<T, seq<InstrumentKey>>, t: T, k: InstrumentKey): map<T, seq<InstrumentKey>> {
    index[t := KeysAt(index, t) + [k]]
  }

  /** A known key only has its instrument replaced; none of the indices is touched. */
  function Inserted(r: Indices, i: Instrument): Indices {
    var stored := r.instruments[i.key := i];
    if i.key in r.instruments then r.(instruments := stored)
    else Indices(stored, Pushed(r.byExchange, i.key.exchange, i.key), Pushed(r.byPair, i.key.pair, i.key),
                 r.bySymbol[SymbolOf(i) := i.key])
  }

  function InsertedAll(r: Indices, batch: seq<Instrument>): Indices {
    if batch == [] then r else Inserted(InsertedAll(r, batch[..|batch| - 1]), batch[|batch| - 1])
  }

  /** The instruments of a list of keys; unknown keys are passed over. */
  function Found(m: map<InstrumentKey, Instrument>, keys: seq<InstrumentKey>): seq<Instrument> {
    if keys == [] then []
    else
      var n := |keys| - 1;
      Found(m, keys[..n]) + (if keys[n] in m then [m[keys[n]]] else [])
  }

  function FindSymbol(r: Indices, s: SymbolKey): Option<Instrument> {
    if s in r.bySymbol && r.bySymbol[s] in r.instruments then Some(r.instruments[r.bySymbol[s]]) else None
  }

  // ---- the indices agree with the primary map ---------------------------------------------------------

  /** `keys` lists exactly the keys in `live`, each of them once. */
  ghost predicate Lists(keys: seq<InstrumentKey>, live: set<InstrumentKey>) {
    Distinct(keys) && forall k :: k in keys <==> k in live
  }

  ghost function OfExchange(live: set<InstrumentKey>, e: Exchange): set<InstrumentKey> {
    set k <- live | k.exchange == e
  }

  ghost function OfPair(live: set<InstrumentKey>, p: Pairs): set<InstrumentKey> {
    set k <- live | k.pair == p
  }

  ghost predicate Consistent(r: Indices) {
    && (forall k <- r.instruments :: r.instruments[k].key == k)
    && (forall e :: Lists(KeysAt(r.byExchange, e), OfExchange(r.instruments.Keys, e)))
    && (forall p :: Lists(KeysAt(r.byPair, p), OfPair(r.instruments.Keys, p)))
    && (forall s <- r.bySymbol ::
          var k := r.bySymbol[s];
          k in r.instruments && k.exchange == s.exchange && k.instrumentType == s.instrumentType)
  }

  lemma ListsOneMore(keys: seq<InstrumentKey>, live: set<InstrumentKey>, k: InstrumentKey)
    requires Lists(keys, live) && k !in live
    ensures Lists(keys + [k], live + {k})
  {}

  lemma ExchangeListsOneMore(r: Indices, k: InstrumentKey, e: Exchange)
    requires Lists(KeysAt(r.byExchange, e), OfExchange(r.instruments.Keys, e)) && k !in r.instruments
    ensures Lists(KeysAt(Pushed(r.byExchange, k.exchange, k), e), OfExchange(r.instruments.Keys + {k}, e))
  {
    var live := r.instruments.Keys;
    assert OfExchange(live + {k}, e) == OfExchange(live, e) + if e == k.exchange then {k} else {};
    if e == k.exchange { ListsOneMore(KeysAt(r.byExchange, e), OfExchange(live, e), k); }
  }

  lemma PairListsOneMore(r: Indices, k: InstrumentKey, p: Pairs)
    requires Lists(KeysAt(r.byPair, p), OfPair(r.instruments.Keys, p)) && k !in r.instruments
    ensures Lists(KeysAt(Pushed(r.byPair, k.pair, k), p), OfPair(r.instruments.Keys + {k}, p))
  {
    var live := r.instruments.Keys;
    assert OfPair(live + {k}, p) == OfPair(live, p) + if p == k.pair then {k} else {};
    if p == k.pair { ListsOneMore(KeysAt(r.byPair, p), OfPair(live, p), k); }
  }

  lemma InsertKeepsConsistent(r: Indices, i: Instrument)
    requires Consistent(r)
    ensures Consistent(Inserted(r, i))
  {
    var t, k := Inserted(r, i), i.key;
    assert t.instruments.Keys == r.instruments.Keys + {k};
    if k in r.instruments {
      assert r.instruments.Keys + {k} == r.instruments.Keys;
    } else {
      forall e ensures Lists(KeysAt(t.byExchange, e), OfExchange(t.instruments.Keys, e)) {
        ExchangeListsOneMore(r, k, e);
      }
      forall p ensures Lists(KeysAt(t.byPair, p), OfPair(t.instruments.Keys, p)) {
        PairListsOneMore(r, k, p);
      }
    }
  }

  lemma {:induction false} FoundAt(m: map<InstrumentKey, Instrument>, keys: seq<InstrumentKey>)
    requires forall k <- keys :: k in m
    ensures var found := Found(m, keys);
            |found| == |keys| && forall j :: 0 <= j < |found| ==> found[j] == m[keys[j]]
  {
    if keys != [] {
      var n := |keys| - 1;
      FoundAt(m, keys[..n]);
      assert keys[n] in keys;
    }
  }

  /** Following an index of live keys loses and repeats nothing. */
  lemma FoundIsExact(m: map<InstrumentKey, Instrument>, keys: seq<InstrumentKey>)
    requires Distinct(keys) && forall k <- keys :: k in m && m[k].key == k
    ensures var found := Found(m, keys);
            && |found| == |keys| && (forall j :: 0 <= j < |found| ==> found[j] == m[keys[j]])
            && Distinct(found)
  {
    FoundAt(m, keys);
    var found := Found(m, keys);
    forall a, b | 0 <= a < b < |found| ensures found[a] != found[b] {
      assert keys[a] in keys && keys[b] in keys;
      assert found[a].key == keys[a] && found[b].key == keys[b];
    }
  }

  lemma FoundMembers(m: map<InstrumentKey, Instrument>, keys: seq<InstrumentKey>, live: set<InstrumentKey>)
    requires Lists(keys, live) && live <= m.Keys && forall k <- m :: m[k].key == k
    ensures Distinct(Found(m, keys))
    ensures forall i :: i in Found(m, keys) <==> i in m.Values && i.key in live
  {
    FoundIsExact(m, keys);
    var found := Found(m, keys);
    forall i ensures i in found <==> i in m.Values && i.key in live {
      if i in found {
        var j :| 0 <= j < |found| && found[j] == i;
        assert keys[j] in keys;
      }
      if i in m.Values && i.key in live {
        var j :| 0 <= j < |keys| && keys[j] == i.key;
        assert found[j] == i;
      }
    }
  }

  // ---- the registry object ----------------------------------------------------------------------------

  class InstrumentRegistry {
    var instruments: map<InstrumentKey, Instrument>
    var byExchange: map<Exchange, seq<InstrumentKey>>
    var byPair: map<Pairs, seq<InstrumentKey>>
    var bySymbol: map<SymbolKey, InstrumentKey>

    function State(): Indices
      reads this
    {
      Indices(instruments, byExchange, byPair, bySymbol)
    }

    ghost predicate Valid()
      reads this
    {
      Consistent(State())
    }

    constructor ()
      ensures Valid() && State() == EMPTY
    {
      instruments, byExchange, byPair, bySymbol := map[], map[], map[], map[];
    }

    method Insert(i: Instrument)
      requires Valid()
      modifies this
      ensures Valid() && State() == Inserted(old(State()), i)
    {
      InsertKeepsConsistent(State(), i);
      var k := i.key;
      if k in instruments {
        instruments := instruments[k := i];
        return;
      }
      byExchange := byExchange[k.exchange := KeysAt(byExchange, k.exchange) + [k]];
      byPair := byPair[k.pair := KeysAt(byPair, k.pair) + [k]];
      bySymbol := bySymbol[SymbolKey(k.exchange, i.exchangeSymbol, k.instrumentType) := k];
      instruments := instruments[k := i];
    }

    /** One batch under one lock is the same as its instruments inserted one by one. */
    method InsertBatch(batch: seq<Instrument>)
      requires Valid()
      modifies this
      ensures Valid() && State() == InsertedAll(old(State()), batch)
    {
      for n := 0 to |batch|
        invariant Valid() && State() == InsertedAll(old(State()), batch[..n])
      {
        InsertKeepsConsistent(State(), batch[n]);
        assert batch[..n + 1][..n] == batch[..n];
        var i := batch[n];
        var k := i.key;
        if k in instruments {
          instruments := instruments[k := i];
          continue;
        }
        byExchange := byExchange[k.exchange := KeysAt(byExchange, k.exchange) + [k]];
        byPair := byPair[k.pair := KeysAt(byPair, k.pair) + [k]];
        bySymbol := bySymbol[SymbolKey(k.exchange, i.exchangeSymbol, k.instrumentType) := k];
        instruments := instruments[k := i];
      }
      assert batch[..|batch|] == batch;
    }

    method Clear()
      requires Valid()
      modifies this
      ensures Valid() && State() == EMPTY
    {
      instruments, byExchange, byPair, bySymbol := map[], map[], map[], map[];
    }

    /** All instruments; the order of a hash map is left open, so the result is a set. */
    function GetAll(): (all: set<Instrument>)
      requires Valid()
      reads this
      ensures forall i :: i in all <==> i.key in instruments && instruments[i.key] == i
    {
      instruments.Values
    }

    function GetByExchange(e: Exchange): (found: seq<Instrument>)
      requires Valid()
      reads this
      ensures Distinct(found) && forall i :: i in found <==> i in GetAll() && i.key.exchange == e
    {
      FoundMembers(instruments, KeysAt(byExchange, e), OfExchange(instruments.Keys, e));
      Found(instruments, KeysAt(byExchange, e))
    }

    function GetByPair(p: Pairs): (found: seq<Instrument>)
      requires Valid()
      reads this
      ensures Distinct(found) && forall i :: i in found <==> i in GetAll() && i.key.pair == p
    {
      FoundMembers(instruments, KeysAt(byPair, p), OfPair(instruments.Keys, p));
      Found(instruments, KeysAt(byPair, p))
    }

    /** Whatever a symbol finds is live and of the exchange and type that were asked for; nothing is
        found only for a symbol that is not indexed. */
    function GetByExchangeSymbol(e: Exchange, symbol: string, t: InstrumentType): (found: Option<Instrument>)
      requires Valid()
      reads this
      ensures found.Some? ==>
                found.value in GetAll() && found.value.key.exchange == e && found.value.key.instrumentType == t
      ensures found.None? <==> SymbolKey(e, symbol, t) !in bySymbol
    {
      FindSymbol(State(), SymbolKey(e, symbol, t))
    }
  }
}

/** The registry over whole histories. */
module RegistryRuns {
  import opened Types
  import opened Instruments
  import opened Registry

  datatype Operation = Insert(instrument: Instrument) | InsertBatch(instruments: seq<Instrument>) | Clear

  function After(h: seq<Operation>): Indices {
    if h == [] then EMPTY
    else
      var before := After(h[..|h| - 1]);
      match h[|h| - 1]
      case Insert(i) => Inserted(before, i)
      case InsertBatch(batch) => InsertedAll(before, batch)
      case Clear => EMPTY
  }

  /** Everything inserted since the last clear, in order. */
  function SinceClear(h: seq<Operation>): seq<Instrument> {
    if h == [] then []
    else
      var before := SinceClear(h[..|h| - 1]);
      match h[|h| - 1]
      case Insert(i) => before + [i]
      case InsertBatch(batch) => before + batch
      case Clear => []
  }

  /** The last instrument inserted under `k`. */
  function LastUnder(batch: seq<Instrument>, k: InstrumentKey): Option<Instrument> {
    if batch == [] then None
    else if batch[|batch| - 1].key == k then Some(batch[|batch| - 1]) else LastUnder(batch[..|batch| - 1], k)
  }

  /** The last key that was new when it was inserted under symbol `s`. */
  function LastRegistered(batch: seq<Instrument>, s: SymbolKey): Option<InstrumentKey> {
    if batch == [] then None
    else
      var init, i := batch[..|batch| - 1], batch[|batch| - 1];
      if SymbolOf(i) == s && LastUnder(init, i.key) == None then Some(i.key) else LastRegistered(init, s)
  }

  lemma {:induction false} InsertedTwice(r: Indices, a: seq<Instrument>, b: seq<Instrument>)
    ensures InsertedAll(r, a + b) == InsertedAll(InsertedAll(r, a), b)
  {
    if b == [] {
      assert a + b == a;
    } else {
      var n := |b| - 1;
      InsertedTwice(r, a, b[..n]);
      assert (a + b)[..|a + b| - 1] == a + b[..n];
    }
  }

  lemma {:induction false} AfterIsOneBatch(h: seq<Operation>)
    ensures After(h) == InsertedAll(EMPTY, SinceClear(h))
  {
    if h != [] {
      var init := h[..|h| - 1];
      AfterIsOneBatch(init);
      match h[|h| - 1]
      case Insert(i) =>
        assert (SinceClear(init) + [i])[..|SinceClear(init)|] == SinceClear(init);
      case InsertBatch(batch) =>
        InsertedTwice(EMPTY, SinceClear(init), batch);
      case Clear =>
    }
  }

  lemma {:induction false} HoldsLast(batch: seq<Instrument>, k: InstrumentKey, s: SymbolKey)
    ensures var r := InsertedAll(EMPTY, batch);
            && (LastUnder(batch, k) == if k in r.instruments then Some(r.instruments[k]) else None)
            && (LastRegistered(batch, s) == if s in r.bySymbol then Some(r.bySymbol[s]) else None)
  {
    if batch != [] {
      var init, i := batch[..|batch| - 1], batch[|batch| - 1];
      HoldsLast(init, k, s);
      HoldsLast(init, i.key, s);
    }
  }

  lemma {:induction false} AllConsistent(batch: seq<Instrument>)
    ensures Consistent(InsertedAll(EMPTY, batch))
  {
    if batch != [] {
      AllConsistent(batch[..|batch| - 1]);
      InsertKeepsConsistent(InsertedAll(EMPTY, batch[..|batch| - 1]), batch[|batch| - 1]);
    }
  }

  /** After any history the indices agree with the primary map, which holds under every key the last
      instrument since the last clear; a symbol finds the live instrument of the key that was last
      registered under it. */
  lemma RegistryOnEveryRun(h: seq<Operation>, k: InstrumentKey, s: SymbolKey)
    ensures var r, batch := After(h), SinceClear(h);
            && Consistent(r)
            && (LastUnder(batch, k) == if k in r.instruments then Some(r.instruments[k]) else None)
            && (FindSymbol(r, s) == match LastRegistered(batch, s)
                                    case None => None
                                    case Some(key) => LastUnder(batch, key))
  {
    AfterIsOneBatch(h);
    var batch := SinceClear(h);
    AllConsistent(batch);
    HoldsLast(batch, k, s);
    if LastRegistered(batch, s).Some? {
      HoldsLast(batch, LastRegistered(batch, s).value, s);
    }
  }

  // ---- when a symbol lookup is exact ------------------------------------------------------------------

  /** Every live instrument is found under the symbol it carries now, and only instruments that carry
      a symbol are found under it. */
  ghost predicate SymbolsExact(r: Indices) {
    && (forall k <- r.instruments :: FindSymbol(r, SymbolOf(r.instruments[k])) == Some(r.instruments[k]))
    && (forall s <- r.bySymbol :: FindSymbol(r, s).Some? ==> SymbolOf(FindSymbol(r, s).value) == s)
  }

  /** What a caller can look at before inserting. */
  predicate SymbolIsFree(r: Indices, i: Instrument) {
    if i.key in r.instruments then r.instruments[i.key].exchangeSymbol == i.exchangeSymbol
    else SymbolOf(i) !in r.bySymbol
  }

  /** Replacing an instrument under another symbol leaves the old symbol in the index, and a symbol
      shared by two keys hides the first: these are exactly the insertions that break the lookup. */
  lemma InsertKeepsSymbolsExact(r: Indices, i: Instrument)
    requires Consistent(r) && SymbolsExact(r)
    ensures SymbolsExact(Inserted(r, i)) <==> SymbolIsFree(r, i)
  {
    var t := Inserted(r, i);
    InsertKeepsConsistent(r, i);
    assert t.instruments[i.key] == i;
    if SymbolIsFree(r, i) {
      FreeSymbolStaysExact(r, i);
    } else if i.key in r.instruments {
      var s := SymbolOf(i);
      assert s in r.bySymbol ==> FindSymbol(r, s) == Some(r.instruments[r.bySymbol[s]]);
      assert s in r.bySymbol ==> r.bySymbol[s] != i.key;
      assert FindSymbol(t, s) != Some(t.instruments[i.key]);
    } else {
      var hidden := r.bySymbol[SymbolOf(i)];
      assert SymbolOf(FindSymbol(r, SymbolOf(i)).value) == SymbolOf(i);
      assert FindSymbol(t, SymbolOf(t.instruments[hidden])) == Some(i);
    }
  }

  lemma FreeSymbolStaysExact(r: Indices, i: Instrument)
    requires Consistent(r) && SymbolsExact(r) && SymbolIsFree(r, i)
    ensures SymbolsExact(Inserted(r, i))
  {
    var t := Inserted(r, i);
    forall k | k in t.instruments ensures FindSymbol(t, SymbolOf(t.instruments[k])) == Some(t.instruments[k]) {
      StillFound(r, i, k);
    }
    forall s | s in t.bySymbol ensures FindSymbol(t, s).Some? ==> SymbolOf(FindSymbol(t, s).value) == s {
      StillCarried(r, i, s);
    }
  }

  lemma StillFound(r: Indices, i: Instrument, k: InstrumentKey)
    requires Consistent(r) && SymbolsExact(r) && SymbolIsFree(r, i) && k in Inserted(r, i).instruments
    ensures var t := Inserted(r, i); FindSymbol(t, SymbolOf(t.instruments[k])) == Some(t.instruments[k])
  {
    if k in r.instruments {
      var s := SymbolOf(r.instruments[k]);
      assert FindSymbol(r, s) == Some(r.instruments[k]);
      assert r.instruments[r.bySymbol[s]].key == r.bySymbol[s] && r.instruments[k].key == k;
    }
  }

  lemma StillCarried(r: Indices, i: Instrument, s: SymbolKey)
    requires Consistent(r) && SymbolsExact(r) && SymbolIsFree(r, i) && s in Inserted(r, i).bySymbol
    ensures var t := Inserted(r, i); FindSymbol(t, s).Some? ==> SymbolOf(FindSymbol(t, s).value) == s
  {
    if s in r.bySymbol {
      assert FindSymbol(r, s) == Some(r.instruments[r.bySymbol[s]]);
    }
  }

  /** Insertions under free symbols only: then every lookup is exact at the end of the run. */
  lemma FreeRunsStayExact(h: seq<Operation>)
    requires AllFree(SinceClear(h))
    ensures SymbolsExact(After(h))
  {
    AfterIsOneBatch(h);
    FreeBatchStaysExact(SinceClear(h));
  }

  ghost predicate AllFree(batch: seq<Instrument>) {
    forall n :: 0 <= n < |batch| ==> SymbolIsFree(InsertedAll(EMPTY, batch[..n]), batch[n])
  }

  lemma {:induction false} FreeBatchStaysExact(batch: seq<Instrument>)
    requires AllFree(batch)
    ensures SymbolsExact(InsertedAll(EMPTY, batch))
  {
    if batch != [] {
      var n := |batch| - 1;
      var init := batch[..n];
      forall m | 0 <= m < n ensures SymbolIsFree(InsertedAll(EMPTY, init[..m]), init[m]) {
        assert batch[..m] == init[..m];
      }
      FreeBatchStaysExact(init);
      AllConsistent(init);
      FreeSymbolStaysExact(InsertedAll(EMPTY, init), batch[n]);
    }
  }
}
