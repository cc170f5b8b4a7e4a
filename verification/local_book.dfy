/** The iteration order of a tree map with decimal keys. */
module SortedKeys {

  lemma Pick<T>(s: set<T>) returns (x: T)
    requires s != {}
    ensures x in s
  {
    x :| x in s;
  }

  predicate IsLeastOf(m: real, s: set<real>) {
    m in s && forall x <- s :: m <= x
  }

  lemma {:induction false} LeastExists(s: set<real>) returns (m: real)
    requires s != {}
    ensures IsLeastOf(m, s)
    decreases |s|
  {
    m := Pick(s);
    var rest := s - {m};
    if rest != {} {
      var least := LeastExists(rest);
      LeastOfMore(m, least, rest);
      assert s == rest + {m};
      m := if m < least then m else least;
    } else {
      assert s == {m};
    }
  }

  lemma LeastOfMore(a: real, m: real, rest: set<real>)
    requires IsLeastOf(m, rest)
    ensures IsLeastOf(if a < m then a else m, rest + {a})
  {}

  function Least(s: set<real>): (m: real)
    requires s != {}
    ensures m in s && forall x <- s :: m <= x
  {
    assert exists m :: IsLeastOf(m, s) by {
      var m := LeastExists(s);
    }
    var m :| IsLeastOf(m, s);
    m
  }

  ghost predicate StrictlyAscending(ps: seq<real>) {
    forall i, j :: 0 <= i < j < |ps| ==> ps[i] < ps[j]
  }

  /** The order in which the tree map is iterated. */
  function Ascending(s: set<real>): (ps: seq<real>)
    ensures StrictlyAscending(ps) && |ps| == |s|
    ensures forall p :: p in ps <==> p in s
    decreases |s|
  {
    if s == {} then []
    else
      var m := Least(s);
      [m] + Ascending(s - {m})
  }
}

/** Bybit's incremental order book (exchanges/src/bybit/ws.rs). A `BTreeMap` is a map whose keys are
    iterated in ascending order; levels arrive as strings, of which unreadable ones are skipped. */
module BookSides {
  import opened Types

  /** A level after its two strings have been parsed. */
  datatype RawLevel = RawLevel(price: Option<real>, quantity: Option<real>) {
    predicate Readable() {
      price.Some? && quantity.Some?
    }
  }

  type Side = map<real, real>

  datatype Book = Book(bids: Side, asks: Side)

  const EMPTY_BOOK := Book(map[], map[])

  datatype BookMessage = BookMessage(isDelta: bool, bids: seq<RawLevel>, asks: seq<RawLevel>)

  function Get(s: Side, p: real): Option<real> {
    if p in s then Some(s[p]) else None
  }

  /** Quantity of the last readable level at price `p`. */
  function LastLevel(levels: seq<RawLevel>, p: real): Option<real> {
    if levels == [] then None
    else
      var n := |levels| - 1;
      if levels[n].Readable() && levels[n].price.value == p then levels[n].quantity else LastLevel(levels[..n], p)
  }

  function Prices(levels: seq<RawLevel>): set<real> {
    set l <- levels | l.Readable() :: l.price.value
  }

  function MergedAt(s: Side, levels: seq<RawLevel>, p: real): Option<real> {
    var last := LastLevel(levels, p);
    if last.Some? then last else Get(s, p)
  }

  function DeltaAt(s: Side, levels: seq<RawLevel>, p: real): Option<real> {
    var last := LastLevel(levels, p);
    if last == Some(0.0) then None else if last.Some? then last else Get(s, p)
  }

  function Merged(s: Side, levels: seq<RawLevel>): Side {
    map p | p in s.Keys + Prices(levels) && MergedAt(s, levels, p).Some? :: MergedAt(s, levels, p).value
  }

  function Updated(s: Side, levels: seq<RawLevel>): Side {
    map p | p in s.Keys + Prices(levels) && DeltaAt(s, levels, p).Some? :: DeltaAt(s, levels, p).value
  }

  lemma {:induction false} LastLevelPriced(levels: seq<RawLevel>, p: real)
    ensures LastLevel(levels, p).Some? ==> p in Prices(levels)
  {
    if levels != [] {
      var n := |levels| - 1;
      LastLevelPriced(levels[..n], p);
      assert levels == levels[..n] + [levels[n]];
    }
  }

  lemma OneMoreLevel(levels: seq<RawLevel>, i: nat, p: real)
    requires i < |levels|
    ensures LastLevel(levels[..i + 1], p) ==
            if levels[i].Readable() && levels[i].price.value == p then levels[i].quantity
            else LastLevel(levels[..i], p)
  {
    var more := levels[..i + 1];
    assert |more| == i + 1 && more[..i] == levels[..i] && more[i] == levels[i];
  }

  ghost predicate Agrees(r: Side, s: Side, levels: seq<RawLevel>, byDelta: bool) {
    forall p :: Get(r, p) == if byDelta then DeltaAt(s, levels, p) else MergedAt(s, levels, p)
  }

  /** What the loops do with one level. */
  function LevelApplied(r: Side, l: RawLevel, byDelta: bool): Side {
    if !l.Readable() then r
    else if byDelta && l.quantity.value == 0.0 then r - {l.price.value}
    else r[l.price.value := l.quantity.value]
  }

  lemma LevelStep(r: Side, s: Side, levels: seq<RawLevel>, i: nat, byDelta: bool)
    requires i < |levels| && Agrees(r, s, levels[..i], byDelta)
    ensures Agrees(LevelApplied(r, levels[i], byDelta), s, levels[..i + 1], byDelta)
  {
    var t := LevelApplied(r, levels[i], byDelta);
    forall p ensures Get(t, p) == if byDelta then DeltaAt(s, levels[..i + 1], p) else MergedAt(s, levels[..i + 1], p) {
      OneMoreLevel(levels, i, p);
      assert Get(r, p) == if byDelta then DeltaAt(s, levels[..i], p) else MergedAt(s, levels[..i], p);
    }
  }

  lemma AgreeingSide(r: Side, s: Side, levels: seq<RawLevel>, byDelta: bool)
    requires Agrees(r, s, levels, byDelta)
    ensures r == if byDelta then Updated(s, levels) else Merged(s, levels)
  {
    var t := if byDelta then Updated(s, levels) else Merged(s, levels);
    forall p ensures Get(r, p) == Get(t, p) {
      SideOf(s, levels, p);
    }
    SameSide(r, t);
  }

  lemma SideOf(s: Side, levels: seq<RawLevel>, p: real)
    ensures Get(Merged(s, levels), p) == MergedAt(s, levels, p)
    ensures Get(Updated(s, levels), p) == DeltaAt(s, levels, p)
  {
    LastLevelPriced(levels, p);
  }

  lemma SameSide(s: Side, t: Side)
    requires forall p :: Get(s, p) == Get(t, p)
    ensures s == t
  {
    forall p ensures p in s <==> p in t {
      assert Get(s, p) == Get(t, p);
    }
    forall p | p in s ensures s[p] == t[p] {
      assert Get(s, p) == Get(t, p);
    }
  }

  function AfterMessage(b: Book, m: BookMessage): Book {
    if m.isDelta then Book(Updated(b.bids, m.bids), Updated(b.asks, m.asks))
    else Book(Merged(map[], m.bids), Merged(map[], m.asks))
  }

  function BookOf(books: map<string, Book>, symbol: string): Book {
    if symbol in books then books[symbol] else EMPTY_BOOK
  }
}

/** Sorted extraction of a book (`to_snapshot`). */
module BookExtraction {
  import opened Types
  import opened SortedKeys
  import opened BookSides

  function Reversed<T>(s: seq<T>): (r: seq<T>)
    ensures |r| == |s| && forall i :: 0 <= i < |s| ==> r[i] == s[|s| - 1 - i]
  {
    seq(|s|, i requires 0 <= i < |s| => s[|s| - 1 - i])
  }

  function Levels(s: Side, ps: seq<real>): seq<PriceLevel>
    requires forall i :: 0 <= i < |ps| ==> ps[i] in s
  {
    seq(|ps|, i requires 0 <= i < |ps| => PriceLevel(ps[i], s[ps[i]]))
  }

  lemma ReversedMembers<T>(s: seq<T>)
    ensures forall x :: x in Reversed(s) <==> x in s
  {
    forall x | x in s ensures x in Reversed(s) {
      var i :| 0 <= i < |s| && s[i] == x;
      assert Reversed(s)[|s| - 1 - i] == x;
    }
  }

  function BidLevels(s: Side): seq<PriceLevel> {
    ReversedMembers(Ascending(s.Keys));
    Levels(s, Reversed(Ascending(s.Keys)))
  }

  function AskLevels(s: Side): seq<PriceLevel> {
    Levels(s, Ascending(s.Keys))
  }

  function Extracted(b: Book, key: InstrumentKey): OrderBookSnapshot {
    NewSnapshot(key, BidLevels(b.bids), AskLevels(b.asks))
  }

  ghost predicate IsGreatest(p: Option<real>, s: set<real>) {
    if s == {} then p == None else p.Some? && p.value in s && forall x <- s :: x <= p.value
  }

  ghost predicate IsLeast(p: Option<real>, s: set<real>) {
    if s == {} then p == None else p.Some? && p.value in s && forall x <- s :: p.value <= x
  }

  /** Every stored level appears exactly once. */
  ghost predicate Lists(levels: seq<PriceLevel>, s: Side) {
    && |levels| == |s|
    && (forall i, j :: 0 <= i < j < |levels| ==> levels[i].price != levels[j].price)
    && (forall l <- levels :: l.price in s && l.quantity == s[l.price])
  }

  ghost predicate Descend(levels: seq<PriceLevel>) {
    forall i, j :: 0 <= i < j < |levels| ==> levels[i].price > levels[j].price
  }

  ghost predicate Ascend(levels: seq<PriceLevel>) {
    forall i, j :: 0 <= i < j < |levels| ==> levels[i].price < levels[j].price
  }

  /** Extraction lists every bid, best first, and the best bid is the greatest bid of the book. */
  lemma ExtractedBids(b: Book, key: InstrumentKey)
    ensures var x := Extracted(b, key);
            Lists(x.bids, b.bids) && Descend(x.bids) && IsGreatest(x.bestBid, b.bids.Keys)
  {
    BidsSorted(b.bids);
  }

  /** The same for asks, of which the best is the least. */
  lemma ExtractedAsks(b: Book, key: InstrumentKey)
    ensures var x := Extracted(b, key);
            Lists(x.asks, b.asks) && Ascend(x.asks) && IsLeast(x.bestAsk, b.asks.Keys)
  {
    AsksSorted(b.asks);
  }

  /** Of a book whose bids all lie below its asks, mid lies strictly between all of them, and the spread
      is positive. */
  lemma MidLiesBetween(b: Book, key: InstrumentKey, bid: real, ask: real)
    requires bid in b.bids && ask in b.asks && forall p <- b.bids, q <- b.asks :: p < q
    ensures var x := Extracted(b, key);
            x.mid.Some? && bid < x.mid.value < ask && x.spread.Some? && 0.0 < x.spread.value <= ask - bid
  {
    ExtractedBids(b, key);
    ExtractedAsks(b, key);
  }

  /** Mid is the midpoint of the two best prices and spread their whole distance; there is neither when a side
      is empty. */
  lemma MidIsMidpoint(key: InstrumentKey, bids: seq<PriceLevel>, asks: seq<PriceLevel>)
    ensures var x := NewSnapshot(key, bids, asks);
            && x.key == key && x.bids == bids && x.asks == asks
            && (x.mid.Some? <==> bids != [] && asks != []) && (x.spread.Some? <==> bids != [] && asks != [])
            && (bids != [] ==> x.bestBid == Some(bids[0].price)) && (asks != [] ==> x.bestAsk == Some(asks[0].price))
            && (x.mid.Some? ==>
                  && x.mid.value - bids[0].price == asks[0].price - x.mid.value
                  && x.spread.value == asks[0].price - bids[0].price)
  {}

  lemma BidsSorted(s: Side)
    ensures var levels := BidLevels(s);
            Lists(levels, s) && Descend(levels) && IsGreatest(FirstPrice(levels), s.Keys)
  {
    BidsListed(s);
    BidsGreatest(s);
  }

  /** The level at position `i` counted from the best bid. */
  lemma BidLevelAt(s: Side, i: nat)
    requires i < |s|
    ensures |BidLevels(s)| == |Ascending(s.Keys)| == |s|
    ensures var p := Ascending(s.Keys)[|s| - 1 - i]; p in s && BidLevels(s)[i] == PriceLevel(p, s[p])
  {}

  lemma BidsListed(s: Side)
    ensures var levels := BidLevels(s);
            Lists(levels, s) && Descend(levels)
  {
    var levels := BidLevels(s);
    assert |s| == |s.Keys| == |levels|;
    forall i, j | 0 <= i < j < |levels| ensures levels[i].price > levels[j].price {
      BidLevelAt(s, i);
      BidLevelAt(s, j);
    }
    forall l | l in levels ensures l.price in s && l.quantity == s[l.price] {
      var i :| 0 <= i < |levels| && levels[i] == l;
      BidLevelAt(s, i);
    }
  }

  lemma BidsGreatest(s: Side)
    ensures IsGreatest(FirstPrice(BidLevels(s)), s.Keys)
  {}

  lemma AsksSorted(s: Side)
    ensures var levels := AskLevels(s);
            Lists(levels, s) && Ascend(levels) && IsLeast(FirstPrice(levels), s.Keys)
  {}
}

/** The mutable books of the depth feed. */
module LocalBooks {
  import opened Types
  import opened BookSides
  import opened BookExtraction

  // ---- the book object ------------------------------------------------------------------------------

  class LocalBook {
    var bids: Side
    var asks: Side

    function State(): Book
      reads this
    {
      Book(bids, asks)
    }

    constructor ()
      ensures State() == EMPTY_BOOK
    {
      bids, asks := map[], map[];
    }

    method ApplySnapshot(rawBids: seq<RawLevel>, rawAsks: seq<RawLevel>)
      modifies this
      ensures State() == AfterMessage(old(State()), BookMessage(false, rawBids, rawAsks))
    {
      bids := MergeInto(map[], rawBids);
      asks := MergeInto(map[], rawAsks);
    }

    method ApplyDelta(rawBids: seq<RawLevel>, rawAsks: seq<RawLevel>)
      modifies this
      ensures State() == AfterMessage(old(State()), BookMessage(true, rawBids, rawAsks))
    {
      bids := DeltaInto(bids, rawBids);
      asks := DeltaInto(asks, rawAsks);
    }

    method ApplyMessage(m: BookMessage)
      modifies this
      ensures State() == AfterMessage(old(State()), m)
    {
      if m.isDelta {
        ApplyDelta(m.bids, m.asks);
      } else {
        ApplySnapshot(m.bids, m.asks);
      }
    }

    method ToSnapshot(key: InstrumentKey, timestampValid: bool) returns (r: Option<OrderBookSnapshot>)
      ensures r == if timestampValid then Some(Extracted(State(), key)) else None
    {
      if !timestampValid {
        return None;
      }
      r := Some(NewSnapshot(key, BidLevels(bids), AskLevels(asks)));
    }

    static method MergeInto(side: Side, levels: seq<RawLevel>) returns (r: Side)
      ensures r == Merged(side, levels)
    {
      r := side;
      for i := 0 to |levels|
        invariant Agrees(r, side, levels[..i], false)
      {
        LevelStep(r, side, levels, i, false);
        if levels[i].Readable() {
          r := r[levels[i].price.value := levels[i].quantity.value];
        }
      }
      assert levels[..|levels|] == levels;
      AgreeingSide(r, side, levels, false);
    }

    static method DeltaInto(side: Side, levels: seq<RawLevel>) returns (r: Side)
      ensures r == Updated(side, levels)
    {
      r := side;
      for i := 0 to |levels|
        invariant Agrees(r, side, levels[..i], true)
      {
        LevelStep(r, side, levels, i, true);
        if levels[i].Readable() {
          if levels[i].quantity.value == 0.0 {
            r := r - {levels[i].price.value};
          } else {
            r := r[levels[i].price.value := levels[i].quantity.value];
          }
        }
      }
      assert levels[..|levels|] == levels;
      AgreeingSide(r, side, levels, true);
    }
  }

  lemma Overwrite<K, V>(m: map<K, V>, k: K, v: V, w: V)
    ensures m[k := v][k := w] == m[k := w]
  {}

  /** The depth feed: a message of an unknown symbol is ignored, anything but a delta is a snapshot. */
  class BybitDepthPolicy {
    const symbolMap: map<string, InstrumentKey>
    var books: map<string, LocalBook>

    ghost predicate Valid()
      reads this
    {
      && books.Keys <= symbolMap.Keys
      && forall a <- books, b <- books :: a != b ==> books[a] != books[b]
    }

    function State(): map<string, Book>
      reads this, books.Values
    {
      map symbol | symbol in books :: books[symbol].State()
    }

    constructor (symbolMap: map<string, InstrumentKey>)
      ensures Valid() && this.symbolMap == symbolMap && books == map[]
    {
      this.symbolMap := symbolMap;
      books := map[];
    }

    /** The book of `symbol`, created empty on first use. */
    method Entry(symbol: string) returns (book: LocalBook)
      requires Valid() && symbol in symbolMap
      modifies this`books
      ensures Valid() && symbol in books && books[symbol] == book
      ensures fresh(book) || book in old(books.Values)
      ensures State() == old(State())[symbol := BookOf(old(State()), symbol)]
      ensures book.State() == BookOf(old(State()), symbol)
    {
      if symbol !in books {
        var empty := new LocalBook();
        books := books[symbol := empty];
      }
      book := books[symbol];
      assert symbol in old(books) ==> book in old(books.Values);
    }

    /** One message changes the book of its symbol and no other. */
    method Apply(symbol: string, m: BookMessage)
      requires Valid() && symbol in books
      modifies books[symbol]
      ensures State() == old(State())[symbol := AfterMessage(old(State())[symbol], m)]
    {
      books[symbol].ApplyMessage(m);
    }

    method HandleBookMessage(symbol: string, m: BookMessage, timestampValid: bool)
      returns (update: Option<OrderBookSnapshot>)
      requires Valid()
      modifies this`books, books.Values
      ensures Valid()
      ensures if symbol !in symbolMap then State() == old(State()) && update == None
              else
                var book := AfterMessage(BookOf(old(State()), symbol), m);
                && State() == old(State())[symbol := book]
                && update == if timestampValid then Some(Extracted(book, symbolMap[symbol])) else None
    {
      if symbol !in symbolMap {
        return None;
      }
      ghost var before := State();
      var book := Entry(symbol);
      Apply(symbol, m);
      Overwrite(before, symbol, BookOf(before, symbol), AfterMessage(BookOf(before, symbol), m));
      assert book.State() == State()[symbol];
      update := book.ToSnapshot(symbolMap[symbol], timestampValid);
    }
  }
}

/** Books over whole histories of the feed. */
module BookRuns {
  import opened Types
  import opened BookSides

  datatype Incoming = Incoming(symbol: string, message: BookMessage)

  function BooksAfter(known: set<string>, h: seq<Incoming>): map<string, Book> {
    if h == [] then map[]
    else
      var books, last := BooksAfter(known, h[..|h| - 1]), h[|h| - 1];
      if last.symbol in known
      then books[last.symbol := AfterMessage(BookOf(books, last.symbol), last.message)] else books
  }

  /** A level received since the last snapshot of its symbol, and whether a delta brought it. */
  datatype Received = Received(price: real, quantity: real, byDelta: bool)

  function ReceivedLevels(levels: seq<RawLevel>, byDelta: bool): seq<Received> {
    if levels == [] then []
    else
      var n := |levels| - 1;
      ReceivedLevels(levels[..n], byDelta) +
      (if levels[n].Readable() then [Received(levels[n].price.value, levels[n].quantity.value, byDelta)] else [])
  }

  function SideLevels(m: BookMessage, bidSide: bool): seq<RawLevel> {
    if bidSide then m.bids else m.asks
  }

  /** All levels of one side since the last snapshot of `symbol`, in order of arrival. */
  function Since(h: seq<Incoming>, symbol: string, bidSide: bool): seq<Received> {
    if h == [] then []
    else
      var init, last := h[..|h| - 1], h[|h| - 1];
      if last.symbol != symbol then Since(init, symbol, bidSide)
      else
        (if last.message.isDelta then Since(init, symbol, bidSide) else [])
        + ReceivedLevels(SideLevels(last.message, bidSide), last.message.isDelta)
  }

  /** The quantity of the last level at `p`; a delta of quantity zero means there is none. */
  function LastAt(levels: seq<Received>, p: real): Option<real> {
    if levels == [] then None
    else
      var last := levels[|levels| - 1];
      if last.price != p then LastAt(levels[..|levels| - 1], p)
      else if last.byDelta && last.quantity == 0.0 then None else Some(last.quantity)
  }

  lemma {:induction false} LastAtAppended(before: seq<Received>, levels: seq<RawLevel>, byDelta: bool, p: real)
    ensures LastAt(before + ReceivedLevels(levels, byDelta), p) ==
            match LastLevel(levels, p)
            case None => LastAt(before, p)
            case Some(q) => if byDelta && q == 0.0 then None else Some(q)
  {
    if levels == [] {
      assert before + ReceivedLevels(levels, byDelta) == before;
    } else {
      var n := |levels| - 1;
      LastAtAppended(before, levels[..n], byDelta, p);
      var earlier := ReceivedLevels(levels[..n], byDelta);
      if levels[n].Readable() {
        var last := Received(levels[n].price.value, levels[n].quantity.value, byDelta);
        assert ReceivedLevels(levels, byDelta) == earlier + [last];
        assert before + (earlier + [last]) == before + earlier + [last];
        LastAtOneMore(before + earlier, last, p);
      } else {
        assert ReceivedLevels(levels, byDelta) == earlier + [];
        assert before + (earlier + []) == before + earlier;
      }
    }
  }

  lemma LastAtOneMore(levels: seq<Received>, last: Received, p: real)
    ensures LastAt(levels + [last], p) ==
            if last.price != p then LastAt(levels, p)
            else if last.byDelta && last.quantity == 0.0 then None else Some(last.quantity)
  {}

  function SideOfBook(b: Book, bidSide: bool): Side {
    if bidSide then b.bids else b.asks
  }

  /** After any history, and however the symbols interleave, each side of a book holds for every price
      the quantity of the last level received at that price since the last snapshot. */
  lemma {:induction false} BookHoldsLastLevels(
    known: set<string>, h: seq<Incoming>, symbol: string, bidSide: bool, p: real)
    requires symbol in known
    ensures Get(SideOfBook(BookOf(BooksAfter(known, h), symbol), bidSide), p) == LastAt(Since(h, symbol, bidSide), p)
  {
    if h != [] {
      var init, last := h[..|h| - 1], h[|h| - 1];
      BookHoldsLastLevels(known, init, symbol, bidSide, p);
      if last.symbol == symbol {
        var before := BookOf(BooksAfter(known, init), symbol);
        var levels := SideLevels(last.message, bidSide);
        SideOf(SideOfBook(before, bidSide), levels, p);
        SideOf(map[], levels, p);
        var since := if last.message.isDelta then Since(init, symbol, bidSide) else [];
        LastAtAppended(since, levels, last.message.isDelta, p);
      }
    }
  }
}
