/** The paper-trading ledger (exchanges/src/mock.rs): an order fills at once against the best price of
    the fetched book, or rests. */
module PaperExchange {
  import opened Types
  import opened Instruments

  datatype Balance = Balance(total: real, free: real)

  datatype TradingError =
    | BookUnavailable
    | EmptyBookSide(side: OrderSide)
    | InsufficientBalance(required: real, available: real)
    | OrderNotFound(clientOrderId: string)

  datatype Ledger = Ledger(
    balances: map<Currency, Balance>, positions: map<InstrumentKey, Position>,
    openOrders: map<string, Order>, leverages: map<InstrumentKey, real>)

  const INITIAL_CASH := 100000.0

  const INITIAL_LEDGER := Ledger(map[USDT := Balance(INITIAL_CASH, INITIAL_CASH)], map[], map[], map[])

  function BestPrice(book: OrderBookSnapshot, side: OrderSide): Option<real> {
    if side == Buy then book.bestAsk else book.bestBid
  }

  /** A limit order without a price is priced 0 when buying and highest when selling. */
  predicate IsMarketable(r: OrderRequest, price: real) {
    r.orderType == Market ||
    if r.side == Buy then r.price.UnwrapOr(0.0) >= price else r.price.Some? && r.price.value <= price
  }

  function Signed(side: OrderSide, x: real): real {
    if side == Buy then x else -x
  }

  function Worth(size: real, price: real): real {
    size * price
  }

  function AveragePrice(size: real, price: real, added: real, addedPrice: real, newSize: real): real
    requires newSize != 0.0
  {
    (Worth(size, price) + Worth(added, addedPrice)) / newSize
  }

  /** The balances after a fill; a purchase needs free funds in the quote currency, a sale does not
      even need a balance. */
  function Settled(balances: map<Currency, Balance>, r: OrderRequest, price: real)
    : Result<map<Currency, Balance>, TradingError>
  {
    var c, notional := r.key.pair.Quote(), Worth(r.size, price);
    var available := if c in balances then balances[c].free else 0.0;
    if r.side == Buy && (c !in balances || available < notional) then Err(InsufficientBalance(notional, available))
    else if c !in balances then Ok(balances)
    else
      var paid := Signed(r.side, notional);
      Ok(balances[c := Balance(balances[c].total - paid, balances[c].free - paid)])
  }

  function LeverageOf(leverages: map<InstrumentKey, real>, k: InstrumentKey): real {
    if k in leverages then leverages[k] else 1.0
  }

  function Held(s: Ledger, k: InstrumentKey): Position {
    if k in s.positions then s.positions[k] else Position(k, 0.0, 0.0, 0.0, LeverageOf(s.leverages, k), None)
  }

  /** The entry price is averaged when the position ends on the side of the fill. */
  function Moved(p: Position, r: OrderRequest, price: real): Position {
    var size := if r.side == Buy then p.size + r.size else p.size - r.size;
    p.(size := size,
       entryPrice := if r.side == Buy && size > 0.0 then AveragePrice(p.size, p.entryPrice, r.size, price, size)
                     else if r.side == Sell && size < 0.0
                     then AveragePrice(Abs(p.size), p.entryPrice, r.size, price, Abs(size))
                     else p.entryPrice)
  }

  function OrderOf(r: OrderRequest, clientId: string, orderId: string, fill: Option<real>): Order {
    Order("", r.strategyId, clientId, Some(orderId), r, if fill.Some? then Filled else New,
          if fill.Some? then r.size else 0.0, fill)
  }

  /** `book` is what the real exchange returned, `orderId` the fresh identifier. */
  function Placed(s: Ledger, r: OrderRequest, clientId: string, book: Option<OrderBookSnapshot>, orderId: string)
    : (Ledger, Result<Order, TradingError>)
  {
    if book.None? then (s, Err(BookUnavailable))
    else
      var best := BestPrice(book.value, r.side);
      if best.None? then (s, Err(EmptyBookSide(r.side)))
      else if !IsMarketable(r, best.value) then
        var order := OrderOf(r, clientId, orderId, None);
        (s.(openOrders := s.openOrders[clientId := order]), Ok(order))
      else
        match Settled(s.balances, r, best.value)
        case Err(e) => (s, Err(e))
        case Ok(balances) =>
          (s.(balances := balances, positions := s.positions[r.key := Moved(Held(s, r.key), r, best.value)]),
           Ok(OrderOf(r, clientId, orderId, best)))
  }

  function Cancelled(s: Ledger, clientId: string): (Ledger, Result<Order, TradingError>) {
    if clientId !in s.openOrders then (s, Err(OrderNotFound(clientId)))
    else (s.(openOrders := s.openOrders - {clientId}), Ok(s.openOrders[clientId].(status := Canceled)))
  }

  function Leveraged(s: Ledger, k: InstrumentKey, leverage: real): Ledger {
    s.(leverages := s.leverages[k := leverage],
       positions := if k in s.positions then s.positions[k := s.positions[k].(leverage := leverage)] else s.positions)
  }

  class MockExchange {
    var balances: map<Currency, Balance>
    var positions: map<InstrumentKey, Position>
    var openOrders: map<string, Order>
    var leverages: map<InstrumentKey, real>

    function State(): Ledger
      reads this
    {
      Ledger(balances, positions, openOrders, leverages)
    }

    constructor ()
      ensures State() == INITIAL_LEDGER
    {
      balances := map[USDT := Balance(INITIAL_CASH, INITIAL_CASH)];
      positions, openOrders, leverages := map[], map[], map[];
    }

    method PlaceOrder(r: OrderRequest, clientId: string, book: Option<OrderBookSnapshot>, orderId: string)
      returns (result: Result<Order, TradingError>)
      modifies this
      ensures State() == Placed(old(State()), r, clientId, book, orderId).0
      ensures result == Placed(old(State()), r, clientId, book, orderId).1
    {
      if book.None? {
        return Err(BookUnavailable);
      }
      var best := if r.side == Buy then book.value.bestAsk else book.value.bestBid;
      if best.None? {
        return Err(EmptyBookSide(r.side));
      }
      var price := best.value;
      var marketable := IsMarketable(r, price);
      if marketable {
        var quote := r.key.pair.Quote();
        var notional := Worth(r.size, price);
        if quote in balances {
          var balance := balances[quote];
          if r.side == Buy {
            if balance.free < notional {
              return Err(InsufficientBalance(notional, balance.free));
            }
            balance := Balance(balance.total - notional, balance.free - notional);
          } else {
            balance := Balance(balance.total + notional, balance.free + notional);
          }
          balances := balances[quote := balance];
        } else if r.side == Buy {
          return Err(InsufficientBalance(notional, 0.0));
        }
        UpdatePosition(r, price);
      }
      var order := OrderOf(r, clientId, orderId, if marketable then best else None);
      if order.status != Filled {
        openOrders := openOrders[clientId := order];
      }
      result := Ok(order);
    }

    method UpdatePosition(r: OrderRequest, price: real)
      modifies this`positions
      ensures positions == old(positions)[r.key := Moved(Held(old(State()), r.key), r, price)]
    {
      if r.key !in positions {
        var leverage := if r.key in leverages then leverages[r.key] else 1.0;
        positions := positions[r.key := Position(r.key, 0.0, 0.0, 0.0, leverage, None)];
      }
      var position := positions[r.key];
      if r.side == Buy {
        var newSize := position.size + r.size;
        if newSize > 0.0 {
          position := position.(entryPrice := AveragePrice(position.size, position.entryPrice, r.size, price, newSize));
        }
        position := position.(size := newSize);
      } else {
        var newSize := position.size - r.size;
        if newSize < 0.0 {
          var held := Abs(position.size);
          position := position.(entryPrice := AveragePrice(held, position.entryPrice, r.size, price, Abs(newSize)));
        }
        position := position.(size := newSize);
      }
      positions := positions[r.key := position];
    }

    method CancelOrder(clientId: string) returns (result: Result<Order, TradingError>)
      modifies this`openOrders
      ensures (State(), result) == Cancelled(old(State()), clientId)
    {
      if clientId in openOrders {
        var order := openOrders[clientId];
        openOrders := openOrders - {clientId};
        result := Ok(order.(status := Canceled));
      } else {
        result := Err(OrderNotFound(clientId));
      }
    }

    method SetLeverage(k: InstrumentKey, leverage: real)
      modifies this
      ensures State() == Leveraged(old(State()), k, leverage)
    {
      leverages := leverages[k := leverage];
      if k in positions {
        positions := positions[k := positions[k].(leverage := leverage)];
      }
    }
  }

  // ---- single steps -----------------------------------------------------------------------------------

  /** Why an order is refused, and that a refused order or cancellation changes nothing at all. */
  lemma RefusalsChangeNothing(
    s: Ledger, r: OrderRequest, clientId: string, book: Option<OrderBookSnapshot>, orderId: string)
    ensures var (t, result) := Placed(s, r, clientId, book, orderId);
            && (result.Err? ==> t == s)
            && (result.Err? <==>
                || book.None?
                || BestPrice(book.value, r.side).None?
                || (var price := BestPrice(book.value, r.side).value;
                    && r.side == Buy && IsMarketable(r, price)
                    && (r.key.pair.Quote() in s.balances ==> s.balances[r.key.pair.Quote()].free < r.size * price)))
    ensures var (t, result) := Cancelled(s, clientId);
            (result.Err? ==> t == s) && (result.Err? <==> clientId !in s.openOrders)
  {}

  /** The reason that a refused order is given, with the amounts it names. */
  lemma RefusedBecause(
    s: Ledger, r: OrderRequest, clientId: string, book: Option<OrderBookSnapshot>, orderId: string)
    requires Placed(s, r, clientId, book, orderId).1.Err?
    ensures var e := Placed(s, r, clientId, book, orderId).1.error;
            if book.None? then e == BookUnavailable
            else
              var best := if r.side == Buy then book.value.bestAsk else book.value.bestBid;
              var c := r.key.pair.Quote();
              if best.None? then e == EmptyBookSide(r.side)
              else e == InsufficientBalance(r.size * best.value, if c in s.balances then s.balances[c].free else 0.0)
  {}

  /** The limit of the order reaches the best price of the other side. */
  predicate Reaches(r: OrderRequest, book: OrderBookSnapshot) {
    match r.side
    case Buy => book.bestAsk.Some? && book.bestAsk.value <= r.price.UnwrapOr(0.0)
    case Sell => book.bestBid.Some? && r.price.Some? && r.price.value <= book.bestBid.value
  }

  /** An order that is not refused fills at once exactly if it is a market order or its limit reaches the best
      price of the other side: all of it, at that price, moving its position by its size. Otherwise it rests. */
  lemma FillsAtOnceIff(s: Ledger, r: OrderRequest, clientId: string, book: OrderBookSnapshot, orderId: string)
    requires Placed(s, r, clientId, Some(book), orderId).1.Ok?
    ensures var (t, result) := Placed(s, r, clientId, Some(book), orderId);
            var o, best := result.value, if r.side == Buy then book.bestAsk else book.bestBid;
            && o.request == r && o.clientOrderId == clientId && o.exchangeOrderId == Some(orderId)
            && (if r.orderType == Market || Reaches(r, book) then
                  && o.status == Filled && o.filledSize == r.size && o.avgFillPrice == best && best.Some?
                  && Held(t, r.key).size == Held(s, r.key).size + (if r.side == Buy then r.size else -r.size)
                  && t.openOrders == s.openOrders
                else
                  && o.status == New && o.filledSize == 0.0 && o.avgFillPrice == None
                  && t == s.(openOrders := s.openOrders[clientId := o]))
  {}

  /** The reduce-only flag makes no difference: the ledger is the same up to the request that an open order
      keeps, and the answer is the same up to its request. */
  lemma ReduceOnlyIgnored(
    s: Ledger, r: OrderRequest, flag: bool, clientId: string, book: Option<OrderBookSnapshot>, orderId: string)
    ensures var (t, result) := Placed(s, r, clientId, book, orderId);
            var (u, flagged) := Placed(s, r.(reduceOnly := flag), clientId, book, orderId);
            && t.balances == u.balances && t.positions == u.positions && t.leverages == u.leverages
            && t.openOrders.Keys == u.openOrders.Keys
            && (if result.Ok? then flagged.Ok? && flagged.value == result.value.(request := r.(reduceOnly := flag))
                else flagged == result)
  {
    if book.Some? && BestPrice(book.value, r.side).Some? {
      FillIgnoresFlag(s, r, flag, BestPrice(book.value, r.side).value);
    }
  }

  lemma FillIgnoresFlag(s: Ledger, r: OrderRequest, flag: bool, price: real)
    ensures var f := r.(reduceOnly := flag);
            && IsMarketable(f, price) == IsMarketable(r, price)
            && Settled(s.balances, f, price) == Settled(s.balances, r, price)
            && Moved(Held(s, f.key), f, price) == Moved(Held(s, r.key), r, price)
  {}

  /** A filled order of positive size keeps its position between zero and what it was exactly if that lies
      on the other side and is at least as large, reduce-only or not. */
  lemma FilledOrderReducesIff(s: Ledger, r: OrderRequest, clientId: string, book: OrderBookSnapshot, orderId: string)
    requires r.size > 0.0 && Placed(s, r, clientId, Some(book), orderId).1.Ok?
    requires Placed(s, r, clientId, Some(book), orderId).1.value.status == Filled
    ensures var t := Placed(s, r, clientId, Some(book), orderId).0;
            Within(Held(t, r.key).size, Held(s, r.key).size) <==> r.size <= -Signed(r.side, Held(s, r.key).size)
  {}

  /** A reduce-only market sale from flat opens a short position. */
  lemma ReduceOnlyOpensShort(r: OrderRequest, clientId: string, book: OrderBookSnapshot, orderId: string)
    requires r.side == Sell && r.orderType == Market && r.reduceOnly && r.size == 1.0 && book.bestBid.Some?
    ensures Held(Placed(INITIAL_LEDGER, r, clientId, Some(book), orderId).0, r.key).size == -1.0
  {}

  /** A position that grows on its own side keeps an average: its cost is what it cost before plus the
      fill. One that shrinks keeps its entry price. */
  lemma EntryPriceIsAverageCost(p: Position, r: OrderRequest, price: real)
    requires r.size > 0.0
    ensures var q := Moved(p, r, price);
            && (Signed(r.side, p.size) >= 0.0 ==>
                  Abs(q.size) * q.entryPrice == Abs(p.size) * p.entryPrice + r.size * price)
            && (Signed(r.side, q.size) <= 0.0 ==> q.entryPrice == p.entryPrice)
  {}

  /** A fill that turns the position over is all the new position consists of, but the average still
      carries the old one: a purchase gets the right entry price only if that is what the short was
      opened at, a sale never does at positive prices. */
  lemma TurnedOverEntryPrice(p: Position, r: OrderRequest, price: real)
    requires r.size > 0.0 && Signed(r.side, p.size) < 0.0 < Signed(r.side, Moved(p, r, price).size)
    ensures Moved(p, r, price).entryPrice == price <==> p.entryPrice == Signed(r.side, price)
  {
    var q := Moved(p, r, price);
    var carried := if r.side == Buy then p.size * p.entryPrice else Abs(p.size) * p.entryPrice;
    Requotient(carried + r.size * price, Abs(q.size));
    var e, x := p.entryPrice, Abs(p.size);
    assert Abs(q.size) == r.size - x;
    if q.entryPrice == price {
      assert carried + r.size * price == (r.size - x) * price;
      assert carried == -(x * price);
      SameFactor(x, e, Signed(r.side, price));
    }
    if p.entryPrice == Signed(r.side, price) {
      assert carried == -(x * price);
      assert Abs(q.size) * q.entryPrice == Abs(q.size) * price;
      SameFactor(Abs(q.size), q.entryPrice, price);
    }
  }

  lemma Requotient(x: real, y: real)
    requires y != 0.0
    ensures y * (x / y) == x
  {}

  lemma SameFactor(x: real, a: real, b: real)
    requires x != 0.0
    ensures x * a == x * b <==> a == b
  {}
}

/** The paper ledger over whole histories, measured by what its callers were told. */
module PaperRuns {
  import opened Types
  import opened PaperExchange

  datatype Action =
    | Place(request: OrderRequest, clientId: string, book: Option<OrderBookSnapshot>, orderId: string)
    | Cancel(clientId: string)
    | SetLeverage(key: InstrumentKey, leverage: real)

  datatype Reply = Answered(result: Result<Order, TradingError>) | LeverageSet

  function Step(s: Ledger, a: Action): (Ledger, Reply) {
    match a
    case Place(r, id, book, orderId) => var (t, result) := Placed(s, r, id, book, orderId); (t, Answered(result))
    case Cancel(id) => var (t, result) := Cancelled(s, id); (t, Answered(result))
    case SetLeverage(k, leverage) => (Leveraged(s, k, leverage), LeverageSet)
  }

  function After(h: seq<Action>): Ledger {
    if h == [] then INITIAL_LEDGER else Step(After(h[..|h| - 1]), h[|h| - 1]).0
  }

  predicate IsFill(reply: Reply) {
    reply.Answered? && reply.result.Ok? && reply.result.value.status == Filled
  }

  function FillOf(reply: Reply): seq<Order> {
    if IsFill(reply) then [reply.result.value] else []
  }

  /** The filled orders that were returned, in order. */
  function Fills(h: seq<Action>): seq<Order> {
    if h == [] then []
    else
      var init := h[..|h| - 1];
      Fills(init) + FillOf(Step(After(init), h[|h| - 1]).1)
  }

  function SizeOf(fills: seq<Order>, k: InstrumentKey): real {
    if fills == [] then 0.0
    else
      var n := |fills| - 1;
      SizeOf(fills[..n], k) +
      (if fills[n].request.key == k then Signed(fills[n].request.side, fills[n].filledSize) else 0.0)
  }

  function Notional(o: Order): real {
    Signed(o.request.side, Worth(o.filledSize, o.avgFillPrice.UnwrapOr(0.0)))
  }

  /** What the fills of pairs quoted in `c` cost. */
  function CostIn(fills: seq<Order>, c: Currency): real {
    if fills == [] then 0.0
    else
      var n := |fills| - 1;
      CostIn(fills[..n], c) + (if fills[n].request.key.pair.Quote() == c then Notional(fills[n]) else 0.0)
  }

  /** What all fills cost. */
  function Cost(fills: seq<Order>): real {
    if fills == [] then 0.0
    else Cost(fills[..|fills| - 1]) + Notional(fills[|fills| - 1])
  }

  lemma OneMoreFill(fills: seq<Order>, o: Order, k: InstrumentKey, c: Currency)
    ensures SizeOf(fills + [o], k) ==
            SizeOf(fills, k) + if o.request.key == k then Signed(o.request.side, o.filledSize) else 0.0
    ensures CostIn(fills + [o], c) == CostIn(fills, c) + if o.request.key.pair.Quote() == c then Notional(o) else 0.0
  {
    assert (fills + [o])[..|fills|] == fills;
  }

  /** `o` moves the size of `k` and the cash by what it filled. */
  ghost predicate Applied(s: Ledger, t: Ledger, o: Order, k: InstrumentKey, cash: real) {
    var left := cash - if o.request.key.pair.Quote() == USDT then Notional(o) else 0.0;
    && t.balances == map[USDT := Balance(left, left)]
    && Held(t, k).size == Held(s, k).size + if o.request.key == k then Signed(o.request.side, o.filledSize) else 0.0
  }

  lemma FilledPlace(s: Ledger, a: Action, k: InstrumentKey, cash: real)
    requires a.Place? && s.balances == map[USDT := Balance(cash, cash)] && IsFill(Step(s, a).1)
    ensures Applied(s, Step(s, a).0, Step(s, a).1.result.value, k, cash)
  {}

  lemma NoFill(s: Ledger, a: Action, k: InstrumentKey)
    requires !IsFill(Step(s, a).1)
    ensures Step(s, a).0.balances == s.balances && Held(Step(s, a).0, k).size == Held(s, k).size
  {}

  lemma OnlyPlacesFill(s: Ledger, a: Action)
    requires IsFill(Step(s, a).1)
    ensures a.Place?
  {}

  /** What one step does to the size of a position and to the cash. */
  lemma LedgerStep(s: Ledger, a: Action, k: InstrumentKey, cash: real)
    requires s.balances == map[USDT := Balance(cash, cash)]
    ensures var (t, reply) := Step(s, a);
            if IsFill(reply) then Applied(s, t, reply.result.value, k, cash)
            else t.balances == s.balances && Held(t, k).size == Held(s, k).size
  {
    if IsFill(Step(s, a).1) {
      OnlyPlacesFill(s, a);
      FilledPlace(s, a, k, cash);
    } else {
      NoFill(s, a, k);
    }
  }

  /** The ledger is what the fills amount to. */
  ghost predicate Matches(s: Ledger, fills: seq<Order>, k: InstrumentKey) {
    var cash := INITIAL_CASH - CostIn(fills, USDT);
    s.balances == map[USDT := Balance(cash, cash)] && Held(s, k).size == SizeOf(fills, k)
  }

  lemma FillMatches(s: Ledger, t: Ledger, o: Order, fills: seq<Order>, k: InstrumentKey)
    requires Matches(s, fills, k) && Applied(s, t, o, k, INITIAL_CASH - CostIn(fills, USDT))
    ensures Matches(t, fills + [o], k)
  {}

  lemma StepMatches(s: Ledger, a: Action, fills: seq<Order>, k: InstrumentKey)
    requires Matches(s, fills, k)
    ensures Matches(Step(s, a).0, fills + FillOf(Step(s, a).1), k)
  {
    LedgerStep(s, a, k, INITIAL_CASH - CostIn(fills, USDT));
    var (t, reply) := Step(s, a);
    if IsFill(reply) {
      FillMatches(s, t, reply.result.value, fills, k);
    } else {
      assert fills + [] == fills;
    }
  }

  /** Positions are the signed sum of the fills; the one balance that is ever held is the initial cash
      less what its fills cost, all of it free. */
  lemma {:induction false} LedgerMatchesFills(h: seq<Action>, k: InstrumentKey)
    ensures Matches(After(h), Fills(h), k)
  {
    if h != [] {
      var init := h[..|h| - 1];
      LedgerMatchesFills(init, k);
      StepMatches(After(init), h[|h| - 1], Fills(init), k);
    }
  }

  // ---- solvency -------------------------------------------------------------------------------------

  ghost predicate Solvent(s: Ledger) {
    forall c <- s.balances :: s.balances[c].free >= 0.0
  }

  /** The price at which an action fills when it is placed, if it does. */
  function FillPrice(a: Action): Option<real> {
    if a.Place? && a.book.Some? && BestPrice(a.book.value, a.request.side).Some?
       && IsMarketable(a.request, BestPrice(a.book.value, a.request.side).value)
    then BestPrice(a.book.value, a.request.side) else None
  }

  /** A sale that costs its seller more than there is: the code checks the funds of purchases only. */
  predicate Overdraws(s: Ledger, a: Action) {
    FillPrice(a).Some? && a.request.side == Sell &&
    var c := a.request.key.pair.Quote();
    c in s.balances && s.balances[c].free + Worth(a.request.size, FillPrice(a).value) < 0.0
  }

  lemma StepSolventIff(s: Ledger, a: Action)
    requires Solvent(s)
    ensures Solvent(Step(s, a).0) <==> !Overdraws(s, a)
  {
    if Overdraws(s, a) {
      var c := a.request.key.pair.Quote();
      assert Step(s, a).0.balances[c].free < 0.0;
    }
  }

  /** An account stays solvent throughout a run exactly if no sale of the run has a negative worth
      beyond the funds at that moment, which never happens to purchases. */
  lemma {:induction false} AlwaysSolventIff(h: seq<Action>)
    ensures (forall n :: 0 <= n <= |h| ==> Solvent(After(h[..n]))) <==>
            (forall n :: 0 <= n < |h| ==> !Overdraws(After(h[..n]), h[n]))
  {
    if forall n :: 0 <= n < |h| ==> !Overdraws(After(h[..n]), h[n]) {
      forall n | 0 <= n <= |h| ensures Solvent(After(h[..n])) {
        SolventUpTo(h, n);
      }
    }
    if forall n :: 0 <= n <= |h| ==> Solvent(After(h[..n])) {
      forall n | 0 <= n < |h| ensures !Overdraws(After(h[..n]), h[n]) {
        assert Solvent(After(h[..n])) && Solvent(After(h[..n + 1]));
        AfterNext(h, n);
        StepSolventIff(After(h[..n]), h[n]);
      }
    }
  }

  /** A sale of -200000 at a bid of 1 takes the initial cash below zero. */
  lemma NegativeSaleOverdraws(r: OrderRequest, clientId: string, book: OrderBookSnapshot, orderId: string)
    requires r.key.pair == BTCUSDT && r.side == Sell && r.orderType == Market && r.size == -200000.0
    requires book.bestBid == Some(1.0)
    ensures var h := [Place(r, clientId, Some(book), orderId)];
            Overdraws(INITIAL_LEDGER, h[0]) && After(h).balances == map[USDT := Balance(-100000.0, -100000.0)]
  {
    var h := [Place(r, clientId, Some(book), orderId)];
    assert h[..0] == [];
    assert After(h) == Step(INITIAL_LEDGER, h[0]).0;
  }

  lemma AfterNext(h: seq<Action>, n: nat)
    requires n < |h|
    ensures After(h[..n + 1]) == Step(After(h[..n]), h[n]).0
    ensures Fills(h[..n + 1]) == Fills(h[..n]) + FillOf(Step(After(h[..n]), h[n]).1)
  {
    assert h[..n + 1][..n] == h[..n];
  }

  lemma {:induction false} SolventUpTo(h: seq<Action>, n: nat)
    requires n <= |h| && forall m :: 0 <= m < n ==> !Overdraws(After(h[..m]), h[m])
    ensures Solvent(After(h[..n]))
  {
    if n > 0 {
      SolventUpTo(h, n - 1);
      AfterNext(h, n - 1);
      StepSolventIff(After(h[..n - 1]), h[n - 1]);
    }
  }

  /** Sizes and prices as every caller sends them. */
  predicate Sensible(a: Action) {
    a.Place? ==>
      && a.request.size >= 0.0
      && (a.book.Some? && a.book.value.bestBid.Some? ==> a.book.value.bestBid.value >= 0.0)
  }

  /** In particular no run of ordinary purchases and sales overdraws the account. */
  lemma {:induction false} NeverOverdrawn(h: seq<Action>)
    requires forall a <- h :: Sensible(a)
    ensures Solvent(After(h))
  {
    if h != [] {
      var init, a := h[..|h| - 1], h[|h| - 1];
      NeverOverdrawn(init);
      assert Sensible(a);
      SensibleFits(After(init), a);
      StepSolventIff(After(init), a);
    }
  }

  lemma SensibleFits(s: Ledger, a: Action)
    requires Sensible(a) && Solvent(s)
    ensures !Overdraws(s, a)
  {
    if FillPrice(a).Some? && a.request.side == Sell {
      assert Worth(a.request.size, FillPrice(a).value) >= 0.0;
    }
  }

  /** In terms of what callers were told: an account is solvent exactly as long as its fills have cost
      no more than the initial cash. */
  lemma SolventIffSpendingIsBounded(h: seq<Action>)
    ensures Solvent(After(h)) <==> CostIn(Fills(h), USDT) <= INITIAL_CASH
  {
    LedgerMatchesFills(h, ANY_KEY);
    SolventMatch(After(h), Fills(h));
  }

  const ANY_KEY := InstrumentKey(Binance, BTCUSDT, Spot)

  lemma SolventMatch(s: Ledger, fills: seq<Order>)
    requires Matches(s, fills, ANY_KEY)
    ensures Solvent(s) <==> CostIn(fills, USDT) <= INITIAL_CASH
  {
    assert USDT in s.balances && s.balances[USDT].free == INITIAL_CASH - CostIn(fills, USDT);
  }

  // ---- cash against cost ----------------------------------------------------------------------------

  /** A filled order lowers the cash by its notional exactly if it is not of MIRAUSDT, which the code
      quotes in MIRA, or its notional is zero. */
  lemma FillPaidIff(h: seq<Action>, a: Action)
    requires IsFill(Step(After(h), a).1)
    ensures var s, (t, reply) := After(h), Step(After(h), a);
            && USDT in s.balances && USDT in t.balances
            && (t.balances[USDT].total == s.balances[USDT].total - Notional(reply.result.value) <==>
                reply.result.value.request.key.pair != MIRAUSDT || Notional(reply.result.value) == 0.0)
  {
    LedgerMatchesFills(h, ANY_KEY);
    FillOnCash(After(h), a, INITIAL_CASH - CostIn(Fills(h), USDT));
  }

  lemma FillOnCash(s: Ledger, a: Action, cash: real)
    requires s.balances == map[USDT := Balance(cash, cash)] && IsFill(Step(s, a).1)
    ensures var (t, reply) := Step(s, a);
            USDT in t.balances &&
            (t.balances[USDT].total == cash - Notional(reply.result.value) <==>
             reply.result.value.request.key.pair != MIRAUSDT || Notional(reply.result.value) == 0.0)
  {
    LedgerStep(s, a, ANY_KEY, cash);
  }

  /** A sale of MIRAUSDT at the best bid: it moves the position and is never paid. */
  predicate IsUnpaidSale(a: Action) {
    FillPrice(a).Some? && a.request.key.pair == MIRAUSDT && a.request.side == Sell &&
    Worth(a.request.size, FillPrice(a).value) != 0.0
  }

  /** What the fills of MIRAUSDT have cost grows by exactly these sales: purchases are all refused. */
  lemma MiraCostStep(h: seq<Action>, n: nat)
    requires n < |h|
    ensures CostIn(Fills(h[..n + 1]), MIRA) == CostIn(Fills(h[..n]), MIRA) -
            if IsUnpaidSale(h[n]) then Worth(h[n].request.size, FillPrice(h[n]).value) else 0.0
  {
    AfterNext(h, n);
    HoldsCashOnly(h[..n]);
    var fills, reply := Fills(h[..n]), Step(After(h[..n]), h[n]).1;
    MiraFill(After(h[..n]), h[n]);
    if IsFill(reply) {
      OneMoreFill(fills, reply.result.value, ANY_KEY, MIRA);
    } else {
      assert fills + [] == fills;
    }
  }

  lemma HoldsCashOnly(h: seq<Action>)
    ensures After(h).balances.Keys == {USDT}
  {
    LedgerMatchesFills(h, ANY_KEY);
  }

  lemma MiraFill(s: Ledger, a: Action)
    requires s.balances.Keys == {USDT}
    ensures var reply := Step(s, a).1;
            if IsFill(reply) && reply.result.value.request.key.pair == MIRAUSDT then
              Notional(reply.result.value) ==
              -(if IsUnpaidSale(a) then Worth(a.request.size, FillPrice(a).value) else 0.0)
            else !IsUnpaidSale(a)
  {}

  lemma {:induction false} CostSplits(fills: seq<Order>)
    ensures Cost(fills) == CostIn(fills, USDT) + CostIn(fills, MIRA)
  {
    if fills != [] {
      CostSplits(fills[..|fills| - 1]);
    }
  }

  /** The cash is the initial cash less what all fills cost. */
  ghost predicate CashMatchesCost(h: seq<Action>) {
    USDT in After(h).balances && After(h).balances[USDT].total == INITIAL_CASH - Cost(Fills(h))
  }

  lemma CashGap(h: seq<Action>)
    ensures CashMatchesCost(h) <==> CostIn(Fills(h), MIRA) == 0.0
  {
    CostSplits(Fills(h));
    LedgerMatchesFills(h, ANY_KEY);
  }

  /** Over a run the cash always matches the cost of the fills exactly if no sale of MIRAUSDT at the best
      bid is among its actions. */
  lemma {:induction false} CashIsConservedIff(h: seq<Action>)
    ensures (forall n :: 0 <= n <= |h| ==> CashMatchesCost(h[..n])) <==> (forall a <- h :: !IsUnpaidSale(a))
  {
    if forall a <- h :: !IsUnpaidSale(a) {
      forall n | 0 <= n <= |h| ensures CashMatchesCost(h[..n]) {
        NoMiraCost(h, n);
        CashGap(h[..n]);
      }
    }
    if forall n :: 0 <= n <= |h| ==> CashMatchesCost(h[..n]) {
      forall n | 0 <= n < |h| ensures !IsUnpaidSale(h[n]) {
        assert CashMatchesCost(h[..n]) && CashMatchesCost(h[..n + 1]);
        CashGap(h[..n]);
        CashGap(h[..n + 1]);
        MiraCostStep(h, n);
      }
    }
  }

  lemma {:induction false} NoMiraCost(h: seq<Action>, n: nat)
    requires n <= |h| && forall a <- h :: !IsUnpaidSale(a)
    ensures CostIn(Fills(h[..n]), MIRA) == 0.0
  {
    if n > 0 {
      NoMiraCost(h, n - 1);
      MiraCostStep(h, n - 1);
    }
  }

  /** So in every reachable ledger that pair can be sold for nothing, but never bought. */
  lemma MiraHasNoBalance(h: seq<Action>, r: OrderRequest, clientId: string, book: OrderBookSnapshot, orderId: string)
    requires r.key.pair == MIRAUSDT && BestPrice(book, r.side).Some? && IsMarketable(r, BestPrice(book, r.side).value)
    ensures var (t, result) := Placed(After(h), r, clientId, Some(book), orderId);
            && (r.side == Buy <==> result.Err?)
            && t.balances == After(h).balances
            && Held(t, r.key).size == Held(After(h), r.key).size - (if r.side == Sell then r.size else 0.0)
  {
    LedgerMatchesFills(h, r.key);
  }

  // ---- resting orders and leverage --------------------------------------------------------------------

  /** The resting order last accepted under `id` that has not been cancelled since. */
  function Resting(h: seq<Action>, id: string): Option<Order> {
    if h == [] then None
    else
      var init, a := h[..|h| - 1], h[|h| - 1];
      var reply := Step(After(init), a).1;
      if a.Place? && a.clientId == id && reply.result.Ok? && reply.result.value.status == New
      then Some(reply.result.value)
      else if a == Cancel(id) then None else Resting(init, id)
  }

  /** An order that did not fill when it was placed stays open and untouched until it is cancelled or
      another one rests under the same client id: no later price ever fills it. */
  lemma {:induction false} RestingOrdersNeverFill(h: seq<Action>, id: string)
    ensures Resting(h, id) == if id in After(h).openOrders then Some(After(h).openOrders[id]) else None
    ensures Resting(h, id).Some? ==>
              && Resting(h, id).value.clientOrderId == id && Resting(h, id).value.status == New
              && Resting(h, id).value.filledSize == 0.0 && Resting(h, id).value.request.orderType == Limit
  {
    if h != [] {
      RestingOrdersNeverFill(h[..|h| - 1], id);
    }
  }

  /** After any history a cancellation gives back the order as it was confirmed when it came to rest, now
      canceled, and takes it off the open orders, or finds that none rests under that id. */
  lemma CancelledAsItRested(h: seq<Action>, id: string)
    ensures var (t, reply) := Step(After(h), Cancel(id));
            && reply.Answered? && id !in t.openOrders
            && t.balances == After(h).balances && t.positions == After(h).positions
            && (if Resting(h, id).Some? then reply.result == Ok(Resting(h, id).value.(status := Canceled))
                else reply.result == Err(OrderNotFound(id)))
  {
    RestingOrdersNeverFill(h, id);
  }

  /** The leverage of a position is the one last set for its instrument, whichever came first. */
  lemma {:induction false} PositionsShowLeverage(h: seq<Action>, k: InstrumentKey)
    ensures k in After(h).positions ==>
              After(h).positions[k].key == k && After(h).positions[k].leverage == LeverageOf(After(h).leverages, k)
  {
    if h != [] {
      PositionsShowLeverage(h[..|h| - 1], k);
    }
  }
}
