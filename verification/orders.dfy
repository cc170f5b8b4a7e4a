/** The order manager actor (core/src/manager/order.rs). `Orders` is the value of its two maps; each
    handled message is one atomic step. */
module OrderManager {
  import opened Types
  import opened Instruments

  datatype TradingError =
    | UnsupportedInstrument | InvalidPostOnly | PriceNotReady | MinNotionalViolated
    | MaxNotionalExceeded | PriceBandViolation | OrderNotFound | ProviderError

  datatype FatFinger = FatFinger(maxOrderNotional: real, maxPriceDeviationPct: real)

  // ---- admission --------------------------------------------------------------------------------

  /** The mid price of the last book seen for `key`; a book may lack one. */
  type Mids = map<InstrumentKey, Option<real>>

  function MidOf(mids: Mids, key: InstrumentKey): Option<real> {
    if key in mids then mids[key] else None
  }

  function CheckFatFinger(ff: FatFinger, mids: Mids, r: OrderRequest): Option<TradingError> {
    var mid := MidOf(mids, r.key);
    if r.postOnly && r.orderType != Limit then Some(InvalidPostOnly)
    else if r.price.None? && mid.None? then Some(PriceNotReady)
    else if (if r.price.Some? then r.price.value else mid.value) * r.size > ff.maxOrderNotional
    then Some(MaxNotionalExceeded)
    else if r.price.None? then None
    else if mid.None? || mid.value == 0.0 then Some(PriceNotReady)
    else if Abs(r.price.value - mid.value) / mid.value * 100.0 > ff.maxPriceDeviationPct then Some(PriceBandViolation)
    else None
  }

  function NormalizedRequest(i: Instrument, r: OrderRequest): OrderRequest
    requires i.Valid()
  {
    r.(size := i.NormalizeQuantity(r.size),
       price := if r.price.Some? then Some(i.NormalizePrice(r.price.value)) else None)
  }

  ghost predicate ValidRegistry(registry: map<InstrumentKey, Instrument>) {
    forall key <- registry :: registry[key].Valid()
  }

  /** The request as it is tracked and sent, or the reason why it is not. */
  function Admit(registry: map<InstrumentKey, Instrument>, ff: FatFinger, mids: Mids, r: OrderRequest)
    : Result<OrderRequest, TradingError>
    requires ValidRegistry(registry)
  {
    if r.key !in registry then Err(UnsupportedInstrument)
    else
      var i := registry[r.key];
      var n := NormalizedRequest(i, r);
      if !i.IsNotionalValid(n.price.UnwrapOr(0.0), n.size) then Err(MinNotionalViolated)
      else match CheckFatFinger(ff, mids, n)
        case Some(e) => Err(e)
        case None => Ok(n)
  }

  lemma FatFingerPassed(ff: FatFinger, mids: Mids, n: OrderRequest)
    requires CheckFatFinger(ff, mids, n) == None
    ensures var mid := MidOf(mids, n.key);
            && (n.postOnly ==> n.orderType == Limit) && mid.Some?
            && (if n.price.Some? then n.price.value else mid.value) * n.size <= ff.maxOrderNotional
            && (n.price.Some? ==>
                  mid.value != 0.0 && Abs(n.price.value - mid.value) / mid.value * 100.0 <= ff.maxPriceDeviationPct)
  {}

  /** What every admitted order satisfies, and that the exchange client's own rounding changes
      nothing in it. A market order has no price to check the minimal notional against. */
  lemma AdmittedIsSafe(registry: map<InstrumentKey, Instrument>, ff: FatFinger, mids: Mids, r: OrderRequest)
    requires ValidRegistry(registry) && Admit(registry, ff, mids, r).Ok?
    ensures var i := registry[r.key]; var n := Admit(registry, ff, mids, r).value;
            && IsMultiple(n.size, i.lotSize) && n.size <= r.size < n.size + i.lotSize
            && n == r.(size := n.size, price := n.price) && NormalizedRequest(i, n) == n
            && (n.price.Some? <==> r.price.Some?)
            && (n.price.None? ==> MidOf(mids, r.key).Some? && MidOf(mids, r.key).value * n.size <= ff.maxOrderNotional)
            && (n.price.Some? ==>
                  var p, mid := n.price.value, MidOf(mids, r.key).value;
                  && IsMultiple(p, i.tickSize) && Abs(p - r.price.value) <= i.tickSize / 2.0
                  && p * n.size <= ff.maxOrderNotional
                  && mid != 0.0 && Abs(p - mid) / mid * 100.0 <= ff.maxPriceDeviationPct
                  && (i.minNotional.Some? ==> p * n.size == 0.0 || p * n.size >= i.minNotional.value))
            && (n.postOnly ==> n.orderType == Limit)
  {
    var i := registry[r.key];
    FatFingerPassed(ff, mids, NormalizedRequest(i, r));
    QuantityFloored(i, r.size);
    NormalizingTwice(i, r.size);
    if r.price.Some? {
      PriceWithinHalfTick(i, r.price.value);
      NormalizingTwice(i, r.price.value);
    }
  }

  /** The limits of a rounded order of known instrument and mid, read from the source's own terms. */
  predicate WithinLimits(i: Instrument, ff: FatFinger, mid: real, size: real, price: Option<real>) {
    match price
    case None => mid * size <= ff.maxOrderNotional
    case Some(p) =>
      && (i.minNotional.Some? ==> p * size == 0.0 || p * size >= i.minNotional.value)
      && p * size <= ff.maxOrderNotional
      && mid != 0.0 && Abs(p - mid) / mid * 100.0 <= ff.maxPriceDeviationPct
  }

  /** An order is admitted exactly if its instrument and the mid are known, it is post-only only as a limit
      order, and its rounded size and price are within the limits. */
  lemma AdmittedIff(registry: map<InstrumentKey, Instrument>, ff: FatFinger, mids: Mids, r: OrderRequest)
    requires ValidRegistry(registry)
    ensures Admit(registry, ff, mids, r).Ok? <==>
            && r.key in registry && MidOf(mids, r.key).Some? && (r.postOnly ==> r.orderType == Limit)
            && var i := registry[r.key];
               WithinLimits(i, ff, MidOf(mids, r.key).value, i.NormalizeQuantity(r.size),
                            if r.price.Some? then Some(i.NormalizePrice(r.price.value)) else None)
  {}

  /** The reason of a refusal by the last check names the first of its limits that the order breaks. */
  lemma RefusedByLimits(ff: FatFinger, mids: Mids, n: OrderRequest)
    requires CheckFatFinger(ff, mids, n).Some?
    ensures var mid, misplaced := MidOf(mids, n.key), n.postOnly && n.orderType != Limit;
            var tooLarge := Worth(mids, n) > ff.maxOrderNotional;
            match CheckFatFinger(ff, mids, n).value
            case InvalidPostOnly => misplaced
            case MaxNotionalExceeded => !misplaced && (n.price.Some? || mid.Some?) && tooLarge
            case PriceNotReady =>
              !misplaced && if n.price.None? then mid.None? else !tooLarge && (mid.None? || mid.value == 0.0)
            case PriceBandViolation =>
              && !misplaced && n.price.Some? && !tooLarge && mid.Some? && mid.value != 0.0
              && Abs(n.price.value - mid.value) / mid.value * 100.0 > ff.maxPriceDeviationPct
            case _ => false
  {}

  /** A refused order is unknown, or too small though it has a price and a worth, or refused by the limits. */
  lemma RefusedBecause(registry: map<InstrumentKey, Instrument>, ff: FatFinger, mids: Mids, r: OrderRequest)
    requires ValidRegistry(registry) && Admit(registry, ff, mids, r).Err?
    ensures var e := Admit(registry, ff, mids, r).error;
            && (e == UnsupportedInstrument <==> r.key !in registry)
            && (r.key in registry ==>
                  var n := NormalizedRequest(registry[r.key], r);
                  && (e == MinNotionalViolated <==> TooSmall(registry[r.key], n))
                  && (e != MinNotionalViolated ==> CheckFatFinger(ff, mids, n) == Some(e)))
  {}

  predicate TooSmall(i: Instrument, n: OrderRequest) {
    && n.price.Some? && i.minNotional.Some?
    && n.price.value * n.size != 0.0 && n.price.value * n.size < i.minNotional.value
  }

  // ---- where the minimal notional does not reach -------------------------------------------------

  /** The registry with another minimal notional for one instrument. */
  function WithMinimum(registry: map<InstrumentKey, Instrument>, key: InstrumentKey, m: Option<real>)
    : map<InstrumentKey, Instrument>
  {
    if key in registry then registry[key := registry[key].(minNotional := m)] else registry
  }

  /** For a request without a price, and for one below one lot, the verdict is the same whatever the
      minimal notional of the instrument. */
  lemma MinimumIgnored(
    registry: map<InstrumentKey, Instrument>, ff: FatFinger, mids: Mids, r: OrderRequest, m: Option<real>)
    requires ValidRegistry(registry)
    requires r.price.None? || (r.key in registry && 0.0 <= r.size < registry[r.key].lotSize)
    ensures Admit(WithMinimum(registry, r.key, m), ff, mids, r) == Admit(registry, ff, mids, r)
  {
    if r.key in registry && 0.0 <= r.size < registry[r.key].lotSize {
      SizeZeroIffBelowOneLot(registry[r.key], r.size);
    }
  }

  /** What an order is worth at its own price, or at the mid if it has none. */
  function Worth(mids: Mids, r: OrderRequest): real {
    (if r.price.Some? then r.price.value else MidOf(mids, r.key).UnwrapOr(0.0)) * r.size
  }

  /** An admitted order meets its minimal notional exactly if neither its price nor its size rounds to
      zero or, without a price, if its whole lots reach the minimum at the mid. */
  lemma AdmittedMeetsMinimumIff(
    registry: map<InstrumentKey, Instrument>, ff: FatFinger, mids: Mids, r: OrderRequest, min: real)
    requires ValidRegistry(registry) && Admit(registry, ff, mids, r).Ok?
    requires registry[r.key].minNotional == Some(min) && min > 0.0
    ensures var i := registry[r.key];
            Worth(mids, Admit(registry, ff, mids, r).value) >= min <==>
            match r.price
            case Some(p) => i.NormalizePrice(p) != 0.0 && !(0.0 <= r.size < i.lotSize)
            case None => MidOf(mids, r.key).value * i.NormalizeQuantity(r.size) >= min
  {
    var i := registry[r.key];
    PassedNotional(registry, ff, mids, r);
    SizeZeroIffBelowOneLot(i, r.size);
    if r.price.Some? {
      ZeroProduct(i.NormalizePrice(r.price.value), i.NormalizeQuantity(r.size));
    }
  }

  lemma PassedNotional(registry: map<InstrumentKey, Instrument>, ff: FatFinger, mids: Mids, r: OrderRequest)
    requires ValidRegistry(registry) && Admit(registry, ff, mids, r).Ok?
    ensures var i, n := registry[r.key], Admit(registry, ff, mids, r).value;
            && n == NormalizedRequest(i, r) && i.IsNotionalValid(n.price.UnwrapOr(0.0), n.size)
            && MidOf(mids, r.key).Some?
  {}

  lemma ZeroProduct(x: real, y: real)
    ensures x * y == 0.0 <==> x == 0.0 || y == 0.0
  {}

  /** A market order of one unit at mid 1 that passes with a minimal notional of 1000, and a limit order
      of half a lot that passes as an order of size zero. */
  lemma BelowMinimumAdmitted(key: InstrumentKey, mids: Mids)
    requires MidOf(mids, key) == Some(1.0)
    ensures var i := Instrument(key, "", 1.0, 1.0, Some(1000.0));
            var market := OrderRequest(key, "", Buy, Market, None, 1.0, false, false);
            var half := OrderRequest(key, "", Buy, Limit, Some(1.0), 0.5, false, false);
            && Admit(map[key := i], FatFinger(10.0, 1.0), mids, market) == Ok(market)
            && Admit(map[key := i], FatFinger(10.0, 1.0), mids, half) == Ok(half.(size := 0.0))
  {
    var i := Instrument(key, "", 1.0, 1.0, Some(1000.0));
    StepsDivide(1, 1.0);
    BelowOneLot(i, 0.5);
  }

  // ---- negative sizes --------------------------------------------------------------------------------

  /** The maximal notional bounds the worth of an admitted order from above only. It bounds its amount
      exactly if price and size together do not lie that far below zero. */
  lemma AdmittedNotionalBoundedIff(
    registry: map<InstrumentKey, Instrument>, ff: FatFinger, mids: Mids, r: OrderRequest)
    requires ValidRegistry(registry) && Admit(registry, ff, mids, r).Ok?
    ensures var n := Admit(registry, ff, mids, r).value;
            && n == NormalizedRequest(registry[r.key], r) && Worth(mids, n) <= ff.maxOrderNotional
            && (Abs(Worth(mids, n)) <= ff.maxOrderNotional <==>
                Worth(mids, NormalizedRequest(registry[r.key], r)) >= -ff.maxOrderNotional)
  {
    PassedNotional(registry, ff, mids, r);
    FatFingerPassed(ff, mids, NormalizedRequest(registry[r.key], r));
  }

  /** With a size and a price that are not negative it does. */
  lemma OrdinaryNotionalBounded(registry: map<InstrumentKey, Instrument>, ff: FatFinger, mids: Mids, r: OrderRequest)
    requires ValidRegistry(registry) && Admit(registry, ff, mids, r).Ok? && r.size >= 0.0
    requires r.price.UnwrapOr(MidOf(mids, r.key).UnwrapOr(0.0)) >= 0.0
    ensures 0.0 <= Worth(mids, Admit(registry, ff, mids, r).value) <= ff.maxOrderNotional
  {
    var i := registry[r.key];
    AdmittedNotionalBoundedIff(registry, ff, mids, r);
    QuantityIsGreatest(i, r.size, 0);
    if r.price.Some? {
      PriceNotNegative(i, r.price.value);
      WorthNotNegative(i.NormalizePrice(r.price.value), i.NormalizeQuantity(r.size));
    } else {
      WorthNotNegative(MidOf(mids, r.key).UnwrapOr(0.0), i.NormalizeQuantity(r.size));
    }
  }

  lemma PriceNotNegative(i: Instrument, price: real)
    requires i.Valid() && price >= 0.0
    ensures i.NormalizePrice(price) >= 0.0
  {
    var x := price / i.tickSize;
    assert x * i.tickSize == price;
    ScaleOrder(0.0, x, i.tickSize);
    assert RoundHalfEven(x) >= 0;
    ScaleOrder(0.0, RoundHalfEven(x) as real, i.tickSize);
  }

  lemma WorthNotNegative(price: real, size: real)
    requires price >= 0.0 && size >= 0.0
    ensures price * size >= 0.0
  {}

  /** A market sale of a million units below zero passes a maximal notional of ten and a minimal one of
      five. */
  lemma NegativeSizeAdmitted(key: InstrumentKey, mids: Mids)
    requires MidOf(mids, key) == Some(1.0)
    ensures var i := Instrument(key, "", 1.0, 1.0, Some(5.0));
            var sale := OrderRequest(key, "", Sell, Market, None, -1000000.0, false, false);
            Admit(map[key := i], FatFinger(10.0, 1.0), mids, sale) == Ok(sale)
  {
    StepsDivide(-1000000, 1.0);
  }

  // ---- the two maps -------------------------------------------------------------------------------

  datatype Orders = Orders(active: map<string, Order>, clients: map<string, string>)

  ghost predicate Tracks(s: Orders, id: string) {
    id in s.active && var o := s.active[id];
    o.internalId == id && !o.status.IsFinal() && o.clientOrderId in s.clients && s.clients[o.clientOrderId] == id
  }

  ghost predicate PointsBack(s: Orders, c: string) {
    c in s.clients && s.clients[c] in s.active && s.active[s.clients[c]].clientOrderId == c
  }

  /** The maps are mutually inverse and no tracked order is final. */
  ghost predicate Consistent(s: Orders) {
    (forall id <- s.active :: Tracks(s, id)) && (forall c <- s.clients :: PointsBack(s, c))
  }

  function PendingOrder(r: OrderRequest, id: string, clientId: string): Order {
    Order(id, r.strategyId, clientId, None, r, PendingSubmit, 0.0, None)
  }

  function Inserted(s: Orders, o: Order): Orders {
    Orders(s.active[o.internalId := o], s.clients[o.clientOrderId := o.internalId])
  }

  function Removed(s: Orders, id: string, clientId: string): Orders {
    Orders(s.active - {id}, s.clients - {clientId})
  }

  function OrElse(a: Option<string>, b: Option<string>): Option<string> {
    if a.Some? then a else b
  }

  function ApplyExchangeUpdate(o: Order, x: Order): Order {
    o.(status := x.status, filledSize := x.filledSize, avgFillPrice := x.avgFillPrice,
       exchangeOrderId := OrElse(o.exchangeOrderId, x.exchangeOrderId))
  }

  /** The order that a cancel request naming `id` is about. */
  function CancelTarget(s: Orders, id: string): Result<Order, TradingError> {
    if id in s.active then Ok(s.active[id]) else Err(OrderNotFound)
  }

  // ---- the steps ----------------------------------------------------------------------------------

  /** Replies of the exchange while one reconciliation runs: a failed query has no entry. */
  datatype Replies = Replies(open: map<InstrumentKey, seq<Order>>, status: map<(InstrumentKey, string), Order>)

  datatype Message =
    | Submit(request: Result<OrderRequest, TradingError>, id: string, clientId: string)
    | SubmitResult(id: string, rest: Result<Order, TradingError>)
    | CancelResult(id: string, canceled: Result<Order, TradingError>)
    | WsEvent(order: Order)
    | Reconcile(replies: Replies)

  function Submitted(s: Orders, r: Result<OrderRequest, TradingError>, id: string, clientId: string): Orders {
    if r.Ok? then Inserted(s, PendingOrder(r.value, id, clientId)) else s
  }

  function AfterSubmitResult(s: Orders, id: string, r: Result<Order, TradingError>): (Orders, seq<OrderEvent>) {
    if id !in s.active then (s, [])
    else
      var o := s.active[id];
      match r
      case Ok(rest) =>
        var known := o.(exchangeOrderId := OrElse(o.exchangeOrderId, rest.exchangeOrderId));
        if o.status.PendingSubmit? then
          (s.(active := s.active[id := known.(status := New)]), [EventOf(known.(status := New))])
        else (s.(active := s.active[id := known]), [])
      case Err(_) =>
        if o.status.PendingSubmit? then (Removed(s, id, o.clientOrderId), [EventOf(o.(status := Rejected))])
        else (s, [])
  }

  function AfterCancelResult(s: Orders, id: string, r: Result<Order, TradingError>): (Orders, seq<OrderEvent>) {
    match r
    case Ok(o) => (Removed(s, id, o.clientOrderId), [EventOf(o.(internalId := id))])
    case Err(_) => (s, [])
  }

  /** The tracked order a websocket order is about, if any. */
  function Resolve(s: Orders, x: Order): Option<string> {
    var id := if x.internalId != "" then Some(x.internalId)
              else if x.clientOrderId in s.clients then Some(s.clients[x.clientOrderId]) else None;
    if id.Some? && id.value in s.active then id else None
  }

  function AfterWsEvent(s: Orders, x: Order): (Orders, seq<OrderEvent>) {
    match Resolve(s, x)
    case None => (s, [])
    case Some(id) =>
      var o := ApplyExchangeUpdate(s.active[id], x);
      (if o.status.IsFinal() then Removed(s, id, o.clientOrderId) else s.(active := s.active[id := o]), [EventOf(o)])
  }

  function ClientIds(orders: seq<Order>): set<string> {
    set o <- orders :: o.clientOrderId
  }

  /** Missing from a fetched open list, with a final status on query. */
  predicate IsGone(s: Orders, r: Replies, id: string)
    requires id in s.active
  {
    var o := s.active[id];
    var key := o.request.key;
    && key in r.open && o.clientOrderId !in ClientIds(r.open[key])
    && (key, o.clientOrderId) in r.status && r.status[(key, o.clientOrderId)].status.IsFinal()
  }

  function Gone(s: Orders, r: Replies): set<string> {
    set id <- s.active | IsGone(s, r, id)
  }

  function FinalOrder(s: Orders, r: Replies, id: string): Order
    requires id in s.active && IsGone(s, r, id)
  {
    var o := s.active[id];
    r.status[(o.request.key, o.clientOrderId)].(internalId := id)
  }

  function WithoutAll(s: Orders, ids: set<string>): Orders {
    Orders(s.active - ids, s.clients - set id <- ids | id in s.active :: s.active[id].clientOrderId)
  }

  /** One final event per order in `ids`, in some order. */
  ghost predicate Announces(s: Orders, r: Replies, ids: set<string>, events: seq<OrderEvent>) {
    && (forall j :: 0 <= j < |events| ==> AnnouncedAt(s, r, ids, events[j]))
    && (forall j, k :: 0 <= j < k < |events| ==> events[j].order.internalId != events[k].order.internalId)
    && (forall id <- ids :: exists j :: 0 <= j < |events| && events[j].order.internalId == id)
  }

  ghost predicate AnnouncedAt(s: Orders, r: Replies, ids: set<string>, e: OrderEvent) {
    var id := e.order.internalId;
    id in ids && id in s.active && IsGone(s, r, id) && e == EventOf(FinalOrder(s, r, id))
  }

  /** The actor handles `m` in state `s`, ends in `t` and broadcasts `events`. */
  ghost predicate Step(s: Orders, m: Message, t: Orders, events: seq<OrderEvent>) {
    match m
    case Submit(r, id, clientId) => t == Submitted(s, r, id, clientId) && events == []
    case SubmitResult(id, r) => (t, events) == AfterSubmitResult(s, id, r)
    case CancelResult(id, r) => (t, events) == AfterCancelResult(s, id, r)
    case WsEvent(x) => (t, events) == AfterWsEvent(s, x)
    case Reconcile(r) => t == WithoutAll(s, Gone(s, r)) && Announces(s, r, Gone(s, r), events)
  }

  // ---- the actor ----------------------------------------------------------------------------------

  class OrderManagerActor {
    const registry: map<InstrumentKey, Instrument>
    const fatFinger: FatFinger
    var priceCache: Mids
    var activeOrders: map<string, Order>
    var clientIdMap: map<string, string>

    function State(): Orders
      reads this
    {
      Orders(activeOrders, clientIdMap)
    }

    constructor (registry: map<InstrumentKey, Instrument>, fatFinger: FatFinger)
      ensures this.registry == registry && this.fatFinger == fatFinger
      ensures State() == Orders(map[], map[]) && priceCache == map[]
    {
      this.registry, this.fatFinger := registry, fatFinger;
      priceCache, activeOrders, clientIdMap := map[], map[], map[];
    }

    /** `internalId` and `clientOrderId` are the freshly generated identifiers. */
    method ProcessSubmitOrder(request: OrderRequest, internalId: string, clientOrderId: string)
      returns (result: Result<Order, TradingError>)
      requires ValidRegistry(registry)
      modifies this`activeOrders, this`clientIdMap
      ensures var admitted := Admit(registry, fatFinger, priceCache, request);
              && Step(old(State()), Submit(admitted, internalId, clientOrderId), State(), [])
              && result == if admitted.Ok? then Ok(PendingOrder(admitted.value, internalId, clientOrderId))
                           else Err(admitted.error)
    {
      if request.key !in registry {
        return Err(UnsupportedInstrument);
      }
      var instrument := registry[request.key];
      var normalized := request.(size := instrument.NormalizeQuantity(request.size));
      if normalized.price.Some? {
        normalized := normalized.(price := Some(instrument.NormalizePrice(normalized.price.value)));
      }
      if !instrument.IsNotionalValid(normalized.price.UnwrapOr(0.0), normalized.size) {
        return Err(MinNotionalViolated);
      }
      var refusal := CheckFatFinger(fatFinger, priceCache, normalized);
      if refusal.Some? {
        return Err(refusal.value);
      }
      var pending := PendingOrder(normalized, internalId, clientOrderId);
      activeOrders := activeOrders[internalId := pending];
      clientIdMap := clientIdMap[clientOrderId := internalId];
      return Ok(pending);
    }

    /** Asks the exchange to cancel; the answer is the order as currently known. */
    method ProcessCancelOrder(id: string) returns (result: Result<Order, TradingError>)
      ensures result == CancelTarget(State(), id)
    {
      result := if id in activeOrders then Ok(activeOrders[id]) else Err(OrderNotFound);
    }

    method HandlePriceUpdate(key: InstrumentKey, mid: Option<real>)
      modifies this`priceCache
      ensures priceCache == old(priceCache)[key := mid]
    {
      priceCache := priceCache[key := mid];
    }

    method HandleSubmitResult(id: string, result: Result<Order, TradingError>) returns (events: seq<OrderEvent>)
      modifies this`activeOrders, this`clientIdMap
      ensures Step(old(State()), SubmitResult(id, result), State(), events)
    {
      events := [];
      if id !in activeOrders {
        return;
      }
      var order := activeOrders[id];
      match result {
        case Ok(rest) =>
          if order.exchangeOrderId.None? {
            order := order.(exchangeOrderId := rest.exchangeOrderId);
          }
          if order.status.PendingSubmit? {
            order := order.(status := New);
            events := [EventOf(order)];
          }
          activeOrders := activeOrders[id := order];
        case Err(_) =>
          activeOrders := activeOrders - {id};
          if order.status.PendingSubmit? {
            order := order.(status := Rejected);
            clientIdMap := clientIdMap - {order.clientOrderId};
            events := [EventOf(order)];
          } else {
            activeOrders := activeOrders[id := order];
            assert activeOrders == old(activeOrders);
          }
      }
    }

    method HandleCancelResult(id: string, result: Result<Order, TradingError>) returns (events: seq<OrderEvent>)
      modifies this`activeOrders, this`clientIdMap
      ensures Step(old(State()), CancelResult(id, result), State(), events)
    {
      events := [];
      if result.Ok? {
        var canceled := result.value.(internalId := id);
        activeOrders := activeOrders - {id};
        clientIdMap := clientIdMap - {canceled.clientOrderId};
        events := [EventOf(canceled)];
      }
    }

    method HandleWsEvent(exchangeOrder: Order) returns (events: seq<OrderEvent>)
      modifies this`activeOrders, this`clientIdMap
      ensures Step(old(State()), WsEvent(exchangeOrder), State(), events)
    {
      events := [];
      var id := exchangeOrder.internalId;
      if id == "" {
        if exchangeOrder.clientOrderId !in clientIdMap {
          return;
        }
        id := clientIdMap[exchangeOrder.clientOrderId];
      }
      if id !in activeOrders {
        return;
      }
      var order := ApplyExchangeUpdate(activeOrders[id], exchangeOrder);
      if order.status.IsFinal() {
        activeOrders := activeOrders - {id};
        clientIdMap := clientIdMap - {order.clientOrderId};
      } else {
        activeOrders := activeOrders[id := order];
      }
      events := [EventOf(order)];
    }

    method ProcessReconcile(r: Replies) returns (events: seq<OrderEvent>)
      modifies this`activeOrders, this`clientIdMap
      ensures Step(old(State()), Reconcile(r), State(), events)
    {
      ghost var s := State();
      events := [];
      ghost var done: set<string> := {};
      var keys := set id <- activeOrders :: activeOrders[id].request.key;
      assert WithoutAll(s, {}) == s;
      assert GoneOutside(s, r, keys) == {};
      while keys != {}
        invariant State() == WithoutAll(s, done) && Announces(s, r, done, events) && done == GoneOutside(s, r, keys)
      {
        var key :| key in keys;
        events, done := CheckInstrument(r, key, s, keys, events);
        keys := keys - {key};
      }
      assert done == Gone(s, r);
    }

    /** Compares the tracked orders of one instrument with its open list, if that could be fetched. */
    method CheckInstrument(r: Replies, key: InstrumentKey, ghost s: Orders, ghost keys: set<InstrumentKey>,
                           sofar: seq<OrderEvent>)
      returns (events: seq<OrderEvent>, ghost done: set<string>)
      requires key in keys
      requires var before := GoneOutside(s, r, keys); State() == WithoutAll(s, before) && Announces(s, r, before, sofar)
      modifies this`activeOrders, this`clientIdMap
      ensures done == GoneOutside(s, r, keys - {key})
      ensures State() == WithoutAll(s, done) && Announces(s, r, done, events)
    {
      var missing := {};
      if key in r.open {
        var listed := ClientIds(r.open[key]);
        missing := set id <- activeOrders |
          activeOrders[id].request.key == key && activeOrders[id].clientOrderId !in listed;
      }
      OneKeyLess(s, r, keys, key, missing);
      events, done := sofar, GoneOutside(s, r, keys);
      if key in r.open {
        events, done := QueryMissing(r, key, missing, s, done, sofar);
      }
    }

    /** Asks for the status of each missing order of one instrument and drops the final ones. */
    method QueryMissing(r: Replies, key: InstrumentKey, missing: set<string>,
                        ghost s: Orders, ghost before: set<string>, sofar: seq<OrderEvent>)
      returns (events: seq<OrderEvent>, ghost done: set<string>)
      requires State() == WithoutAll(s, before) && Announces(s, r, before, sofar)
      requires key in r.open && missing <= activeOrders.Keys
      requires forall id <- missing ::
                 s.active[id].request.key == key && s.active[id].clientOrderId !in ClientIds(r.open[key])
      modifies this`activeOrders, this`clientIdMap
      ensures done == before + set id <- missing | IsGone(s, r, id)
      ensures State() == WithoutAll(s, done) && Announces(s, r, done, events)
    {
      var rest := missing;
      events, done := sofar, before;
      while rest != {}
        invariant rest <= missing && rest <= activeOrders.Keys
        invariant State() == WithoutAll(s, done) && Announces(s, r, done, events)
        invariant done == before + set id <- missing - rest | IsGone(s, r, id)
      {
        var id :| id in rest;
        rest := rest - {id};
        var clientId := activeOrders[id].clientOrderId;
        if (key, clientId) in r.status {
          var final := r.status[(key, clientId)].(internalId := id);
          if final.status.IsFinal() {
            activeOrders := activeOrders - {id};
            clientIdMap := clientIdMap - {clientId};
            OneMoreGone(s, r, done, events, id);
            events := events + [EventOf(final)];
            done := done + {id};
          }
        }
      }
    }
  }

  lemma OneMoreGone(s: Orders, r: Replies, done: set<string>, events: seq<OrderEvent>, id: string)
    requires Announces(s, r, done, events) && id in s.active && id !in done && IsGone(s, r, id)
    ensures Announces(s, r, done + {id}, events + [EventOf(FinalOrder(s, r, id))])
    ensures WithoutAll(s, done + {id}) == Removed(WithoutAll(s, done), id, s.active[id].clientOrderId)
  {
    OneMoreAnnounced(s, r, done, events, id);
    OneMoreWithout(s, done, id);
  }

  lemma OneMoreWithout(s: Orders, done: set<string>, id: string)
    requires id in s.active
    ensures WithoutAll(s, done + {id}) == Removed(WithoutAll(s, done), id, s.active[id].clientOrderId)
  {}

  lemma OneMoreAnnounced(s: Orders, r: Replies, done: set<string>, events: seq<OrderEvent>, id: string)
    requires Announces(s, r, done, events) && id in s.active && id !in done && IsGone(s, r, id)
    ensures Announces(s, r, done + {id}, events + [EventOf(FinalOrder(s, r, id))])
  {
    var more := events + [EventOf(FinalOrder(s, r, id))];
    forall j | 0 <= j < |more| ensures AnnouncedAt(s, r, done + {id}, more[j]) {
      if j < |events| { assert AnnouncedAt(s, r, done, events[j]); }
    }
    forall j, k | 0 <= j < k < |more| ensures more[j].order.internalId != more[k].order.internalId {
      assert AnnouncedAt(s, r, done, events[j]);
    }
    forall x | x in done + {id} ensures exists j :: 0 <= j < |more| && more[j].order.internalId == x {
      if x == id {
        assert more[|events|].order.internalId == x;
      } else {
        var j :| 0 <= j < |events| && events[j].order.internalId == x;
        assert more[j].order.internalId == x;
      }
    }
  }

  /** The gone orders of every instrument outside `keys`. */
  ghost function GoneOutside(s: Orders, r: Replies, keys: set<InstrumentKey>): set<string> {
    set id <- s.active | IsGone(s, r, id) && s.active[id].request.key !in keys
  }

  /** Tracked orders of an instrument, apart from `done`, that its open list does not name. */
  ghost function MissingOrders(s: Orders, r: Replies, done: set<string>, key: InstrumentKey): set<string>
    requires key in r.open
  {
    set id <- s.active | id !in done && s.active[id].request.key == key
                         && s.active[id].clientOrderId !in ClientIds(r.open[key])
  }

  lemma OneKeyLess(s: Orders, r: Replies, keys: set<InstrumentKey>, key: InstrumentKey, missing: set<string>)
    requires key in keys
    requires key in r.open ==> missing == MissingOrders(s, r, GoneOutside(s, r, keys), key)
    requires key !in r.open ==> missing == {}
    ensures missing <= s.active.Keys
    ensures GoneOutside(s, r, keys - {key}) == GoneOutside(s, r, keys) + set id <- missing | IsGone(s, r, id)
  {}
}
