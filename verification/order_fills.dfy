/** What the order manager knows and says of an order over every run: exactly what was submitted and what
    the exchange reported of it last (core/src/manager/order.rs). */
module OrderFills {
  import opened Types
  import opened OrderManager
  import opened OrderRuns

  /** A websocket order is about the order tracked under `id` and `clientId`: by its internal id, or by its
      client id when it has no internal one. */
  predicate IsAbout(x: Order, id: string, clientId: string) {
    if x.internalId != "" then x.internalId == id else x.clientOrderId == clientId
  }

  predicate Reports(m: Message, id: string, clientId: string) {
    m.WsEvent? && IsAbout(m.order, id, clientId)
  }

  predicate Places(m: Message, id: string) {
    m.Submit? && m.request.Ok? && m.id == id
  }

  predicate Confirms(m: Message, id: string) {
    m.SubmitResult? && m.id == id && m.rest.Ok?
  }

  /** The admitted request under `id`, if there was one. */
  function Placed(messages: seq<Message>, id: string): Option<OrderRequest> {
    if messages == [] then None
    else
      var n := |messages| - 1;
      if Places(messages[n], id) then Some(messages[n].request.value) else Placed(messages[..n], id)
  }

  /** The last websocket event about the order since it was submitted. */
  function LastEvent(messages: seq<Message>, id: string, clientId: string): Option<Order> {
    if messages == [] then None
    else
      var n := |messages| - 1;
      if Places(messages[n], id) then None
      else if Reports(messages[n], id, clientId) then Some(messages[n].order)
      else LastEvent(messages[..n], id, clientId)
  }

  /** A REST confirmation came after the submission and after that event. */
  predicate ConfirmedSince(messages: seq<Message>, id: string, clientId: string) {
    messages != [] &&
    var n := |messages| - 1;
    if Places(messages[n], id) || Reports(messages[n], id, clientId) then false
    else Confirms(messages[n], id) || ConfirmedSince(messages[..n], id, clientId)
  }

  /** The exchange id in the message, if it reports on the order. */
  function ReportedId(m: Message, id: string, clientId: string): Option<string> {
    if Reports(m, id, clientId) then m.order.exchangeOrderId
    else if Confirms(m, id) then m.rest.value.exchangeOrderId else None
  }

  /** The first exchange id reported of the order since it was submitted. */
  function FirstExchangeId(messages: seq<Message>, id: string, clientId: string): Option<string> {
    if messages == [] then None
    else
      var n := |messages| - 1;
      var earlier := FirstExchangeId(messages[..n], id, clientId);
      if Places(messages[n], id) then None
      else if earlier.Some? then earlier else ReportedId(messages[n], id, clientId)
  }

  /** Fill and average price are those of the last event, or zero and none. The status is that of the last
      event, except that a confirmation turns an order that is pending into a new one. */
  predicate AsReported(o: Order, last: Option<Order>, confirmed: bool) {
    && o.filledSize == (if last.Some? then last.value.filledSize else 0.0)
    && o.avgFillPrice == (if last.Some? then last.value.avgFillPrice else None)
    && o.status == (if last.Some? && last.value.status != PendingSubmit then last.value.status
                    else if confirmed then New else PendingSubmit)
  }

  /** The tracked order is the one that was submitted, as last reported. */
  ghost predicate Faithful(o: Order, messages: seq<Message>, id: string, clientId: string) {
    && o.internalId == id && o.clientOrderId == clientId
    && Placed(messages, id) == Some(o.request) && o.strategyId == o.request.strategyId
    && AsReported(o, LastEvent(messages, id, clientId), ConfirmedSince(messages, id, clientId))
    && o.exchangeOrderId == FirstExchangeId(messages, id, clientId)
  }

  lemma ResolvesIff(sys: System, x: Order, id: string)
    requires Sound(sys) && id in sys.orders.active
    ensures Resolve(sys.orders, x) == Some(id) <==> IsAbout(x, id, sys.issued[id])
  {
    assert Tracks(sys.orders, id);
    if x.internalId == "" && x.clientOrderId in sys.orders.clients {
      assert PointsBack(sys.orders, x.clientOrderId);
    }
  }

  lemma OneMore(messages: seq<Message>, m: Message, id: string, clientId: string)
    ensures var all := messages + [m];
            && Placed(all, id) == (if Places(m, id) then Some(m.request.value) else Placed(messages, id))
            && LastEvent(all, id, clientId) ==
               (if Places(m, id) then None else if Reports(m, id, clientId) then Some(m.order)
                else LastEvent(messages, id, clientId))
            && ConfirmedSince(all, id, clientId) ==
               (!Places(m, id) && !Reports(m, id, clientId)
                && (Confirms(m, id) || ConfirmedSince(messages, id, clientId)))
            && FirstExchangeId(all, id, clientId) ==
               (if Places(m, id) then None
                else if FirstExchangeId(messages, id, clientId).Some? then FirstExchangeId(messages, id, clientId)
                else ReportedId(m, id, clientId))
  {
    assert (messages + [m])[..|messages|] == messages;
  }

  /** A tracked order after a message that does not submit it anew. */
  function Told(o: Order, m: Message, id: string, clientId: string): Order {
    var known := o.(exchangeOrderId := if o.exchangeOrderId.Some? then o.exchangeOrderId
                                       else ReportedId(m, id, clientId));
    if Reports(m, id, clientId)
    then known.(status := m.order.status, filledSize := m.order.filledSize, avgFillPrice := m.order.avgFillPrice)
    else if Confirms(m, id) && o.status == PendingSubmit then known.(status := New)
    else known
  }

  predicate ToldIn(s: Orders, t: Orders, m: Message, id: string, clientId: string) {
    id in t.active ==> id in s.active && t.active[id] == Told(s.active[id], m, id, clientId)
  }

  lemma WsTold(sys: System, x: Order, t: Orders, events: seq<OrderEvent>, id: string)
    requires Sound(sys) && id in sys.issued && (t, events) == AfterWsEvent(sys.orders, x)
    ensures ToldIn(sys.orders, t, WsEvent(x), id, sys.issued[id])
  {
    if id in sys.orders.active { ResolvesIff(sys, x, id); }
  }

  lemma RestTold(s: Orders, of: string, r: Result<Order, TradingError>, t: Orders, events: seq<OrderEvent>, id: string,
                 clientId: string)
    requires (t, events) == AfterSubmitResult(s, of, r)
    ensures ToldIn(s, t, SubmitResult(of, r), id, clientId)
  {}

  lemma OtherwiseTold(s: Orders, m: Message, t: Orders, events: seq<OrderEvent>, id: string, clientId: string)
    requires Step(s, m, t, events) && (m.CancelResult? || m.Reconcile? || (m.Submit? && !Places(m, id)))
    ensures ToldIn(s, t, m, id, clientId)
  {}

  lemma TrackedWasIssued(sys: System, m: Message, sys': System, events: seq<OrderEvent>, id: string)
    requires Sound(sys) && SystemStep(sys, m, sys', events) && id in sys'.orders.active && !Places(m, id)
    ensures id in sys.issued && id in sys'.issued && sys'.issued[id] == sys.issued[id]
  {
    if id in sys.issued && id !in sys.orders.active {
      StepNeverRevives(sys, m, sys', events, id);
    }
  }

  lemma TrackedIsTold(sys: System, m: Message, sys': System, events: seq<OrderEvent>, id: string)
    requires Sound(sys) && SystemStep(sys, m, sys', events) && id in sys.issued && !Places(m, id)
    ensures ToldIn(sys.orders, sys'.orders, m, id, sys.issued[id])
  {
    match m {
      case WsEvent(x) => WsTold(sys, x, sys'.orders, events, id);
      case SubmitResult(of, r) => RestTold(sys.orders, of, r, sys'.orders, events, id, sys.issued[id]);
      case _ => OtherwiseTold(sys.orders, m, sys'.orders, events, id, sys.issued[id]);
    }
  }

  lemma ToldStaysFaithful(o: Order, m: Message, seen: seq<Message>, id: string, clientId: string)
    requires Faithful(o, seen, id, clientId) && !Places(m, id)
    ensures Faithful(Told(o, m, id, clientId), seen + [m], id, clientId)
  {
    OneMore(seen, m, id, clientId);
  }

  lemma PlacedIsFaithful(sys: System, m: Message, sys': System, events: seq<OrderEvent>, seen: seq<Message>, id: string)
    requires SystemStep(sys, m, sys', events) && Places(m, id)
    ensures id in sys'.orders.active && id in sys'.issued
    ensures Faithful(sys'.orders.active[id], seen + [m], id, sys'.issued[id])
  {
    OneMore(seen, m, id, m.clientId);
  }

  ghost predicate FaithfulIn(sys: System, seen: seq<Message>, id: string) {
    id in sys.orders.active ==> id in sys.issued && Faithful(sys.orders.active[id], seen, id, sys.issued[id])
  }

  lemma StaysFaithful(sys: System, m: Message, sys': System, events: seq<OrderEvent>, seen: seq<Message>, id: string)
    requires Sound(sys) && SystemStep(sys, m, sys', events) && FaithfulIn(sys, seen, id)
    ensures FaithfulIn(sys', seen + [m], id)
  {
    if Places(m, id) {
      PlacedIsFaithful(sys, m, sys', events, seen, id);
    } else if id in sys'.orders.active {
      TrackedWasIssued(sys, m, sys', events, id);
      TrackedIsTold(sys, m, sys', events, id);
      ToldStaysFaithful(sys.orders.active[id], m, seen, id, sys.issued[id]);
    }
  }

  /** In every reachable state every tracked order carries its submitted request and the status, fill and
      average price of the last websocket event about it since its submission; without one it has filled
      nothing and is pending or, once confirmed, new. Its exchange id is the first that was reported. */
  lemma {:induction false} TrackedAsReported(
    states: seq<System>, messages: seq<Message>, events: seq<seq<OrderEvent>>, n: nat, id: string)
    requires IsRun(states, messages, events) && n <= |messages|
    ensures FaithfulIn(states[n], messages[..n], id)
  {
    if n > 0 {
      TrackedAsReported(states, messages, events, n - 1, id);
      MapsStayInverse(states, messages, events, n - 1);
      assert SystemStep(states[n - 1], messages[n - 1], states[n - 1 + 1], events[n - 1]);
      StaysFaithful(states[n - 1], messages[n - 1], states[n], events[n - 1], messages[..n - 1], id);
      assert messages[..n] == messages[..n - 1] + [messages[n - 1]];
    }
  }

  // ---- broadcasts ----------------------------------------------------------------------------------

  /** The variant of an event is that of the status of its order. */
  predicate KindFits(e: OrderEvent) {
    && (e.PartiallyFilledEvent? <==> e.order.status == PartiallyFilled)
    && (e.FilledEvent? <==> e.order.status == Filled)
    && (e.CanceledEvent? <==> e.order.status == Canceled)
    && (e.RejectedEvent? <==> e.order.status == Rejected)
  }

  /** A websocket event is broadcast exactly if it is about a tracked order: once, with its own status, fill
      and average price, under the ids and with the request that were submitted. */
  lemma WsBroadcast(
    states: seq<System>, messages: seq<Message>, events: seq<seq<OrderEvent>>, n: nat, x: Order)
    requires IsRun(states, messages, events) && n < |messages| && messages[n] == WsEvent(x)
    ensures events[n] == [] <==>
            forall id <- states[n].orders.active :: !(id in states[n].issued && IsAbout(x, id, states[n].issued[id]))
    ensures forall id <- states[n].orders.active | id in states[n].issued && IsAbout(x, id, states[n].issued[id]) ::
              |events[n]| == 1 && Tells(events[n][0], x, states[n].orders.active[id]) && KindFits(events[n][0])
  {
    var sys := states[n];
    MapsStayInverse(states, messages, events, n);
    assert SystemStep(states[n], messages[n], states[n + 1], events[n]);
    forall id | id in sys.orders.active ensures Resolve(sys.orders, x) == Some(id) <==> IsAbout(x, id, sys.issued[id]) {
      ResolvesIff(sys, x, id);
    }
    if Resolve(sys.orders, x).Some? { assert Tracks(sys.orders, Resolve(sys.orders, x).value); }
  }

  /** The event says of the tracked order what the exchange said. */
  predicate Tells(e: OrderEvent, x: Order, o: Order) {
    && e.order.status == x.status && e.order.filledSize == x.filledSize && e.order.avgFillPrice == x.avgFillPrice
    && e.order.internalId == o.internalId && e.order.clientOrderId == o.clientOrderId
    && e.order.request == o.request && e.order.strategyId == o.strategyId
    && e.order.exchangeOrderId == if o.exchangeOrderId.Some? then o.exchangeOrderId else x.exchangeOrderId
  }

  /** A REST result is broadcast exactly if it is the first word on a tracked order: the order as it was
      submitted, now new or rejected. */
  lemma RestBroadcast(
    states: seq<System>, messages: seq<Message>, events: seq<seq<OrderEvent>>, n: nat, id: string,
    r: Result<Order, TradingError>)
    requires IsRun(states, messages, events) && n < |messages| && messages[n] == SubmitResult(id, r)
    ensures var active := states[n].orders.active;
            var first := id in active && active[id].status == PendingSubmit;
            && (events[n] != [] <==> first)
            && (first ==>
                  && |events[n]| == 1 && KindFits(events[n][0])
                  && events[n][0].order.status == (if r.Ok? then New else Rejected)
                  && events[n][0].order.(status := PendingSubmit, exchangeOrderId := None) ==
                     active[id].(exchangeOrderId := None))
            && (id in active && id !in states[n + 1].orders.active <==> first && r.Err?)
  {
    assert SystemStep(states[n], messages[n], states[n + 1], events[n]);
  }

  /** A cancel confirmation is broadcast as the exchange gave it, under the internal id; a refused one is not. */
  lemma CancelBroadcast(
    states: seq<System>, messages: seq<Message>, events: seq<seq<OrderEvent>>, n: nat, id: string,
    r: Result<Order, TradingError>)
    requires IsRun(states, messages, events) && n < |messages| && messages[n] == CancelResult(id, r)
    ensures if r.Err? then events[n] == []
            else |events[n]| == 1 && KindFits(events[n][0]) && events[n][0].order == r.value.(internalId := id)
  {
    assert SystemStep(states[n], messages[n], states[n + 1], events[n]);
  }

  /** A reconciliation announces orders that it stops tracking, as the status query gave them. */
  lemma ReconcileBroadcast(
    states: seq<System>, messages: seq<Message>, events: seq<seq<OrderEvent>>, n: nat, r: Replies, e: OrderEvent)
    requires IsRun(states, messages, events) && n < |messages| && messages[n] == Reconcile(r) && e in events[n]
    ensures var id, active := e.order.internalId, states[n].orders.active;
            && id in active && id !in states[n + 1].orders.active && KindFits(e)
            && (active[id].request.key, active[id].clientOrderId) in r.status
            && e.order == r.status[(active[id].request.key, active[id].clientOrderId)].(internalId := id)
  {
    assert SystemStep(states[n], messages[n], states[n + 1], events[n]);
    var j :| 0 <= j < |events[n]| && events[n][j] == e;
    assert AnnouncedAt(states[n].orders, r, Gone(states[n].orders, r), events[n][j]);
  }
}
