/** Every interleaving of submits, REST results, cancels, websocket events and reconciliations
    (core/src/manager/order.rs). */
module OrderRuns {
  import opened Types
  import opened OrderManager

  // ---- what one step keeps ------------------------------------------------------------------------

  /** Tracking an accepted order keeps the maps inverse exactly when its client id is not taken. */
  lemma SubmitKeepsInverse(s: Orders, r: OrderRequest, id: string, clientId: string)
    requires Consistent(s) && id !in s.active
    ensures Consistent(Inserted(s, PendingOrder(r, id, clientId))) <==> clientId !in s.clients
  {
    var t := Inserted(s, PendingOrder(r, id, clientId));
    if clientId in s.clients {
      var other := s.clients[clientId];
      assert PointsBack(s, clientId);
      assert !Tracks(t, other);
    } else {
      forall x | x in t.active ensures Tracks(t, x) {
        if x != id { assert Tracks(s, x); }
      }
      forall c | c in t.clients ensures PointsBack(t, c) {
        if c != clientId { assert PointsBack(s, c); }
      }
    }
  }

  /** A cancel confirmation keeps the maps inverse exactly when it echoes the client id of the order,
      or, for an order already gone, one that nothing uses. */
  lemma CancelKeepsInverse(s: Orders, id: string, o: Order)
    requires Consistent(s)
    ensures Consistent(AfterCancelResult(s, id, Ok(o)).0) <==>
            if id in s.active then o.clientOrderId == s.active[id].clientOrderId else o.clientOrderId !in s.clients
  {
    var t := Removed(s, id, o.clientOrderId);
    if id in s.active {
      assert Tracks(s, id);
      var own := s.active[id].clientOrderId;
      if o.clientOrderId == own {
        RemovalKeepsInverse(s, id);
      } else {
        assert own in t.clients && !PointsBack(t, own);
      }
    } else {
      if o.clientOrderId in s.clients {
        var other := s.clients[o.clientOrderId];
        assert PointsBack(s, o.clientOrderId);
        assert other in t.active && !Tracks(t, other);
      } else {
        assert t == s;
      }
    }
  }

  lemma RemovalKeepsInverse(s: Orders, id: string)
    requires Consistent(s) && id in s.active
    ensures Consistent(Removed(s, id, s.active[id].clientOrderId))
  {}

  lemma UpdateKeepsInverse(s: Orders, id: string, o: Order)
    requires Consistent(s) && id in s.active && !o.status.IsFinal()
    requires o.internalId == id && o.clientOrderId == s.active[id].clientOrderId
    ensures Consistent(s.(active := s.active[id := o]))
  {}

  lemma ReconcileKeepsInverse(s: Orders, ids: set<string>)
    requires Consistent(s) && ids <= s.active.Keys
    ensures Consistent(WithoutAll(s, ids))
  {}

  // ---- runs ---------------------------------------------------------------------------------------

  /** The orders together with the client id under which each internal id was ever submitted. */
  datatype System = System(orders: Orders, issued: map<string, string>)

  function Issue(sys: System, m: Message): map<string, string> {
    if m.Submit? && m.request.Ok? then sys.issued[m.id := m.clientId] else sys.issued
  }

  /** What the actor relies on: fresh internal ids, unshared client ids, and cancel confirmations that
      echo the client id. */
  ghost predicate Admissible(sys: System, m: Message) {
    match m
    case Submit(_, id, clientId) => id !in sys.issued && clientId !in sys.issued.Values
    case CancelResult(id, Ok(o)) => id in sys.issued && o.clientOrderId == sys.issued[id]
    case _ => true
  }

  ghost predicate SystemStep(sys: System, m: Message, sys': System, events: seq<OrderEvent>) {
    && Admissible(sys, m) && Step(sys.orders, m, sys'.orders, events) && sys'.issued == Issue(sys, m)
  }

  ghost predicate Injective(m: map<string, string>) {
    forall a <- m, b <- m :: m[a] == m[b] ==> a == b
  }

  ghost predicate Sound(sys: System) {
    && Consistent(sys.orders) && Injective(sys.issued)
    && forall id <- sys.orders.active :: id in sys.issued && sys.orders.active[id].clientOrderId == sys.issued[id]
  }

  ghost predicate IsRun(states: seq<System>, messages: seq<Message>, events: seq<seq<OrderEvent>>) {
    && |states| == |messages| + 1 && |events| == |messages|
    && states[0] == System(Orders(map[], map[]), map[])
    && forall i :: 0 <= i < |messages| ==> SystemStep(states[i], messages[i], states[i + 1], events[i])
  }

  lemma ListedClientsAreIssued(sys: System)
    requires Sound(sys)
    ensures forall c <- sys.orders.clients :: c in sys.issued.Values
  {}

  lemma CompletedIsUnlisted(sys: System, id: string)
    requires Sound(sys) && id in sys.issued && id !in sys.orders.active
    ensures sys.issued[id] !in sys.orders.clients
  {}

  lemma StepSound(sys: System, m: Message, sys': System, events: seq<OrderEvent>)
    requires Sound(sys) && SystemStep(sys, m, sys', events)
    ensures Sound(sys')
  {
    var s := sys.orders;
    match m {
      case Submit(r, id, clientId) =>
        if r.Ok? {
          ListedClientsAreIssued(sys);
          SubmitKeepsInverse(s, r.value, id, clientId);
          forall a | a in sys.issued ensures sys.issued[a] != clientId {
            assert sys.issued[a] in sys.issued.Values;
          }
        }
      case SubmitResult(id, r) =>
        if id in s.active {
          assert Tracks(s, id);
          if r.Ok? {
            UpdateKeepsInverse(s, id, sys'.orders.active[id]);
          } else {
            RemovalKeepsInverse(s, id);
          }
        }
      case CancelResult(id, r) =>
        if r.Ok? {
          if id !in s.active {
            CompletedIsUnlisted(sys, id);
          }
          CancelKeepsInverse(s, id, r.value);
        }
      case WsEvent(x) =>
        var resolved := Resolve(s, x);
        if resolved.Some? {
          assert Tracks(s, resolved.value);
          var o := ApplyExchangeUpdate(s.active[resolved.value], x);
          if o.status.IsFinal() {
            RemovalKeepsInverse(s, resolved.value);
          } else {
            UpdateKeepsInverse(s, resolved.value, o);
          }
        }
      case Reconcile(r) =>
        ReconcileKeepsInverse(s, Gone(s, r));
    }
  }

  /** The maps are mutually inverse and free of final orders in every reachable state. */
  lemma {:induction false} MapsStayInverse(
    states: seq<System>, messages: seq<Message>, events: seq<seq<OrderEvent>>, n: nat)
    requires IsRun(states, messages, events) && n <= |messages|
    ensures Sound(states[n])
  {
    if n > 0 {
      MapsStayInverse(states, messages, events, n - 1);
      StepSound(states[n - 1], messages[n - 1], states[n], events[n - 1]);
    }
  }

  // ---- accounting of terminal events --------------------------------------------------------------

  function Bit(b: bool): nat {
    if b then 1 else 0
  }

  predicate IsTerminalFor(e: OrderEvent, id: string) {
    e.IsTerminal() && e.order.internalId == id
  }

  function Terminals(events: seq<OrderEvent>, id: string): nat {
    if events == [] then 0 else Bit(IsTerminalFor(events[0], id)) + Terminals(events[1..], id)
  }

  /** A cancel confirmation for an order that is no longer tracked. */
  predicate IsLateCancel(s: Orders, m: Message, id: string) {
    m.CancelResult? && m.canceled.Ok? && m.id == id && id !in s.active
  }

  /** A successful cancel reply whose order is not final: it removes the order all the same. */
  predicate IsUnfinishedCancel(m: Message, id: string) {
    m.CancelResult? && m.canceled.Ok? && m.id == id && !m.canceled.value.status.IsFinal()
  }

  lemma {:induction false} AnnouncedOnce(
    s: Orders, r: Replies, ids: set<string>, events: seq<OrderEvent>, id: string, from: nat)
    requires Announces(s, r, ids, events) && from <= |events|
    ensures Terminals(events[from..], id) == Bit(exists j :: from <= j < |events| && events[j].order.internalId == id)
    decreases |events| - from
  {
    if from < |events| {
      AnnouncedOnce(s, r, ids, events, id, from + 1);
      assert AnnouncedAt(s, r, ids, events[from]);
      assert events[from..][1..] == events[from + 1..];
    }
  }

  /** Each step broadcasts one terminal event for an order exactly when it stops tracking it, apart
      from late cancel confirmations, which are broadcast as well, and from cancel replies that are not
      final, whose broadcast is not terminal. */
  lemma StepAccounting(sys: System, m: Message, sys': System, events: seq<OrderEvent>, id: string)
    requires Sound(sys) && SystemStep(sys, m, sys', events)
    ensures Terminals(events, id) + Bit(id in sys'.orders.active) + Bit(id in sys.issued)
            + Bit(IsUnfinishedCancel(m, id)) ==
            Bit(id in sys.orders.active) + Bit(id in sys'.issued) + Bit(IsLateCancel(sys.orders, m, id))
  {
    if m.Reconcile? {
      GoneAnnouncedOnce(sys.orders, m.replies, events, id);
    } else {
      SingleEventAccounting(sys, m, sys', events, id);
    }
  }

  lemma GoneAnnouncedOnce(s: Orders, r: Replies, events: seq<OrderEvent>, id: string)
    requires Announces(s, r, Gone(s, r), events)
    ensures Terminals(events, id) == Bit(id in Gone(s, r))
  {
    AnnouncedOnce(s, r, Gone(s, r), events, id, 0);
    assert events[0..] == events;
    if exists j :: 0 <= j < |events| && events[j].order.internalId == id {
      var j :| 0 <= j < |events| && events[j].order.internalId == id;
      assert AnnouncedAt(s, r, Gone(s, r), events[j]);
    }
  }

  lemma OneTerminal(events: seq<OrderEvent>, id: string)
    requires |events| <= 1
    ensures Terminals(events, id) == Bit(|events| == 1 && IsTerminalFor(events[0], id))
  {}

  lemma SingleEventAccounting(sys: System, m: Message, sys': System, events: seq<OrderEvent>, id: string)
    requires Sound(sys) && SystemStep(sys, m, sys', events) && !m.Reconcile?
    ensures Terminals(events, id) + Bit(id in sys'.orders.active) + Bit(id in sys.issued)
            + Bit(IsUnfinishedCancel(m, id)) ==
            Bit(id in sys.orders.active) + Bit(id in sys'.issued) + Bit(IsLateCancel(sys.orders, m, id))
  {
    var s := sys.orders;
    OneTerminal(events, id);
    if m.SubmitResult? && m.id in s.active { assert Tracks(s, m.id); }
    if m.WsEvent? && Resolve(s, m.order).Some? { assert Tracks(s, Resolve(s, m.order).value); }
  }

  function TotalTerminals(events: seq<seq<OrderEvent>>, id: string): nat {
    if events == [] then 0
    else TotalTerminals(events[..|events| - 1], id) + Terminals(events[|events| - 1], id)
  }

  function LateCancels(states: seq<System>, messages: seq<Message>, id: string): nat
    requires |states| >= |messages|
  {
    if messages == [] then 0
    else
      var n := |messages| - 1;
      LateCancels(states, messages[..n], id) + Bit(IsLateCancel(states[n].orders, messages[n], id))
  }

  function UnfinishedCancels(messages: seq<Message>, id: string): nat {
    if messages == [] then 0
    else UnfinishedCancels(messages[..|messages| - 1], id) + Bit(IsUnfinishedCancel(messages[|messages| - 1], id))
  }

  lemma OneMoreStep(states: seq<System>, messages: seq<Message>, events: seq<seq<OrderEvent>>, id: string, n: nat)
    requires n < |messages| == |events| < |states|
    ensures TotalTerminals(events[..n + 1], id) == TotalTerminals(events[..n], id) + Terminals(events[n], id)
    ensures LateCancels(states, messages[..n + 1], id) ==
            LateCancels(states, messages[..n], id) + Bit(IsLateCancel(states[n].orders, messages[n], id))
    ensures UnfinishedCancels(messages[..n + 1], id) ==
            UnfinishedCancels(messages[..n], id) + Bit(IsUnfinishedCancel(messages[n], id))
  {
    assert events[..n + 1][..n] == events[..n];
    assert messages[..n + 1][..n] == messages[..n];
  }

  /** Over every run an order is still tracked or has had exactly one terminal broadcast, to which every
      late cancel confirmation adds one more and from which every cancel reply that is not final takes
      one away. */
  lemma {:induction false} TerminalBroadcastsConserved(
    states: seq<System>, messages: seq<Message>, events: seq<seq<OrderEvent>>, id: string, n: nat)
    requires IsRun(states, messages, events) && n <= |messages|
    ensures TotalTerminals(events[..n], id) + Bit(id in states[n].orders.active)
            + UnfinishedCancels(messages[..n], id) ==
            Bit(id in states[n].issued) + LateCancels(states, messages[..n], id)
  {
    if n > 0 {
      TerminalBroadcastsConserved(states, messages, events, id, n - 1);
      MapsStayInverse(states, messages, events, n - 1);
      StepAccounting(states[n - 1], messages[n - 1], states[n], events[n - 1], id);
      OneMoreStep(states, messages, events, id, n - 1);
    }
  }

  /** A confirmation that arrives after the order was filled is broadcast as a second terminal event. */
  lemma LateCancelIsBroadcastTwice(id: string, clientId: string, r: OrderRequest)
    requires id != ""
    ensures var o := PendingOrder(r, id, clientId);
            var s := Inserted(Orders(map[], map[]), o);
            var (filled, first) := AfterWsEvent(s, o.(status := Filled));
            var (_, second) := AfterCancelResult(filled, id, Ok(o.(status := Canceled)));
            Terminals(first + second, id) == 2 && filled == Orders(map[], map[])
  {
    var o := PendingOrder(r, id, clientId);
    var (filled, first) := AfterWsEvent(Inserted(Orders(map[], map[]), o), o.(status := Filled));
    var (_, second) := AfterCancelResult(filled, id, Ok(o.(status := Canceled)));
    assert first == [FilledEvent(o.(status := Filled))] && second == [CanceledEvent(o.(status := Canceled))];
    assert (first + second)[1..] == second && second[1..] == [];
    assert Terminals(second, id) == 1 + Terminals([], id);
    assert filled.active == map[] && filled.clients == map[];
  }

  // ---- no resurrection ----------------------------------------------------------------------------

  lemma StepNeverRevives(sys: System, m: Message, sys': System, events: seq<OrderEvent>, id: string)
    requires Sound(sys) && SystemStep(sys, m, sys', events) && id in sys.issued && id !in sys.orders.active
    ensures id in sys'.issued && id !in sys'.orders.active && sys'.issued[id] == sys.issued[id]
  {}

  /** Once an order has left the active map it never returns. */
  lemma {:induction false} NoResurrection(
    states: seq<System>, messages: seq<Message>, events: seq<seq<OrderEvent>>, id: string, i: nat, j: nat)
    requires IsRun(states, messages, events) && i <= j <= |messages|
    requires id in states[i].issued && id !in states[i].orders.active
    ensures id in states[j].issued && id !in states[j].orders.active && states[j].issued[id] == states[i].issued[id]
    decreases j
  {
    if i < j {
      NoResurrection(states, messages, events, id, i, j - 1);
      MapsStayInverse(states, messages, events, j - 1);
      StepNeverRevives(states[j - 1], messages[j - 1], states[j], events[j - 1], id);
    }
  }

  /** Later websocket events about it, named by either id, are silent and change nothing. */
  lemma CompletedOrdersAreSilent(
    states: seq<System>, messages: seq<Message>, events: seq<seq<OrderEvent>>, id: string, i: nat, j: nat)
    requires IsRun(states, messages, events) && i <= j < |messages| && id != ""
    requires id in states[i].issued && id !in states[i].orders.active
    requires messages[j].WsEvent?
    requires var x := messages[j].order;
             x.internalId == id || (x.internalId == "" && x.clientOrderId == states[i].issued[id])
    ensures events[j] == [] && states[j + 1] == states[j]
  {
    NoResurrection(states, messages, events, id, i, j);
    MapsStayInverse(states, messages, events, j);
    assert SystemStep(states[j], messages[j], states[j + 1], events[j]);
    CompletedIsUnlisted(states[j], id);
  }

  // ---- REST confirmation against websocket event ---------------------------------------------------

  predicate ExchangeIdsAgree(o: Order, rest: Order, x: Order) {
    || o.exchangeOrderId.Some? || rest.exchangeOrderId.None? || x.exchangeOrderId.None?
    || rest.exchangeOrderId == x.exchangeOrderId
  }

  /** A successful REST result and a websocket event for the same order leave the same maps in both
      arrival orders exactly when the event completes the order or both name one exchange id. */
  lemma RestAndWsCommute(s: Orders, id: string, rest: Order, x: Order)
    requires Consistent(s) && id in s.active && Resolve(s, x) == Some(id) && !x.status.PendingSubmit?
    ensures var restFirst := AfterWsEvent(AfterSubmitResult(s, id, Ok(rest)).0, x).0;
            var wsFirst := AfterSubmitResult(AfterWsEvent(s, x).0, id, Ok(rest)).0;
            restFirst == wsFirst <==> x.status.IsFinal() || ExchangeIdsAgree(s.active[id], rest, x)
  {
    assert Tracks(s, id);
    var restFirst := AfterWsEvent(AfterSubmitResult(s, id, Ok(rest)).0, x).0;
    var wsFirst := AfterSubmitResult(AfterWsEvent(s, x).0, id, Ok(rest)).0;
    if x.status.IsFinal() {
      assert restFirst.active == s.active - {id} == wsFirst.active;
    } else {
      assert restFirst.active[id].status == wsFirst.active[id].status == x.status;
      if ExchangeIdsAgree(s.active[id], rest, x) {
        assert restFirst.active[id] == wsFirst.active[id];
        assert restFirst.active == wsFirst.active;
      } else {
        assert restFirst.active[id] != wsFirst.active[id];
      }
    }
  }

  /** A failed REST result and a websocket event leave the same maps in both arrival orders exactly when
      the event completes the order or the order had already been reported on; otherwise an order that
      is live on its exchange is rejected and forgotten if the failure comes first. */
  lemma RejectionAndWsCommute(s: Orders, id: string, failure: TradingError, x: Order)
    requires Consistent(s) && id in s.active && Resolve(s, x) == Some(id) && !x.status.PendingSubmit?
    ensures var restFirst := AfterWsEvent(AfterSubmitResult(s, id, Err(failure)).0, x).0;
            var wsFirst := AfterSubmitResult(AfterWsEvent(s, x).0, id, Err(failure)).0;
            restFirst == wsFirst <==> x.status.IsFinal() || !s.active[id].status.PendingSubmit?
  {
    assert Tracks(s, id);
    var restFirst := AfterWsEvent(AfterSubmitResult(s, id, Err(failure)).0, x).0;
    var wsFirst := AfterSubmitResult(AfterWsEvent(s, x).0, id, Err(failure)).0;
    if x.status.IsFinal() {
      assert restFirst.active == s.active - {id} == wsFirst.active;
    } else if s.active[id].status.PendingSubmit? {
      assert id !in restFirst.active && id in wsFirst.active;
    }
  }

  /** A REST result never takes back what the websocket reported: outside `PendingSubmit` status,
      fill and presence stay, whether it succeeds or fails. */
  lemma RestNeverDowngrades(s: Orders, id: string, r: Result<Order, TradingError>)
    requires id in s.active && !s.active[id].status.PendingSubmit?
    ensures var (t, events) := AfterSubmitResult(s, id, r);
            && events == [] && t.clients == s.clients && t.active.Keys == s.active.Keys
            && (forall x <- s.active :: t.active[x] == s.active[x].(exchangeOrderId := t.active[x].exchangeOrderId))
            && (forall x <- s.active :: s.active[x].exchangeOrderId.Some? ==> t.active[x] == s.active[x])
  {}

  // ---- reconciliation -----------------------------------------------------------------------------

  /** The order is in no fetched open list of its instrument, and its status was found to be final. */
  predicate Vanished(o: Order, r: Replies) {
    var key := o.request.key;
    && key in r.open && (forall listed <- r.open[key] :: listed.clientOrderId != o.clientOrderId)
    && (key, o.clientOrderId) in r.status
    && r.status[(key, o.clientOrderId)].status in {Filled, Canceled, Rejected}
  }

  lemma VanishedIsGone(s: Orders, r: Replies, id: string)
    requires id in s.active
    ensures IsGone(s, r, id) <==> Vanished(s.active[id], r)
  {
    var o := s.active[id];
    if o.request.key in r.open {
      var listed := r.open[o.request.key];
      assert o.clientOrderId in ClientIds(listed) <==> exists x <- listed :: x.clientOrderId == o.clientOrderId;
    }
  }

  /** One pass stops tracking exactly the orders that are missing from a fetched open list and whose
      status query is final, announces each once, and leaves every other order as it was. */
  lemma ReconcileRemovesExactly(s: Orders, r: Replies, t: Orders, events: seq<OrderEvent>, id: string)
    requires Consistent(s) && Step(s, Reconcile(r), t, events) && id in s.active
    ensures id !in t.active <==> Vanished(s.active[id], r)
    ensures id in t.active ==> t.active[id] == s.active[id]
    ensures t.active.Keys <= s.active.Keys && |events| == |s.active| - |t.active|
    ensures Terminals(events, id) == Bit(Vanished(s.active[id], r))
  {
    VanishedIsGone(s, r, id);
    GoneAnnouncedOnce(s, r, events, id);
    GoneCounted(s, r, t, events);
  }

  lemma GoneCounted(s: Orders, r: Replies, t: Orders, events: seq<OrderEvent>)
    requires Step(s, Reconcile(r), t, events)
    ensures t.active.Keys == s.active.Keys - Gone(s, r) && |events| == |s.active| - |t.active|
  {
    var gone := Gone(s, r);
    OneEventEach(s, r, gone, events);
    assert t.active.Keys == s.active.Keys - gone && gone <= s.active.Keys;
    assert |t.active| == |t.active.Keys| && |s.active| == |s.active.Keys|;
    assert |s.active.Keys - gone| == |s.active.Keys| - |gone|;
  }

  lemma {:induction false} OneEventEach(s: Orders, r: Replies, ids: set<string>, events: seq<OrderEvent>)
    requires Announces(s, r, ids, events)
    ensures |events| == |ids|
  {
    var named := set e <- events :: e.order.internalId;
    forall id | id in named ensures id in ids {
      var e :| e in events && e.order.internalId == id;
      var j :| 0 <= j < |events| && events[j] == e;
      assert AnnouncedAt(s, r, ids, events[j]);
    }
    forall id | id in ids ensures id in named {
      var j :| 0 <= j < |events| && events[j].order.internalId == id;
      assert events[j] in events;
    }
    assert named == ids;
    DistinctIds(events);
  }

  lemma {:induction false} DistinctIds(events: seq<OrderEvent>)
    requires forall j, k :: 0 <= j < k < |events| ==> events[j].order.internalId != events[k].order.internalId
    ensures |set e <- events :: e.order.internalId| == |events|
  {
    if events != [] {
      var n := |events| - 1;
      DistinctIds(events[..n]);
      OneMoreId(events[..n], events[n]);
      assert events == events[..n] + [events[n]];
    }
  }

  lemma OneMoreId(events: seq<OrderEvent>, last: OrderEvent)
    requires forall j :: 0 <= j < |events| ==> events[j].order.internalId != last.order.internalId
    ensures |set e <- events + [last] :: e.order.internalId| == |set e <- events :: e.order.internalId| + 1
  {
    var before := set e <- events :: e.order.internalId;
    assert (set e <- events + [last] :: e.order.internalId) == before + {last.order.internalId};
  }
}
