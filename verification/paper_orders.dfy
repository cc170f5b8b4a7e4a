/** The order manager (core/src/manager/order.rs) on top of the paper exchange (exchanges/src/mock.rs):
    there is no websocket, and open list and order status both read the open orders of the ledger. */
module PaperOrders {
  import opened Types
  import opened OrderManager
  import opened OrderRuns
  import PaperExchange
  import PaperRuns

  /** The order manager passes the exchange's answer on; its error carries no more than that. */
  predicate Passes(r: Result<Order, TradingError>, answer: Result<Order, PaperExchange.TradingError>) {
    (r.Ok? <==> answer.Ok?) && (r.Ok? ==> r.value == answer.value)
  }

  /** The status queries of a reconciliation, as far as they succeed, are answered from the open orders.
      The open lists may be anything. */
  ghost predicate ReadsOpenOrders(l: PaperExchange.Ledger, r: Replies) {
    forall q <- r.status :: q.1 in l.openOrders && r.status[q] == l.openOrders[q.1]
  }

  /** The answer to action `k`. */
  function AnswerAt(h: seq<PaperRuns.Action>, k: nat): PaperRuns.Reply
    requires k < |h|
  {
    PaperRuns.Step(PaperRuns.After(h[..k]), h[k]).1
  }

  predicate PlacesAt(h: seq<PaperRuns.Action>, clientId: string, k: int) {
    0 <= k < |h| && h[k].Place? && h[k].clientId == clientId
  }

  /** `r` passes on what the exchange answered to an order placed under `clientId`. */
  ghost predicate ConfirmsPlacement(
    h: seq<PaperRuns.Action>, clientId: string, r: Result<Order, TradingError>)
  {
    exists k :: PlacesAt(h, clientId, k) && Passes(r, AnswerAt(h, k).result)
  }

  /** A message that the order manager can get when the exchange has seen `h`. */
  ghost predicate PaperAnswers(sys: System, h: seq<PaperRuns.Action>, m: Message) {
    match m
    case Submit(_, _, _) => true
    case SubmitResult(id, r) =>
      id in sys.issued ==> ConfirmsPlacement(h, sys.issued[id], r)
    case CancelResult(id, r) =>
      id in sys.issued && Passes(r, PaperExchange.Cancelled(PaperRuns.After(h), sys.issued[id]).1)
    case WsEvent(_) => false
    case Reconcile(r) => ReadsOpenOrders(PaperRuns.After(h), r)
  }

  /** Every order placed under `clientId` was filled at once. */
  ghost predicate AllFilled(h: seq<PaperRuns.Action>, clientId: string) {
    forall k :: PlacesAt(h, clientId, k) ==> PaperRuns.IsFill(AnswerAt(h, k))
  }

  lemma {:induction false} FilledNeverRests(h: seq<PaperRuns.Action>, clientId: string)
    requires AllFilled(h, clientId)
    ensures PaperRuns.Resting(h, clientId) == None
  {
    if h != [] {
      var n := |h| - 1;
      forall k | PlacesAt(h[..n], clientId, k) ensures PaperRuns.IsFill(AnswerAt(h[..n], k)) {
        assert h[..n][..k] == h[..k] && PlacesAt(h, clientId, k);
      }
      FilledNeverRests(h[..n], clientId);
      assert PlacesAt(h, clientId, n) ==> PaperRuns.IsFill(AnswerAt(h, n));
    }
  }

  /** No reconciliation ever removes anything: what the status query finds is open, and open orders are
      never final. */
  lemma ReconcileRemovesNothing(h: seq<PaperRuns.Action>, s: Orders, r: Replies)
    requires ReadsOpenOrders(PaperRuns.After(h), r)
    ensures Gone(s, r) == {} && WithoutAll(s, Gone(s, r)) == s
  {
    forall id | id in s.active ensures !IsGone(s, r, id) {
      PaperRuns.RestingOrdersNeverFill(h, s.active[id].clientOrderId);
    }
    assert WithoutAll(s, {}) == s;
  }

  /** An order that the order manager takes for open and untouched. */
  predicate TakenForOpen(s: Orders, id: string) {
    id in s.active && (s.active[id].status.PendingSubmit? || s.active[id].status.New?)
  }

  lemma PaperStep(
    sys: System, m: Message, sys': System, events: seq<OrderEvent>, h: seq<PaperRuns.Action>, id: string)
    requires Sound(sys) && SystemStep(sys, m, sys', events) && PaperAnswers(sys, h, m)
    requires TakenForOpen(sys.orders, id) && AllFilled(h, sys.issued[id])
    ensures TakenForOpen(sys'.orders, id) && id in sys'.issued && sys'.issued[id] == sys.issued[id]
    ensures Terminals(events, id) == 0
  {
    FilledNeverRests(h, sys.issued[id]);
    PaperRuns.RestingOrdersNeverFill(h, sys.issued[id]);
    assert Tracks(sys.orders, id);
    if m.Reconcile? {
      ReconcileRemovesNothing(h, sys.orders, m.replies);
    }
    StepAccounting(sys, m, sys', events, id);
  }

  /** Message `n` of the run is one the exchange allows after `histories[n]`, in which the order was filled. */
  ghost predicate AnsweredAt(
    states: seq<System>, messages: seq<Message>, histories: seq<seq<PaperRuns.Action>>, clientId: string, n: int)
    requires 0 <= n < |states| && n < |messages| && n < |histories|
  {
    PaperAnswers(states[n], histories[n], messages[n]) && AllFilled(histories[n], clientId)
  }

  ghost predicate AnsweredBetween(
    states: seq<System>, messages: seq<Message>, histories: seq<seq<PaperRuns.Action>>, clientId: string,
    i: nat, j: nat)
    requires |states| > |messages| == |histories| && j <= |messages|
  {
    forall n :: i <= n < j ==> AnsweredAt(states, messages, histories, clientId, n)
  }

  /** What the order manager holds of the order. */
  predicate HeldOpen(sys: System, id: string, clientId: string) {
    TakenForOpen(sys.orders, id) && id in sys.issued && sys.issued[id] == clientId
  }

  lemma HeldOpenAfter(
    states: seq<System>, messages: seq<Message>, events: seq<seq<OrderEvent>>,
    histories: seq<seq<PaperRuns.Action>>, id: string, clientId: string, n: nat)
    requires IsRun(states, messages, events) && |histories| == |messages| && n < |messages|
    requires HeldOpen(states[n], id, clientId) && AnsweredAt(states, messages, histories, clientId, n)
    ensures HeldOpen(states[n + 1], id, clientId) && Terminals(events[n], id) == 0
  {
    MapsStayInverse(states, messages, events, n);
    PaperStep(states[n], messages[n], states[n + 1], events[n], histories[n], id);
  }

  lemma OneMoreSilent(events: seq<seq<OrderEvent>>, id: string, i: nat, n: nat)
    requires i <= n < |events| && TotalTerminals(events[i..n], id) == 0 && Terminals(events[n], id) == 0
    ensures TotalTerminals(events[i..n + 1], id) == 0
  {
    assert events[i..n + 1][..n - i] == events[i..n];
  }

  /** On the paper exchange an order that was filled when it was placed stays with the order manager as an
      open one for ever: neither its REST confirmation nor any cancellation or reconciliation ever reports
      the fill, and no terminal event is broadcast for it. */
  lemma {:induction false} FilledOrderIsNeverReported(
    states: seq<System>, messages: seq<Message>, events: seq<seq<OrderEvent>>,
    histories: seq<seq<PaperRuns.Action>>, id: string, clientId: string, i: nat, k: nat, j: nat)
    requires IsRun(states, messages, events) && |histories| == |messages| && i <= k <= j <= |messages|
    requires HeldOpen(states[i], id, clientId)
    requires AnsweredBetween(states, messages, histories, clientId, i, j)
    ensures HeldOpen(states[k], id, clientId)
    ensures TotalTerminals(events[i..k], id) == 0
    decreases k
  {
    if i < k {
      FilledOrderIsNeverReported(states, messages, events, histories, id, clientId, i, k - 1, j);
      HeldOpenAfter(states, messages, events, histories, id, clientId, k - 1);
      OneMoreSilent(events, id, i, k - 1);
    }
  }

  /** Every order is taken for open as soon as it is submitted, and nothing on the paper exchange says
      otherwise. */
  lemma {:induction false} AllTakenForOpen(
    states: seq<System>, messages: seq<Message>, events: seq<seq<OrderEvent>>,
    histories: seq<seq<PaperRuns.Action>>, n: nat)
    requires IsRun(states, messages, events) && |histories| == |messages| && n <= |messages|
    requires forall k :: 0 <= k < |messages| ==> PaperAnswers(states[k], histories[k], messages[k])
    ensures forall id <- states[n].orders.active :: TakenForOpen(states[n].orders, id)
  {
    if n > 0 {
      AllTakenForOpen(states, messages, events, histories, n - 1);
      assert SystemStep(states[n - 1], messages[n - 1], states[n], events[n - 1]);
      if messages[n - 1].Reconcile? {
        ReconcileRemovesNothing(histories[n - 1], states[n - 1].orders, messages[n - 1].replies);
      }
    }
  }
}
