/** From the strategy's cancel request to the order manager: the strategy names orders by client id
    (strategies/src/arbitrage/perp_perp/execution.rs), the order manager looks internal ids up
    (core/src/manager/order.rs), and a codec lies between the two (exchanges/src/binance/codec.rs and
    its siblings, exchanges/src/mock.rs). */
module CancelPath {
  import opened Types
  import opened ArbitrageTypes
  import opened PerpPair
  import Execution
  import opened OrderManager
  import opened OrderRuns

  /** The exchanges cut an internal id to their limit of 36 characters, the paper exchange puts a prefix
      before it. */
  datatype Codec = Truncating(maxLength: nat) | Prefixing {
    function Encode(id: string): string {
      match this
      case Truncating(n) => if |id| <= n then id else id[..n]
      case Prefixing => "mock-" + id
    }
  }

  ghost predicate UsesCodec(codec: Codec, messages: seq<Message>) {
    forall m <- messages :: m.Submit? ==> m.clientId == codec.Encode(m.id)
  }

  lemma {:induction false} IssuedIdsAreEncoded(
    codec: Codec, states: seq<System>, messages: seq<Message>, events: seq<seq<OrderEvent>>, n: nat)
    requires IsRun(states, messages, events) && UsesCodec(codec, messages) && n <= |messages|
    ensures forall id <- states[n].issued :: states[n].issued[id] == codec.Encode(id)
  {
    if n > 0 {
      IssuedIdsAreEncoded(codec, states, messages, events, n - 1);
      assert SystemStep(states[n - 1], messages[n - 1], states[n], events[n - 1]);
      assert messages[n - 1] in messages;
    }
  }

  /** In every reachable state a request to cancel an order by its client id finds that order exactly
      if the codec leaves its internal id as it is: never on the paper exchange, and on the others for
      ids within the limit. */
  lemma CancelFindsOrderIff(
    codec: Codec, states: seq<System>, messages: seq<Message>, events: seq<seq<OrderEvent>>, n: nat, id: string)
    requires IsRun(states, messages, events) && UsesCodec(codec, messages) && n <= |messages|
    requires id in states[n].orders.active
    ensures var s := states[n].orders;
            CancelTarget(s, s.active[id].clientOrderId) == Ok(s.active[id]) <==>
            codec.Truncating? && |id| <= codec.maxLength
  {
    MapsStayInverse(states, messages, events, n);
    IssuedIdsAreEncoded(codec, states, messages, events, n);
    var s := states[n].orders;
    var clientId := s.active[id].clientOrderId;
    assert Tracks(s, id) && clientId == codec.Encode(id);
    if clientId in s.active {
      assert Tracks(s, clientId);
    }
    if codec.Truncating? {
      assert |id| > codec.maxLength ==> |clientId| < |id|;
    } else {
      assert |clientId| == |id| + 5;
    }
  }

  /** A rebalance marks every pending order cancelled all the same, so an order that its request does
      not find is cancelled for the strategy and live for the order manager. */
  lemma CancelReplacedButLive(
    codec: Codec, states: seq<System>, messages: seq<Message>, events: seq<seq<OrderEvent>>, n: nat, id: string,
    p: Pair)
    requires IsRun(states, messages, events) && UsesCodec(codec, messages) && n <= |messages|
    requires id in states[n].orders.active && states[n].orders.active[id].clientOrderId in p.tracker.Pending()
    ensures var clientId := states[n].orders.active[id].clientOrderId;
            && clientId in Execution.CancelRequests(Rebalance(0.0, 0.0), p)
            && clientId !in Execution.CancelReplaced(p).tracker.Pending()
            && (CancelTarget(states[n].orders, clientId) != Ok(states[n].orders.active[id]) <==>
                codec.Prefixing? || |id| > codec.maxLength)
  {
    CancelFindsOrderIff(codec, states, messages, events, n, id);
    ForceCancelledNothingPending(p.tracker);
  }
}
