/** Turning actions into orders (strategies/src/arbitrage/perp_perp/execution.rs). The router's
    answers to the two submissions are inputs. */
module Execution {
  import opened Types
  import opened ArbitrageTypes
  import opened PerpPair

  /** The acknowledged order keeps the client id and the normalized price. */
  datatype SubmitReply = Accepted(clientOrderId: string, price: Option<real>) | Refused

  datatype Replies = Replies(longReply: SubmitReply, shortReply: SubmitReply)

  datatype Submission = Submission(request: OrderRequest, reply: SubmitReply)

  /** A sizing intent: a market order when there is no price, else a post-only limit order. */
  datatype LegOrder = LegOrder(size: real, price: Option<real>)

  datatype Outcome = Outcome(pair: Pair, sent: seq<Submission>, ok: bool)

  /** No order for a zero size. */
  function Request(key: InstrumentKey, o: LegOrder, reduceOnly: bool): Option<OrderRequest> {
    if o.size == 0.0 then None
    else Some(OrderRequest(
      key, "perp_perp_arb", if o.size >= 0.0 then Buy else Sell, if o.price.Some? then Limit else Market,
      o.price, Abs(o.size), o.price.Some?, reduceOnly))
  }

  function Sent(key: InstrumentKey, o: LegOrder, reduceOnly: bool, reply: SubmitReply): seq<Submission> {
    match Request(key, o, reduceOnly)
    case None => []
    case Some(r) => [Submission(r, reply)]
  }

  predicate Failed(o: LegOrder, reply: SubmitReply) {
    o.size != 0.0 && reply.Refused?
  }

  function TrackReply(t: Tracker, key: InstrumentKey, size: real, reply: SubmitReply): Tracker {
    if size != 0.0 && reply.Accepted?
    then t.Track(TrackedOrder(reply.clientOrderId, key, Pending, size, 0.0, reply.price))
    else t
  }

  /** Long first, then short; any refusal stops the dispatch before anything is recorded. */
  function DispatchLegs(p: Pair, long: LegOrder, short: LegOrder, reduceOnly: bool,
                        next: Option<PairStatus>, r: Replies): Outcome
  {
    var sentLong := Sent(p.longLeg.key, long, reduceOnly, r.longReply);
    var sentShort := Sent(p.shortLeg.key, short, reduceOnly, r.shortReply);
    if Failed(long, r.longReply) then Outcome(p, sentLong, false)
    else if Failed(short, r.shortReply) then Outcome(p, sentLong + sentShort, false)
    else
      var t := TrackReply(p.tracker, p.longLeg.key, long.size, r.longReply);
      var t' := TrackReply(t, p.shortLeg.key, short.size, r.shortReply);
      Outcome(p.(tracker := t', status := next.UnwrapOr(p.status)), sentLong + sentShort, true)
  }

  function CancelReplaced(p: Pair): Pair {
    p.(tracker := p.tracker.ForceCancelAll(p.tracker.Pending()))
  }

  /** The maker price of a rebalance order: bid to buy, ask to sell. */
  function RebalancePrice(leg: PerpLeg, size: real): real {
    (if size >= 0.0 then leg.bestBid else leg.bestAsk).UnwrapOr(leg.currentPrice)
  }

  function Execute(action: DeciderAction, p: Pair, r: Replies): Outcome {
    match action
    case Enter(sl, ss) =>
      var (lp, sp) := p.EntryPrices();
      DispatchLegs(p, LegOrder(sl, Some(lp)), LegOrder(ss, Some(sp)), false, Some(Entering), r)
    case Rebalance(sl, ss) =>
      var q := CancelReplaced(p);
      DispatchLegs(q, LegOrder(sl, Some(RebalancePrice(p.longLeg, sl))),
                   LegOrder(ss, Some(RebalancePrice(p.shortLeg, ss))), false, None, r)
    case Exit =>
      DispatchLegs(p, LegOrder(-p.longLeg.positionSize, None), LegOrder(-p.shortLeg.positionSize, None),
                   true, Some(Exiting), r)
    case Recover(sl, ss) =>
      var (lp, sp) := p.EntryPrices();
      DispatchLegs(p, LegOrder(sl, Some(lp)), LegOrder(ss, Some(sp)), false, Some(Recovering), r)
    case Unwind(sl, ss) =>
      DispatchLegs(p, LegOrder(sl, None), LegOrder(ss, None), true, Some(Unwinding), r)
    case DoNothing => Outcome(p, [], true)
  }

  predicate AllAccepted(sent: seq<Submission>) {
    forall sub <- sent :: sub.reply.Accepted?
  }

  /** An accepted order as the tracker keeps it: under its client id, with its signed size. */
  predicate OnRecord(t: Tracker, sub: Submission) {
    && sub.reply.Accepted? && sub.reply.clientOrderId in t.orders
    && t.orders[sub.reply.clientOrderId] ==
       TrackedOrder(sub.reply.clientOrderId, sub.request.key, Pending,
                    if sub.request.side == Buy then sub.request.size else -sub.request.size, 0.0, sub.reply.price)
  }

  predicate SentUnder(sent: seq<Submission>, id: string) {
    exists sub <- sent :: sub.reply.Accepted? && sub.reply.clientOrderId == id
  }

  predicate SameRecord(t: Tracker, u: Tracker, id: string) {
    if id in t.orders then id in u.orders && t.orders[id] == u.orders[id] else id !in u.orders
  }

  /** A dispatch succeeds exactly if nothing it sent was refused. Its orders are then in flight, as they
      were sent if their client ids differ, and no other order is touched; otherwise none is. */
  lemma DispatchRecords(p: Pair, long: LegOrder, short: LegOrder, reduceOnly: bool, next: Option<PairStatus>,
                        r: Replies, id: string)
    ensures var o := DispatchLegs(p, long, short, reduceOnly, next, r);
            && (o.ok <==> AllAccepted(o.sent))
            && (o.ok ==> forall sub <- o.sent :: sub.reply.clientOrderId in o.pair.tracker.Pending())
            && (o.ok && (|o.sent| == 2 ==> o.sent[0].reply.clientOrderId != o.sent[1].reply.clientOrderId) ==>
                  forall sub <- o.sent :: OnRecord(o.pair.tracker, sub))
            && (!(o.ok && SentUnder(o.sent, id)) ==> SameRecord(p.tracker, o.pair.tracker, id))
  {
    var o := DispatchLegs(p, long, short, reduceOnly, next, r);
    if long.size != 0.0 && r.longReply.Accepted? {
      assert o.sent[0] == Submission(Request(p.longLeg.key, long, reduceOnly).value, r.longReply);
      assert o.sent[0] in o.sent;
    }
    if o.ok && short.size != 0.0 {
      assert o.sent[|o.sent| - 1] == Submission(Request(p.shortLeg.key, short, reduceOnly).value, r.shortReply);
      assert o.sent[|o.sent| - 1] in o.sent;
    }
  }

  /** A rebalance first asks to cancel whatever is pending. */
  function CancelRequests(action: DeciderAction, p: Pair): set<string> {
    if action.Rebalance? then p.tracker.Pending() else {}
  }

  /** The status an executed action leads to. */
  function TargetStatus(action: DeciderAction, current: PairStatus): PairStatus {
    match action
    case Enter(_, _) => Entering
    case Exit => Exiting
    case Recover(_, _) => Recovering
    case Unwind(_, _) => Unwinding
    case _ => current
  }

  method PlacePerpOrder(key: InstrumentKey, o: LegOrder, reduceOnly: bool, reply: SubmitReply)
    returns (sent: seq<Submission>, placed: Option<SubmitReply>, ok: bool)
    ensures sent == Sent(key, o, reduceOnly, reply)
    ensures ok <==> !Failed(o, reply)
    ensures placed == if o.size != 0.0 && reply.Accepted? then Some(reply) else None
  {
    if o.size == 0.0 {
      return [], None, true;
    }
    var side := if o.size >= 0.0 then Buy else Sell;
    var orderType, postOnly := Market, false;
    if o.price.Some? {
      orderType, postOnly := Limit, true;
    }
    var request := OrderRequest(key, "perp_perp_arb", side, orderType, o.price, Abs(o.size), postOnly, reduceOnly);
    sent := [Submission(request, reply)];
    if reply.Refused? {
      return sent, None, false;
    }
    return sent, Some(reply), true;
  }

  method TrackIfSome(pair: PerpPerpPair, placed: Option<SubmitReply>, key: InstrumentKey, size: real)
    requires placed.Some? ==> placed.value.Accepted? && size != 0.0
    modifies pair.orderTracker`orders
    ensures pair.State() == old(pair.State()).(
      tracker := if placed.Some? then TrackReply(old(pair.State()).tracker, key, size, placed.value)
                 else old(pair.State()).tracker)
  {
    if placed.Some? {
      var ack := placed.value;
      pair.orderTracker.Track(TrackedOrder(ack.clientOrderId, key, Pending, size, 0.0, ack.price));
    }
  }

  method RunDispatchLegs(pair: PerpPerpPair, long: LegOrder, short: LegOrder, reduceOnly: bool,
                         next: Option<PairStatus>, r: Replies)
    returns (sent: seq<Submission>, ok: bool)
    modifies pair`status, pair.orderTracker`orders
    ensures Outcome(pair.State(), sent, ok) == DispatchLegs(old(pair.State()), long, short, reduceOnly, next, r)
  {
    var placedLong, placedShort, more;
    sent, placedLong, ok := PlacePerpOrder(pair.longLeg.key, long, reduceOnly, r.longReply);
    if !ok {
      return;
    }
    more, placedShort, ok := PlacePerpOrder(pair.shortLeg.key, short, reduceOnly, r.shortReply);
    sent := sent + more;
    if !ok {
      return;
    }
    TrackIfSome(pair, placedLong, pair.longLeg.key, long.size);
    TrackIfSome(pair, placedShort, pair.shortLeg.key, short.size);
    if next.Some? {
      pair.status := next.value;
    }
  }

  method CancelPendingOrders(pair: PerpPerpPair) returns (cancelled: set<string>)
    modifies pair.orderTracker`orders
    ensures pair.State() == CancelReplaced(old(pair.State()))
    ensures cancelled == old(pair.State()).tracker.Pending()
  {
    ghost var before := pair.State().tracker;
    var pending := pair.orderTracker.AllPending();
    cancelled := {};
    assert before == before.ForceCancelAll({}) by {
      assert before.orders == before.ForceCancelAll({}).orders;
    }
    while pending != {}
      invariant cancelled + pending == before.Pending() && cancelled !! pending
      invariant pair.State() == old(pair.State()).(tracker := before.ForceCancelAll(cancelled))
    {
      var id :| id in pending;
      pair.orderTracker.ForceCancel(id);
      ForceCancelAgain(before, cancelled, id);
      cancelled, pending := cancelled + {id}, pending - {id};
    }
  }

  lemma ForceCancelAgain(t: Tracker, ids: set<string>, id: string)
    ensures t.ForceCancelAll(ids).ForceCancelAll({id}) == t.ForceCancelAll(ids + {id})
  {}

  method RunExecute(action: DeciderAction, pair: PerpPerpPair, r: Replies)
    returns (sent: seq<Submission>, cancels: set<string>, ok: bool)
    modifies pair`status, pair.orderTracker`orders
    ensures Outcome(pair.State(), sent, ok) == Execute(action, old(pair.State()), r)
    ensures cancels == CancelRequests(action, old(pair.State()))
  {
    cancels := {};
    match action {
      case Enter(sl, ss) =>
        var longPrice := pair.longLeg.bestBid.UnwrapOr(pair.longLeg.currentPrice);
        var shortPrice := pair.shortLeg.bestAsk.UnwrapOr(pair.shortLeg.currentPrice);
        sent, ok := RunDispatchLegs(pair, LegOrder(sl, Some(longPrice)), LegOrder(ss, Some(shortPrice)),
                                    false, Some(Entering), r);
      case Rebalance(sl, ss) =>
        cancels := CancelPendingOrders(pair);
        var longPrice := (if sl >= 0.0 then pair.longLeg.bestBid else pair.longLeg.bestAsk)
          .UnwrapOr(pair.longLeg.currentPrice);
        var shortPrice := (if ss >= 0.0 then pair.shortLeg.bestBid else pair.shortLeg.bestAsk)
          .UnwrapOr(pair.shortLeg.currentPrice);
        sent, ok := RunDispatchLegs(pair, LegOrder(sl, Some(longPrice)), LegOrder(ss, Some(shortPrice)),
                                    false, None, r);
      case Exit =>
        sent, ok := RunDispatchLegs(pair, LegOrder(-pair.longLeg.positionSize, None),
                                    LegOrder(-pair.shortLeg.positionSize, None), true, Some(Exiting), r);
      case Recover(sl, ss) =>
        var longPrice := pair.longLeg.bestBid.UnwrapOr(pair.longLeg.currentPrice);
        var shortPrice := pair.shortLeg.bestAsk.UnwrapOr(pair.shortLeg.currentPrice);
        sent, ok := RunDispatchLegs(pair, LegOrder(sl, Some(longPrice)), LegOrder(ss, Some(shortPrice)),
                                    false, Some(Recovering), r);
      case Unwind(sl, ss) =>
        sent, ok := RunDispatchLegs(pair, LegOrder(sl, None), LegOrder(ss, None), true, Some(Unwinding), r);
      case DoNothing =>
        sent, ok := [], true;
    }
  }
}
