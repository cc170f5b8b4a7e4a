/** Leg, status, action, order tracker and unwind schedule (strategies/src/arbitrage/types.rs).
    Each mutable class has an abstract value: `UnwindSchedule` a `Schedule`, `OrderTracker` a
    `Tracker`. */
module ArbitrageTypes {
  import opened Types

  datatype PerpLeg = PerpLeg(
    key: InstrumentKey, positionSize: real, entryPrice: real, currentPrice: real, fundingRate: real,
    bestBid: Option<real>, bestAsk: Option<real>, askDepth: Option<real>, bidDepth: Option<real>)
  {
    function Notional(): real {
      positionSize * currentPrice
    }

    /** Unknown depth allows any size. */
    predicate DepthSufficient(size: real) {
      size == 0.0 ||
      match if size >= 0.0 then askDepth else bidDepth
      case None => true
      case Some(d) => d >= Abs(size)
    }
  }

  function NewLeg(key: InstrumentKey): PerpLeg {
    PerpLeg(key, 0.0, 0.0, 0.0, 0.0, None, None, None, None)
  }

  datatype PairStatus = Inactive | Entering | Active | Exiting | Recovering | Unwinding {
    predicate IsTransitional() {
      this in {Entering, Exiting, Recovering, Unwinding}
    }
  }

  datatype DeciderAction =
    | DoNothing
    | Enter(sizeLong: real, sizeShort: real)
    | Rebalance(sizeLong: real, sizeShort: real)
    | Exit
    | Recover(sizeLong: real, sizeShort: real)
    | Unwind(sizeLong: real, sizeShort: real)

  datatype TrackedOrderStatus = Pending | Open | TrackedPartiallyFilled | TrackedFilled | Cancelled | TrackedRejected {
    predicate IsTerminal() {
      this in {TrackedFilled, Cancelled, TrackedRejected}
    }
  }

  function FromOrderEvent(e: OrderEvent): (s: TrackedOrderStatus)
    ensures s.IsTerminal() <==> e.IsTerminal()
  {
    match e
    case NewEvent(_) => Open
    case PartiallyFilledEvent(_) => TrackedPartiallyFilled
    case FilledEvent(_) => TrackedFilled
    case CanceledEvent(_) => Cancelled
    case RejectedEvent(_) => TrackedRejected
  }

  datatype TrackedOrder = TrackedOrder(
    orderId: string, key: InstrumentKey, status: TrackedOrderStatus,
    requestedQty: real, filledQty: real, orderPrice: Option<real>)

  datatype Schedule = Schedule(numChunks: nat, chunksDispatched: nat) {
    predicate Valid() {
      1 <= numChunks && chunksDispatched <= numChunks
    }

    predicate IsComplete() {
      chunksDispatched >= numChunks
    }

    /** The part of `remaining` that the next chunk closes. */
    function Chunk(remaining: real): real
      requires !IsComplete()
    {
      remaining / (numChunks - chunksDispatched) as real
    }

    function Advanced(): Schedule {
      this.(chunksDispatched := chunksDispatched + 1)
    }
  }

  const DEFAULT_UNWIND_CHUNKS: nat := 4

  class UnwindSchedule {
    const numChunks: nat
    var chunksDispatched: nat

    function State(): Schedule
      reads this
    {
      Schedule(numChunks, chunksDispatched)
    }

    constructor (chunks: nat)
      ensures State() == Schedule(if chunks < 1 then 1 else chunks, 0) && State().Valid()
    {
      numChunks := if chunks < 1 then 1 else chunks;
      chunksDispatched := 0;
    }

    predicate IsComplete()
      reads this
      ensures IsComplete() == State().IsComplete()
    {
      chunksDispatched >= numChunks
    }

    method NextChunk(remainingLong: real, remainingShort: real) returns (chunk: Option<(real, real)>)
      ensures chunk == if State().IsComplete() then None
                       else Some((State().Chunk(remainingLong), State().Chunk(remainingShort)))
    {
      if IsComplete() {
        return None;
      }
      var remainingChunks := (numChunks - chunksDispatched) as real;
      return Some((remainingLong / remainingChunks, remainingShort / remainingChunks));
    }

    method Advance()
      modifies this
      ensures State() == old(State()).Advanced()
    {
      chunksDispatched := chunksDispatched + 1;
    }
  }

  /** The next chunk is handed out at most once, and only while the schedule is incomplete. */
  method NextUnwindAction(schedule: UnwindSchedule, remainingLong: real, remainingShort: real)
    returns (action: Option<DeciderAction>)
    modifies schedule
    ensures var s := old(schedule.State());
            if s.IsComplete() then action == None && schedule.State() == s
            else && schedule.State() == s.Advanced()
                 && action == Some(Unwind(s.Chunk(remainingLong), s.Chunk(remainingShort)))
  {
    var chunk := schedule.NextChunk(remainingLong, remainingShort);
    match chunk {
      case None => action := None;
      case Some((chunkLong, chunkShort)) =>
        schedule.Advance();
        action := Some(Unwind(chunkLong, chunkShort));
    }
  }

  datatype Tracker = Tracker(orders: map<string, TrackedOrder>, schedule: Option<Schedule>) {
    predicate Valid() {
      && (forall id <- orders :: orders[id].orderId == id)
      && (schedule.Some? ==> schedule.value.Valid())
    }

    function Pending(): set<string> {
      set id <- orders | !orders[id].status.IsTerminal()
    }

    predicate HasPending() {
      Pending() != {}
    }

    function Track(order: TrackedOrder): Tracker {
      this.(orders := orders[order.orderId := order])
    }

    function UpdateFill(id: string, filled: real, status: TrackedOrderStatus): Tracker {
      if id in orders
      then this.(orders := orders[id := orders[id].(filledQty := filled, status := status)])
      else this
    }

    function RemoveTerminal(): Tracker {
      this.(orders := map id | id in Pending() :: orders[id])
    }

    function ForceCancelAll(ids: set<string>): Tracker {
      this.(orders := map id | id in orders ::
        if id in ids then orders[id].(status := Cancelled) else orders[id])
    }
  }

  /** Forced cancellation of everything pending leaves nothing pending. */
  lemma ForceCancelledNothingPending(t: Tracker)
    ensures !t.ForceCancelAll(t.Pending()).HasPending()
    ensures t.ForceCancelAll(t.Pending()).orders.Keys == t.orders.Keys
  {}

  /** A tracked order is in flight from then on unless it is terminal, and no other is affected. */
  lemma TrackedPending(t: Tracker, o: TrackedOrder)
    ensures t.Track(o).Pending() ==
            if o.status.IsTerminal() then t.Pending() - {o.orderId} else t.Pending() + {o.orderId}
  {}

  /** An update concerns the named order only, and only if it is known: a terminal one takes it out of
      flight, any other puts it back. */
  lemma UpdatedPending(t: Tracker, id: string, filled: real, status: TrackedOrderStatus)
    ensures t.UpdateFill(id, filled, status).Pending() ==
            if id !in t.orders then t.Pending()
            else if status.IsTerminal() then t.Pending() - {id} else t.Pending() + {id}
  {}

  /** Garbage collection keeps exactly the orders in flight. */
  lemma RemoveTerminalKeepsPending(t: Tracker)
    ensures t.RemoveTerminal().Pending() == t.Pending() == t.RemoveTerminal().orders.Keys
    ensures t.Valid() ==> t.RemoveTerminal().Valid()
  {}

  class OrderTracker {
    var orders: map<string, TrackedOrder>
    var unwindSchedule: UnwindSchedule?

    function State(): Tracker
      reads this, unwindSchedule
    {
      Tracker(orders, if unwindSchedule == null then None else Some(unwindSchedule.State()))
    }

    constructor ()
      ensures State() == Tracker(map[], None)
      ensures unwindSchedule == null
    {
      orders := map[];
      unwindSchedule := null;
    }

    method Track(order: TrackedOrder)
      modifies this`orders
      ensures State() == old(State()).Track(order)
    {
      orders := orders[order.orderId := order];
    }

    method UpdateFill(id: string, filled: real, status: TrackedOrderStatus) returns (found: bool)
      modifies this`orders
      ensures State() == old(State()).UpdateFill(id, filled, status)
      ensures found <==> id in old(orders)
    {
      if id in orders {
        orders := orders[id := orders[id].(filledQty := filled, status := status)];
        return true;
      }
      return false;
    }

    predicate HasPending()
      reads this, unwindSchedule
      ensures HasPending() == State().HasPending()
    {
      var pending := set id <- orders | !orders[id].status.IsTerminal();
      assert pending == State().Pending();
      pending != {}
    }

    function AllPending(): (ids: set<string>)
      reads this, unwindSchedule
      ensures ids == State().Pending()
    {
      set id <- orders | !orders[id].status.IsTerminal()
    }

    method RemoveTerminal()
      modifies this`orders
      ensures State() == old(State()).RemoveTerminal()
    {
      orders := map id | id in orders && !orders[id].status.IsTerminal() :: orders[id];
      assert orders == old(State()).RemoveTerminal().orders;
    }

    method ForceCancel(id: string)
      modifies this`orders
      ensures State() == old(State()).ForceCancelAll({id})
    {
      if id in orders {
        orders := orders[id := orders[id].(status := Cancelled)];
      }
      assert orders == old(State()).ForceCancelAll({id}).orders;
    }
  }
}
