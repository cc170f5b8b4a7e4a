/** Shared value types of the trading core (core/src/types.rs).
    `Decimal` is modelled by exact reals, `String` by `string`; wall-clock stamps are left out. */
module Types {

  datatype Option<+T> = None | Some(value: T) {
    function UnwrapOr(default: T): T {
      if Some? then value else default
    }
  }

  datatype Result<+T, +E> = Ok(value: T) | Err(error: E)

  /** No element occurs twice. */
  ghost predicate Distinct<T>(s: seq<T>) {
    forall i, j :: 0 <= i < j < |s| ==> s[i] != s[j]
  }

  datatype Exchange = Binance | Bybit | Gateio | Aster | Okx | Hyperliquid

  datatype Currency = BNB | BTC | ETH | USDT | USDC | MIRA | SOL | STEEM | ENSO | XRP

  datatype Pairs =
    | BTCUSDT | ETHUSDT | XRPUSDT | USDCUSDT | SOLUSDT | BNBUSDT | STEEMUSDT | ENSOUSDT | MIRAUSDT
  {
    /** The currency in which trades of the pair are settled by the paper ledger. */
    function Quote(): Currency {
      match this
      case MIRAUSDT => MIRA
      case _ => USDT
    }
  }

  datatype InstrumentType = Spot | Swap

  datatype InstrumentKey =
    InstrumentKey(exchange: Exchange, pair: Pairs, instrumentType: InstrumentType)

  datatype OrderSide = Buy | Sell

  datatype OrderType = Market | Limit

  datatype OrderStatus = PendingSubmit | New | PartiallyFilled | Filled | Canceled | Rejected {
    predicate IsFinal() {
      this in {Filled, Canceled, Rejected}
    }
  }

  datatype OrderRequest = OrderRequest(
    key: InstrumentKey, strategyId: string, side: OrderSide, orderType: OrderType,
    price: Option<real>, size: real, postOnly: bool, reduceOnly: bool)

  datatype Order = Order(
    internalId: string, strategyId: string, clientOrderId: string, exchangeOrderId: Option<string>,
    request: OrderRequest, status: OrderStatus, filledSize: real, avgFillPrice: Option<real>)

  /** Every variant carries the order; `order` is the source's `inner()`. */
  datatype OrderEvent =
    | NewEvent(order: Order)
    | PartiallyFilledEvent(order: Order)
    | FilledEvent(order: Order)
    | CanceledEvent(order: Order)
    | RejectedEvent(order: Order)
  {
    predicate IsTerminal() {
      FilledEvent? || CanceledEvent? || RejectedEvent?
    }
  }

  function EventOf(order: Order): (e: OrderEvent)
    ensures e.order == order && (e.IsTerminal() <==> order.status.IsFinal())
  {
    match order.status
    case PartiallyFilled => PartiallyFilledEvent(order)
    case Filled => FilledEvent(order)
    case Canceled => CanceledEvent(order)
    case Rejected => RejectedEvent(order)
    case _ => NewEvent(order)
  }

  datatype Position = Position(
    key: InstrumentKey, size: real, entryPrice: real, unrealizedPnl: real,
    leverage: real, liquidationPrice: Option<real>)

  datatype PriceLevel = PriceLevel(price: real, quantity: real)

  datatype OrderBookSnapshot = OrderBookSnapshot(
    key: InstrumentKey, bids: seq<PriceLevel>, asks: seq<PriceLevel>,
    bestBid: Option<real>, bestAsk: Option<real>, mid: Option<real>, spread: Option<real>)

  function FirstPrice(levels: seq<PriceLevel>): Option<real> {
    if levels == [] then None else Some(levels[0].price)
  }

  /** `OrderBookSnapshot::new`: the derived fields come from the first level of each side. */
  function NewSnapshot(key: InstrumentKey, bids: seq<PriceLevel>, asks: seq<PriceLevel>): OrderBookSnapshot {
    var bid, ask := FirstPrice(bids), FirstPrice(asks);
    var both := bid.Some? && ask.Some?;
    OrderBookSnapshot(key, bids, asks, bid, ask,
      if both then Some((bid.value + ask.value) / 2.0) else None,
      if both then Some(ask.value - bid.value) else None)
  }

  function Abs(x: real): real {
    if x < 0.0 then -x else x
  }
}
