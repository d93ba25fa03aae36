/**
 * The normalized, broker-independent types the converters produce and consume. Each
 * enumeration lists the members the converters name; where a converter's `default`
 * branch receives one of these types, the members that reach it are listed too.
 */
module XApi {

  /** Normalized order status; only the members the status classifier produces. */
  datatype OrderStatus = New | PartiallyFilled | Filled | Cancelled | Rejected

  /** Normalized execution-report type; only the members the classifier produces. */
  datatype ExecType = New | Trade | Cancelled | Rejected

  datatype ExchangeType = Undefined | SHFE | DCE | CZCE | CFFEX | INE

  datatype PositionSide = Long | Short

  datatype HedgeFlagType = Speculation | Arbitrage | Hedge | Undefined

  datatype InstrumentType = Stock | Future | Option | MultiLeg

  datatype PutCall = Put | Call

  datatype OpenCloseType = Undefined | Open | Close | CloseToday

  datatype OrderSide = Buy | Sell

  datatype OrderType = Market | Limit | Stop | StopLimit | MarketOnClose | Pegged | TrailingStop | TrailingStopLimit

  datatype TimeInForce = Day | GTC | IOC | FOK | GTD | ATC | OPG

  datatype ResumeType = Restart | Resume | Quick | Undefined

  /** The client order fields the order-entry converter reads (quantity and stop price left out). */
  datatype OrderField = OrderField(
    instrumentId: string,
    side: OrderSide,
    openClose: OpenCloseType,
    hedgeFlag: HedgeFlagType,
    price: real,
    orderType: OrderType,
    timeInForce: TimeInForce)

  /** The time stamps of a normalized market-data record, filled in place by the converters. */
  class DepthMarketDataField {
    var tradingDay: int
    var updateTime: int
    var updateMillisec: int
    var actionDay: int
  }
}
