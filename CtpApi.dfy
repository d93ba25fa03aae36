/**
 * The broker gateway's (CTP) native codes and records, as far as the converters read or
 * write them. The SDK encodes each code as a byte constant; here every named constant is
 * a constructor, and each code type that the converters receive from the gateway has one
 * more constructor standing for every byte the SDK does not name, so that the `default`
 * branches of the converters are reachable in the model as they are in the source.
 */
module CtpApi {

  import opened Wrappers

  datatype CtpOrderStatus =
    | AllTraded | PartTradedQueueing | PartTradedNotQueueing
    | NoTradeQueueing | NoTradeNotQueueing | Canceled
    | Unknown | NotTouched | Touched
    | UnnamedOrderStatus

  datatype CtpOrderSubmitStatus =
    | InsertSubmitted | CancelSubmitted | ModifySubmitted | Accepted
    | InsertRejected | CancelRejected | ModifyRejected
    | UnnamedSubmitStatus

  datatype CtpPosiDirection = Net | Long | Short | UnnamedPosiDirection

  datatype CtpHedgeFlag = Speculation | Arbitrage | Hedge | Covered | MarketMaker | UnnamedHedgeFlag

  datatype CtpProductClass = Futures | Options | Combination | Spot | EFP | SpotOption | UnnamedProductClass

  datatype CtpOptionsType = CallOptions | PutOptions | UnnamedOptionsType

  datatype CtpOffsetFlag =
    | Open | Close | ForceClose | CloseToday | CloseYesterday | ForceOff | LocalForceClose
    | UnnamedOffsetFlag

  datatype CtpDirection = Buy | Sell | UnnamedDirection

  datatype CtpOrderPriceType = AnyPrice | LimitPrice | BestPrice | LastPrice

  datatype CtpTimeCondition = IOC | GFS | GFD | GTD | GTC | GFA

  datatype CtpVolumeCondition = AV | MV | CV

  datatype CtpContingentCondition = Immediately | Touch | TouchProfit | ParkedOrder

  datatype CtpForceCloseReason = NotForceClose | LackDeposit | ClientOverPositionLimit | Other

  datatype CtpResumeType = Restart | Resume | Quick

  /** The response header of every gateway reply; a null header means success. */
  datatype CtpRspInfo = CtpRspInfo(errorId: int, errorMsg: string)

  /** The status part of an order report. */
  datatype CtpOrder = CtpOrder(
    orderStatus: CtpOrderStatus,
    orderSubmitStatus: CtpOrderSubmitStatus,
    volumeTotal: int,
    volumeTotalOriginal: int)

  /** The order-entry request built from a client order (order reference, volume and stop price left out). */
  datatype CtpInputOrder = CtpInputOrder(
    instrumentId: string,
    direction: CtpDirection,
    combOffsetFlag: CtpOffsetFlag,
    combHedgeFlag: CtpHedgeFlag,
    limitPrice: real,
    orderPriceType: CtpOrderPriceType,
    timeCondition: CtpTimeCondition,
    volumeCondition: CtpVolumeCondition,
    contingentCondition: CtpContingentCondition,
    minVolume: int,
    forceCloseReason: CtpForceCloseReason,
    isAutoSuspend: int,
    userForceClose: int,
    isSwapOrder: int)

  /** The time stamps of a market-data snapshot, as text; the two day fields may be null. */
  datatype CtpDepthMarketData = CtpDepthMarketData(
    tradingDay: Option<string>,
    updateTime: string,
    updateMillisec: int,
    actionDay: Option<string>)
}
