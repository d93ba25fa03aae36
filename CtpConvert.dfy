/**
 * Converters between the broker gateway's (CTP) codes and the normalized types: the order
 * status and execution-type classifiers, the date and time parsers, the exchange decoder,
 * the order-entry builder, the market-data time stamps and the small code maps.
 */
module CtpConvert {

  import opened Wrappers
  import opened Strings
  import Ctp = CtpApi
  import opened XApi

  // ---------------------------------------------------------------------------------------
  // Response header and disconnect reasons

  /** A gateway reply succeeded when it carries no response header or a zero error id. */
  function CheckRspInfo(info: Option<Ctp.CtpRspInfo>): (ok: bool)
    ensures info.None? ==> ok
    ensures info.Some? ==> (ok <==> info.value.errorId == 0)
  {
    info.None? || info.value.errorId == 0
  }

  /** The six disconnect reasons the gateway names, and every other code kept as it is. */
  datatype ReasonMsg =
    | NetworkReadFailed | NetworkWriteFailed | HeartbeatTimeout
    | HeartbeatSendFailed | BadPacket | ServerDisconnected
    | UnknownError(reason: int)

  /** The message for a disconnect reason code (the text of each message is not modelled). */
  function GetReasonMsg(reason: int): (m: ReasonMsg)
    ensures m.UnknownError? <==> reason !in {0x1001, 0x1002, 0x2001, 0x2002, 0x2003, 0x2004}
  {
    match reason
    case 0x1001 => NetworkReadFailed
    case 0x1002 => NetworkWriteFailed
    case 0x2001 => HeartbeatTimeout
    case 0x2002 => HeartbeatSendFailed
    case 0x2003 => BadPacket
    case 0x2004 => ServerDisconnected
    case _ => UnknownError(reason)
  }

  /** The code each message states (every message text begins with its code). */
  function ReasonCode(m: ReasonMsg): int
  {
    match m
    case NetworkReadFailed => 0x1001
    case NetworkWriteFailed => 0x1002
    case HeartbeatTimeout => 0x2001
    case HeartbeatSendFailed => 0x2002
    case BadPacket => 0x2003
    case ServerDisconnected => 0x2004
    case UnknownError(r) => r
  }

  /** No two reason codes share a message: the code can be read back from every message. */
  lemma ReasonMsgNamesItsCode(reason: int)
    ensures ReasonCode(GetReasonMsg(reason)) == reason
  {
  }

  // ---------------------------------------------------------------------------------------
  // Small code maps

  /** Restart and Resume keep their meaning; every other resume mode asks for Quick. */
  function GetCtpResumeType(t: ResumeType): (r: Ctp.CtpResumeType)
    ensures r == Ctp.Restart <==> t == ResumeType.Restart
    ensures r == Ctp.Resume <==> t == ResumeType.Resume
    ensures r == Ctp.Quick <==> t != ResumeType.Restart && t != ResumeType.Resume
  {
    match t
    case Restart => Ctp.Restart
    case Resume => Ctp.Resume
    case _ => Ctp.Quick
  }

  /** Only a Long position direction is long; Net, Short and unnamed codes read as Short. */
  function GetPositionSide(dir: Ctp.CtpPosiDirection): (r: PositionSide)
    ensures r == PositionSide.Long <==> dir == Ctp.Long
  {
    if dir == Ctp.Long then PositionSide.Long else PositionSide.Short
  }

  /** Gateway hedge flag to normalized hedge flag; flags without a counterpart are Undefined. */
  function GetHedgeFlag(flag: Ctp.CtpHedgeFlag): (r: HedgeFlagType)
    ensures r == HedgeFlagType.Arbitrage <==> flag == Ctp.Arbitrage
    ensures r == HedgeFlagType.Hedge <==> flag == Ctp.Hedge
    ensures r == HedgeFlagType.Speculation <==> flag == Ctp.Speculation
    ensures r == HedgeFlagType.Undefined <==> flag !in {Ctp.Arbitrage, Ctp.Hedge, Ctp.Speculation}
  {
    match flag
    case Arbitrage => HedgeFlagType.Arbitrage
    case Hedge => HedgeFlagType.Hedge
    case Speculation => HedgeFlagType.Speculation
    case _ => HedgeFlagType.Undefined
  }

  /** Normalized hedge flag to gateway hedge flag; anything but Arbitrage and Hedge is Speculation. */
  function ToCtpHedgeFlag(flag: HedgeFlagType): (r: Ctp.CtpHedgeFlag)
    ensures r in {Ctp.Arbitrage, Ctp.Hedge, Ctp.Speculation}
    ensures r == Ctp.Arbitrage <==> flag == HedgeFlagType.Arbitrage
    ensures r == Ctp.Hedge <==> flag == HedgeFlagType.Hedge
  {
    match flag
    case Arbitrage => Ctp.Arbitrage
    case Hedge => Ctp.Hedge
    case _ => Ctp.Speculation
  }

  /** The two hedge-flag maps are inverse on the three flags both sides name. */
  lemma HedgeFlagRoundTrip(flag: HedgeFlagType, code: Ctp.CtpHedgeFlag)
    ensures flag != HedgeFlagType.Undefined ==> GetHedgeFlag(ToCtpHedgeFlag(flag)) == flag
    ensures flag == HedgeFlagType.Undefined ==> ToCtpHedgeFlag(flag) == Ctp.Speculation
    ensures code in {Ctp.Arbitrage, Ctp.Hedge, Ctp.Speculation} ==> ToCtpHedgeFlag(GetHedgeFlag(code)) == code
  {
  }

  /** Futures and EFP are futures, combinations multi-leg, options and spot options options; the rest stock. */
  function GetInstrumentType(productClass: Ctp.CtpProductClass): (r: InstrumentType)
    ensures r == Future <==> productClass in {Ctp.Futures, Ctp.EFP}
    ensures r == MultiLeg <==> productClass == Ctp.Combination
    ensures r == InstrumentType.Option <==> productClass in {Ctp.Options, Ctp.SpotOption}
  {
    match productClass
    case Futures | EFP => Future
    case Combination => MultiLeg
    case Options | SpotOption => InstrumentType.Option
    case _ => Stock
  }

  /** Only a call code is a call; put and unnamed codes read as Put. */
  function GetPutCall(optionsType: Ctp.CtpOptionsType): (r: PutCall)
    ensures r == Call <==> optionsType == Ctp.CallOptions
  {
    if optionsType == Ctp.CallOptions then Call else Put
  }

  /** Normalized open/close to gateway offset flag; anything but Close and CloseToday opens. */
  function GetOffsetFlag(openClose: OpenCloseType): (r: Ctp.CtpOffsetFlag)
    ensures r in {Ctp.Open, Ctp.Close, Ctp.CloseToday}
    ensures r == Ctp.Open <==> openClose != OpenCloseType.Close && openClose != OpenCloseType.CloseToday
  {
    match openClose
    case Close => Ctp.Close
    case CloseToday => Ctp.CloseToday
    case _ => Ctp.Open
  }

  /** Gateway offset flag to normalized open/close: both Close and CloseYesterday close. */
  function GetOpenClose(flag: Ctp.CtpOffsetFlag): (r: OpenCloseType)
    ensures r != OpenCloseType.Undefined
    ensures r == OpenCloseType.Close <==> flag in {Ctp.Close, Ctp.CloseYesterday}
    ensures r == OpenCloseType.CloseToday <==> flag == Ctp.CloseToday
  {
    match flag
    case Close | CloseYesterday => OpenCloseType.Close
    case CloseToday => OpenCloseType.CloseToday
    case _ => OpenCloseType.Open
  }

  /** The offset maps are inverse on Open, Close and CloseToday; an Undefined offset is sent as Open. */
  lemma OffsetFlagRoundTrip(openClose: OpenCloseType, flag: Ctp.CtpOffsetFlag)
    ensures openClose != OpenCloseType.Undefined ==> GetOpenClose(GetOffsetFlag(openClose)) == openClose
    ensures flag in {Ctp.Open, Ctp.Close, Ctp.CloseToday} ==> GetOffsetFlag(GetOpenClose(flag)) == flag
    ensures GetOffsetFlag(OpenCloseType.Undefined) == Ctp.Open
  {
  }

  /** Normalized side to gateway direction: Buy buys, every other side sells. */
  function GetCtpOrderSide(side: OrderSide): (r: Ctp.CtpDirection)
    ensures r == Ctp.Buy <==> side == OrderSide.Buy
    ensures r != Ctp.UnnamedDirection
  {
    if side == OrderSide.Buy then Ctp.Buy else Ctp.Sell
  }

  /** Gateway direction to normalized side: only the Buy code buys. */
  function GetOrderSide(direction: Ctp.CtpDirection): (r: OrderSide)
    ensures r == OrderSide.Buy <==> direction == Ctp.Buy
  {
    if direction == Ctp.Buy then OrderSide.Buy else OrderSide.Sell
  }

  /** A side survives the trip to the gateway and back. */
  lemma OrderSideRoundTrip(side: OrderSide, direction: Ctp.CtpDirection)
    ensures GetOrderSide(GetCtpOrderSide(side)) == side
    ensures direction != Ctp.UnnamedDirection ==> GetCtpOrderSide(GetOrderSide(direction)) == direction
  {
  }

  // ---------------------------------------------------------------------------------------
  // Order status and execution type

  /** The volume rule shared by all statuses that are not resolved by the status codes alone. */
  function VolumeStatus(volumeTotal: int, volumeTotalOriginal: int): (r: OrderStatus)
    ensures r in {OrderStatus.Filled, OrderStatus.New, OrderStatus.PartiallyFilled}
    ensures r == OrderStatus.Filled <==> volumeTotal == 0
    ensures r == OrderStatus.New <==> volumeTotal != 0 && volumeTotal == volumeTotalOriginal
  {
    if volumeTotal == 0 then OrderStatus.Filled
    else if volumeTotal == volumeTotalOriginal then OrderStatus.New
    else OrderStatus.PartiallyFilled
  }

  /** The normalized status of an order report. */
  function GetOrderStatus(data: Ctp.CtpOrder): (r: OrderStatus)
    // a cancel, and only a cancel, ends as Rejected or Cancelled; the submit status tells which
    ensures r in {OrderStatus.Rejected, OrderStatus.Cancelled} <==> data.orderStatus == Ctp.Canceled
    ensures r == OrderStatus.Rejected <==> data.orderStatus == Ctp.Canceled && data.orderSubmitStatus == Ctp.InsertRejected
    // a freshly submitted order of unknown status is New whatever its volumes say
    ensures data.orderStatus == Ctp.Unknown && data.orderSubmitStatus == Ctp.InsertSubmitted ==> r == OrderStatus.New
    // every other report is classified by its volumes alone
    ensures data.orderStatus != Ctp.Canceled && !(data.orderStatus == Ctp.Unknown && data.orderSubmitStatus == Ctp.InsertSubmitted)
      ==> r == VolumeStatus(data.volumeTotal, data.volumeTotalOriginal)
  {
    match data.orderStatus
    case Canceled =>
      if data.orderSubmitStatus == Ctp.InsertRejected then OrderStatus.Rejected else OrderStatus.Cancelled
    case Unknown =>
      if data.orderSubmitStatus == Ctp.InsertSubmitted then OrderStatus.New
      else VolumeStatus(data.volumeTotal, data.volumeTotalOriginal)
    case _ =>
      VolumeStatus(data.volumeTotal, data.volumeTotalOriginal)
  }

  /** The normalized execution type of an order report; volumes are never read. */
  function GetExecType(data: Ctp.CtpOrder): (r: ExecType)
    ensures r in {ExecType.Rejected, ExecType.Cancelled} <==> data.orderStatus == Ctp.Canceled
    ensures r == ExecType.Rejected <==> data.orderStatus == Ctp.Canceled && data.orderSubmitStatus == Ctp.InsertRejected
    ensures r == ExecType.Trade <==>
      (data.orderStatus == Ctp.Unknown && data.orderSubmitStatus != Ctp.InsertSubmitted)
      || data.orderStatus in {Ctp.AllTraded, Ctp.PartTradedQueueing}
  {
    match data.orderStatus
    case Canceled =>
      if data.orderSubmitStatus == Ctp.InsertRejected then ExecType.Rejected else ExecType.Cancelled
    case Unknown =>
      if data.orderSubmitStatus == Ctp.InsertSubmitted then ExecType.New else ExecType.Trade
    case AllTraded | PartTradedQueueing => ExecType.Trade
    case _ => ExecType.New
  }

  /** The two classifiers agree on every cancel: Rejected with Rejected, Cancelled with Cancelled,
      and a live order (New, PartiallyFilled or Filled) is reported as New or Trade. */
  lemma StatusAndExecTypeAgreeOnCancels(data: Ctp.CtpOrder)
    ensures GetOrderStatus(data) == OrderStatus.Rejected <==> GetExecType(data) == ExecType.Rejected
    ensures GetOrderStatus(data) == OrderStatus.Cancelled <==> GetExecType(data) == ExecType.Cancelled
    ensures GetOrderStatus(data) in {OrderStatus.New, OrderStatus.PartiallyFilled, OrderStatus.Filled}
      <==> GetExecType(data) in {ExecType.New, ExecType.Trade}
  {
  }

  /** The execution type depends on the two status codes only, never on the volumes. */
  lemma ExecTypeIgnoresVolumes(data: Ctp.CtpOrder, volumeTotal: int, volumeTotalOriginal: int)
    ensures GetExecType(data) == GetExecType(data.(volumeTotal := volumeTotal, volumeTotalOriginal := volumeTotalOriginal))
  {
  }

  /** The classifiers disagree on an Unknown report that was not freshly submitted: the
      status follows the volumes (New when nothing traded) while the execution type is Trade. */
  lemma UnknownStatusDivergence(submit: Ctp.CtpOrderSubmitStatus, volume: int)
    requires submit != Ctp.InsertSubmitted && volume != 0
    ensures GetOrderStatus(Ctp.CtpOrder(Ctp.Unknown, submit, volume, volume)) == OrderStatus.New
    ensures GetExecType(Ctp.CtpOrder(Ctp.Unknown, submit, volume, volume)) == ExecType.Trade
  {
  }

  /** A zero remaining volume reads as Filled even for an order whose original volume is zero. */
  lemma ZeroVolumeIsFilled(status: Ctp.CtpOrderStatus, submit: Ctp.CtpOrderSubmitStatus)
    requires status != Ctp.Canceled && !(status == Ctp.Unknown && submit == Ctp.InsertSubmitted)
    ensures GetOrderStatus(Ctp.CtpOrder(status, submit, 0, 0)) == OrderStatus.Filled
  {
  }

  /** The worked cases of the two decision tables. */
  lemma ClassifierExamples(submit: Ctp.CtpOrderSubmitStatus)
    requires submit != Ctp.InsertRejected && submit != Ctp.InsertSubmitted
    ensures var d := Ctp.CtpOrder(Ctp.Canceled, Ctp.InsertRejected, 5, 10);
      GetOrderStatus(d) == OrderStatus.Rejected && GetExecType(d) == ExecType.Rejected
    ensures var d := Ctp.CtpOrder(Ctp.Canceled, submit, 5, 10);
      GetOrderStatus(d) == OrderStatus.Cancelled && GetExecType(d) == ExecType.Cancelled
    ensures var d := Ctp.CtpOrder(Ctp.Unknown, Ctp.InsertSubmitted, 5, 10);
      GetOrderStatus(d) == OrderStatus.New && GetExecType(d) == ExecType.New
    ensures var d := Ctp.CtpOrder(Ctp.AllTraded, Ctp.Accepted, 0, 10);
      GetOrderStatus(d) == OrderStatus.Filled && GetExecType(d) == ExecType.Trade
    ensures var d := Ctp.CtpOrder(Ctp.PartTradedQueueing, Ctp.Accepted, 3, 10);
      GetOrderStatus(d) == OrderStatus.PartiallyFilled && GetExecType(d) == ExecType.Trade
  {
  }

  // ---------------------------------------------------------------------------------------
  // Dates and times

  /** The date given to a missing trading day: no earlier than any real date. */
  const NoDate: int := 99991231

  /** GetDate does not throw: the text is null, empty, or a number int.Parse accepts. */
  predicate DateParses(date: Option<string>)
  {
    IsNullOrEmpty(date) || ParsesAsInt(date.value)
  }

  /** A yyyyMMdd date as an integer; a null or empty date is NoDate. */
  function GetDate(date: Option<string>): (d: int)
    requires DateParses(date)
    ensures IsNullOrEmpty(date) ==> d == NoDate
    ensures !IsNullOrEmpty(date) ==> 0 <= d <= Int32Max
  {
    if IsNullOrEmpty(date) then NoDate else ParseInt(date.value)
  }

  /** The gateway's yyyyMMdd text of a date. */
  function DateText(year: nat, month: nat, day: nat): string
    requires year < 10000 && month < 100 && day < 100
  {
    Pad(year, 4) + Pad(month, 2) + Pad(day, 2)
  }

  lemma {:induction false} DigitsOfThreeFields(a: string, b: string, c: string, x: nat, y: nat, z: nat)
    requires AllDigits(a) && AllDigits(b) && AllDigits(c)
    requires DigitsValue(a) == x && DigitsValue(b) == y && DigitsValue(c) == z
    requires |b| == 2 && |c| == 2
    ensures AllDigits(a + b + c)
    ensures DigitsValue(a + b + c) == x * 10000 + y * 100 + z
  {
    DigitsValueAppend(a, b);
    DigitsValueAppend(a + b, c);
    assert Pow10(2) == 100;
  }

  /** Reading a date's text gives year * 10000 + month * 100 + day. */
  lemma {:induction false} DateRoundTrip(year: nat, month: nat, day: nat)
    requires year < 10000 && month < 100 && day < 100
    ensures DateParses(Some(DateText(year, month, day)))
    ensures GetDate(Some(DateText(year, month, day))) == year * 10000 + month * 100 + day
  {
    PadValue(year, 4);
    PadValue(month, 2);
    PadValue(day, 2);
    DigitsOfThreeFields(Pad(year, 4), Pad(month, 2), Pad(day, 2), year, month, day);
    ShortDigitsParse(DateText(year, month, day));
  }

  /** Any text of one to nine digits reads as the number it writes, zero-padded or not. */
  lemma DigitsDateRoundTrip(n: nat, w: nat)
    requires 1 <= w <= 9 && n < Pow10(w)
    ensures DateParses(Some(Pad(n, w)))
    ensures GetDate(Some(Pad(n, w))) == n
  {
    PadValue(n, w);
    ShortDigitsParse(Pad(n, w));
  }

  /** A missing date reads as no earlier than any calendar date that has a text. */
  lemma {:induction false} NoDateIsLatest(year: nat, month: nat, day: nat)
    requires year < 10000 && 1 <= month <= 12 && 1 <= day <= 31
    ensures DateParses(Some(DateText(year, month, day)))
    ensures GetDate(Some(DateText(year, month, day))) <= GetDate(None)
  {
    DateRoundTrip(year, month, day);
  }

  /** `time[1]` or `time[2]` is read beyond the end of the text (GetTime throws). */
  predicate ShortTextOutOfRange(time: string)
  {
    |time| <= 6 && (|time| < 2 || (time[1] != ':' && |time| < 3))
  }

  /** The colon-free form of at most six characters, read as one number. */
  predicate IsCompactTime(time: string)
  {
    3 <= |time| <= 6 && time[1] != ':' && time[2] != ':'
  }

  /** GetTime does not throw on this text. */
  predicate TimeParses(time: string)
  {
    if ShortTextOutOfRange(time) then false
    else if IsCompactTime(time) then ParsesAsInt(time)
    else if |time| == 8 then ParsesAsInt(time[0..2]) && ParsesAsInt(time[3..5]) && ParsesAsInt(time[6..8])
    else
      var item := Split(time, ':');
      |item| >= 3 && ParsesAsInt(item[0]) && ParsesAsInt(item[1]) && ParsesAsInt(item[2])
  }

  /** A time of day as the integer HHMMSS. The compact form is read whole; eight characters are
      read as HH?MM?SS whatever stands at positions 2 and 5; anything else is split at colons and
      its first three pieces combined with 32-bit wrap-around. */
  function GetTime(time: string): (t: int)
    requires TimeParses(time)
    ensures Int32Min <= t <= Int32Max
    ensures IsCompactTime(time) ==> 0 <= t < 1000000
    ensures !IsCompactTime(time) && |time| == 8 ==> 0 <= t <= 999999
  {
    if |time| <= 6 && time[1] != ':' && time[2] != ':' then
      DigitsValueBound(time);
      assert Pow10(|time|) <= 1000000 by { Pow10Monotone(|time|, 6); }
      ParseInt(time)
    else if |time| == 8 then
      DigitsValueBound(time[0..2]);
      DigitsValueBound(time[3..5]);
      DigitsValueBound(time[6..8]);
      ParseInt(time[0..2]) * 10000 + ParseInt(time[3..5]) * 100 + ParseInt(time[6..8])
    else
      var item := Split(time, ':');
      Wrap32(ParseInt(item[0]) * 10000 + ParseInt(item[1]) * 100 + ParseInt(item[2]))
  }

  /** The time as it is written with colons, "HH:MM:SS". */
  function TimeText(hours: nat, minutes: nat, seconds: nat): string
    requires hours < 100 && minutes < 100 && seconds < 100
  {
    Pad(hours, 2) + ":" + Pad(minutes, 2) + ":" + Pad(seconds, 2)
  }

  /** The time written without separators, with a one- or two-digit hour: "HMMSS" or "HHMMSS". */
  function CompactTimeText(hourWidth: nat, hours: nat, minutes: nat, seconds: nat): string
    requires (hourWidth == 1 || hourWidth == 2) && hours < Pow10(hourWidth)
    requires minutes < 100 && seconds < 100
  {
    Pad(hours, hourWidth) + Pad(minutes, 2) + Pad(seconds, 2)
  }

  /** The time with a one-digit hour, "H:MM:SS". */
  function ShortHourTimeText(hours: nat, minutes: nat, seconds: nat): string
    requires hours < 10 && minutes < 100 && seconds < 100
  {
    Pad(hours, 1) + ":" + Pad(minutes, 2) + ":" + Pad(seconds, 2)
  }

  lemma NoColonInDigits(s: string)
    requires AllDigits(s)
    ensures ':' !in s
  {
  }

  /** Any colon-free text of three to six digits reads as the number it writes, for instance
      "3000" as 3000 (00:30:00) and "500" as 500 (00:05:00). */
  lemma CompactDigitsRoundTrip(n: nat, w: nat)
    requires 3 <= w <= 6 && n < Pow10(w)
    ensures TimeParses(Pad(n, w))
    ensures GetTime(Pad(n, w)) == n
  {
    PadValue(n, w);
    ShortDigitsParse(Pad(n, w));
    assert IsDigit(Pad(n, w)[1]) && IsDigit(Pad(n, w)[2]);
  }

  /** "HH:MM:SS" reads as HH * 10000 + MM * 100 + SS. */
  lemma {:induction false} TimeTextRoundTrip(hours: nat, minutes: nat, seconds: nat)
    requires hours < 100 && minutes < 100 && seconds < 100
    ensures TimeParses(TimeText(hours, minutes, seconds))
    ensures GetTime(TimeText(hours, minutes, seconds)) == hours * 10000 + minutes * 100 + seconds
  {
    var s := TimeText(hours, minutes, seconds);
    assert s[0..2] == Pad(hours, 2) && s[3..5] == Pad(minutes, 2) && s[6..8] == Pad(seconds, 2);
    PadValue(hours, 2);
    PadValue(minutes, 2);
    PadValue(seconds, 2);
  }

  /** "HMMSS" and "HHMMSS" read as the same number as "HH:MM:SS". */
  lemma {:induction false} CompactTimeTextRoundTrip(hourWidth: nat, hours: nat, minutes: nat, seconds: nat)
    requires (hourWidth == 1 || hourWidth == 2) && hours < Pow10(hourWidth)
    requires minutes < 100 && seconds < 100
    ensures TimeParses(CompactTimeText(hourWidth, hours, minutes, seconds))
    ensures GetTime(CompactTimeText(hourWidth, hours, minutes, seconds)) == hours * 10000 + minutes * 100 + seconds
  {
    var s := CompactTimeText(hourWidth, hours, minutes, seconds);
    PadValue(hours, hourWidth);
    PadValue(minutes, 2);
    PadValue(seconds, 2);
    DigitsOfThreeFields(Pad(hours, hourWidth), Pad(minutes, 2), Pad(seconds, 2), hours, minutes, seconds);
    ShortDigitsParse(s);
    assert IsDigit(s[1]) && IsDigit(s[2]);
  }

  /** "H:MM:SS" reads as the same number as "HH:MM:SS". */
  lemma {:induction false} ShortHourTimeTextRoundTrip(hours: nat, minutes: nat, seconds: nat)
    requires hours < 10 && minutes < 100 && seconds < 100
    ensures TimeParses(ShortHourTimeText(hours, minutes, seconds))
    ensures GetTime(ShortHourTimeText(hours, minutes, seconds)) == hours * 10000 + minutes * 100 + seconds
  {
    var h, m, sec := Pad(hours, 1), Pad(minutes, 2), Pad(seconds, 2);
    var s := ShortHourTimeText(hours, minutes, seconds);
    assert [h, m, sec][1..] == [m, sec] && [m, sec][1..] == [sec];
    assert Join([m, sec], ':') == m + [':'] + sec;
    assert s == Join([h, m, sec], ':');
    NoColonInDigits(h);
    NoColonInDigits(m);
    NoColonInDigits(sec);
    SplitOfJoin([h, m, sec], ':');
    PadValue(hours, 1);
    PadValue(minutes, 2);
    PadValue(seconds, 2);
    assert s[1] == ':';
  }

  // ---------------------------------------------------------------------------------------
  // Exchange

  /** The exchange of an exchange id, decided by its second character alone. */
  function GetExchangeType(exchangeId: Option<string>): (r: ExchangeType)
    requires IsNullOrEmpty(exchangeId) || |exchangeId.value| >= 2
    ensures IsNullOrEmpty(exchangeId) ==> r == ExchangeType.Undefined
    ensures !IsNullOrEmpty(exchangeId) ==>
      && (r == SHFE <==> exchangeId.value[1] == 'H')
      && (r == DCE <==> exchangeId.value[1] == 'C')
      && (r == CZCE <==> exchangeId.value[1] == 'Z')
      && (r == CFFEX <==> exchangeId.value[1] == 'F')
      && (r == INE <==> exchangeId.value[1] == 'N')
  {
    if IsNullOrEmpty(exchangeId) then ExchangeType.Undefined
    else
      match exchangeId.value[1]
      case 'H' => SHFE
      case 'C' => DCE
      case 'Z' => CZCE
      case 'F' => CFFEX
      case 'N' => INE
      case _ => ExchangeType.Undefined
  }

  /** The gateway's id of each exchange. */
  function ExchangeId(exchange: ExchangeType): string
  {
    match exchange
    case Undefined => ""
    case SHFE => "SHFE"
    case DCE => "DCE"
    case CZCE => "CZCE"
    case CFFEX => "CFFEX"
    case INE => "INE"
  }

  /** Each exchange is recognised from its own id, and Undefined from the empty id. */
  lemma ExchangeIdRoundTrip(exchange: ExchangeType)
    ensures GetExchangeType(Some(ExchangeId(exchange))) == exchange
  {
  }

  /** Two ids with the same second character denote the same exchange. */
  lemma ExchangeTypeReadsSecondChar(a: string, b: string)
    requires |a| >= 2 && |b| >= 2 && a[1] == b[1]
    ensures GetExchangeType(Some(a)) == GetExchangeType(Some(b))
  {
  }

  // ---------------------------------------------------------------------------------------
  // Order entry

  /** Market, Stop, MarketOnClose and TrailingStop orders are sent at any price. */
  predicate IsMarketLike(orderType: OrderType)
  {
    orderType in {Market, Stop, MarketOnClose, TrailingStop}
  }

  function OrderPriceTypeFor(orderType: OrderType): (r: Ctp.CtpOrderPriceType)
    ensures r == Ctp.AnyPrice <==> IsMarketLike(orderType)
    ensures r == Ctp.LimitPrice <==> !IsMarketLike(orderType)
  {
    if IsMarketLike(orderType) then Ctp.AnyPrice else Ctp.LimitPrice
  }

  /** The time condition after both decisions: immediate-or-cancel unless a limit-like order
      is sent with a time in force other than IOC and FOK, which is good for the day. */
  function TimeConditionFor(orderType: OrderType, tif: TimeInForce): (r: Ctp.CtpTimeCondition)
    ensures r in {Ctp.IOC, Ctp.GFD}
    ensures r == Ctp.GFD <==> !IsMarketLike(orderType) && tif != TimeInForce.IOC && tif != FOK
  {
    if IsMarketLike(orderType) || tif == TimeInForce.IOC || tif == FOK then Ctp.IOC else Ctp.GFD
  }

  /** Only fill-or-kill asks for the complete volume; everything else accepts any volume. */
  function VolumeConditionFor(tif: TimeInForce): (r: Ctp.CtpVolumeCondition)
    ensures r in {Ctp.AV, Ctp.CV}
    ensures r == Ctp.CV <==> tif == FOK
  {
    if tif == FOK then Ctp.CV else Ctp.AV
  }

  /** The order-entry request for a client order, built field by field; the time-in-force
      decision overwrites the time condition chosen from the order type. */
  method GetCtpOrder(order: OrderField) returns (data: Ctp.CtpInputOrder)
    ensures data.instrumentId == order.instrumentId
    ensures data.direction == GetCtpOrderSide(order.side)
    ensures data.combOffsetFlag == GetOffsetFlag(order.openClose)
    ensures data.combHedgeFlag == ToCtpHedgeFlag(order.hedgeFlag)
    ensures data.orderPriceType == OrderPriceTypeFor(order.orderType)
    ensures data.limitPrice == if IsMarketLike(order.orderType) then 0.0 else order.price
    ensures data.timeCondition == TimeConditionFor(order.orderType, order.timeInForce)
    ensures data.volumeCondition == VolumeConditionFor(order.timeInForce)
    ensures data.contingentCondition == Ctp.Immediately && data.minVolume == 1
    ensures data.forceCloseReason == Ctp.NotForceClose
    ensures data.isAutoSuspend == 0 && data.userForceClose == 0 && data.isSwapOrder == 0
  {
    var direction := GetCtpOrderSide(order.side);
    var offset := GetOffsetFlag(order.openClose);
    var hedge := ToCtpHedgeFlag(order.hedgeFlag);
    var limitPrice := order.price;
    var priceType: Ctp.CtpOrderPriceType;
    var timeCondition: Ctp.CtpTimeCondition;
    var volumeCondition: Ctp.CtpVolumeCondition;
    match order.orderType {
      case Market | Stop | MarketOnClose | TrailingStop =>
        priceType := Ctp.AnyPrice;
        timeCondition := Ctp.IOC;
        limitPrice := 0.0;
      case _ =>
        priceType := Ctp.LimitPrice;
        timeCondition := Ctp.GFD;
    }
    match order.timeInForce {
      case IOC =>
        timeCondition := Ctp.IOC;
        volumeCondition := Ctp.AV;
      case FOK =>
        timeCondition := Ctp.IOC;
        volumeCondition := Ctp.CV;
      case _ =>
        volumeCondition := Ctp.AV;
    }
    data := Ctp.CtpInputOrder(
      order.instrumentId, direction, offset, hedge, limitPrice,
      priceType, timeCondition, volumeCondition,
      Ctp.Immediately, 1, Ctp.NotForceClose, 0, 0, 0);
  }

  /** An order sent at any price never rests in the book: whatever its time in force, it is
      immediate-or-cancel; only limit orders are ever good for the day. */
  lemma AnyPriceOrdersNeverRest(orderType: OrderType, tif: TimeInForce)
    ensures OrderPriceTypeFor(orderType) == Ctp.AnyPrice ==> TimeConditionFor(orderType, tif) == Ctp.IOC
    ensures TimeConditionFor(orderType, tif) == Ctp.GFD ==> OrderPriceTypeFor(orderType) == Ctp.LimitPrice
  {
  }

  // ---------------------------------------------------------------------------------------
  // Market-data time stamps

  /** The local clock at the moment of conversion: the hour, and the local date of yesterday,
      today and tomorrow as yyyyMMdd (the calendar arithmetic itself is not modelled). */
  datatype LocalClock = LocalClock(hour: int, yesterday: int, today: int, tomorrow: int)
  {
    function DayAt(offset: int): int
    {
      if offset == -1 then yesterday else if offset == 1 then tomorrow else today
    }
  }

  /** The day shift between the local clock and an exchange time HHMMSS near midnight. */
  function ActionDayOffset(updateTime: int, hour: int): (offset: int)
    ensures offset == -1 <==> updateTime > 230000 && hour < 1
    ensures offset == 1 <==> updateTime < 10000 && hour == 23
    ensures offset == 0 <==> !(updateTime > 230000 && hour < 1) && !(updateTime < 10000 && hour == 23)
  {
    if updateTime > 230000 && hour < 1 then -1
    else if updateTime < 10000 && hour == 23 then 1
    else 0
  }

  /** The action day derived from the local clock when the gateway does not supply one. */
  function GetActionDay(updateTime: int, clock: LocalClock): (day: int)
    ensures day in {clock.yesterday, clock.today, clock.tomorrow}
    // away from midnight, on either clock, the local date is taken as it is
    ensures 10000 <= updateTime <= 230000 ==> day == clock.today
    ensures 1 <= clock.hour <= 22 ==> day == clock.today
    // with three consecutive dates: a late exchange time seen just after local midnight, and
    // only that, is moved to yesterday; an early one seen in the last local hour, to tomorrow
    ensures clock.yesterday < clock.today < clock.tomorrow ==>
      (day == clock.yesterday <==> updateTime > 230000 && clock.hour < 1)
      && (day == clock.tomorrow <==> updateTime < 10000 && clock.hour == 23)
  {
    clock.DayAt(ActionDayOffset(updateTime, clock.hour))
  }

  /** HHMMSS of a time of day given in seconds. */
  function SecondsToHhmmss(seconds: int): int
    requires 0 <= seconds < 86400
  {
    (seconds / 3600) * 10000 + (seconds % 3600 / 60) * 100 + seconds % 60
  }

  lemma HhmmssBounds(seconds: int)
    requires 0 <= seconds < 86400
    ensures SecondsToHhmmss(seconds) > 230000 <==> seconds > 82800
    ensures SecondsToHhmmss(seconds) < 10000 <==> seconds < 3600
  {
    var h, rest := seconds / 3600, seconds % 3600;
    var mmss := (rest / 60) * 100 + rest % 60;
    assert 0 <= mmss <= 5959;
    assert SecondsToHhmmss(seconds) == h * 10000 + mmss;
    assert seconds == h * 3600 + rest;
  }

  /** The offset rule is right whenever the exchange stamp and the local clock are less than an
      hour apart: an exchange time `seconds` (of the day `dayShift` days from the local date)
      within an hour of the local time `localSeconds` gets exactly that day shift. */
  lemma {:induction false} ActionDayOffsetIsDayShift(dayShift: int, seconds: int, localSeconds: int)
    requires dayShift in {-1, 0, 1}
    requires 0 <= seconds < 86400 && 0 <= localSeconds < 86400
    requires -3600 < dayShift * 86400 + seconds - localSeconds < 3600
    ensures ActionDayOffset(SecondsToHhmmss(seconds), localSeconds / 3600) == dayShift
  {
    HhmmssBounds(seconds);
  }

  /** The exchange's own action day is used when it has eight characters. */
  predicate FeedActionDayUsable(actionDay: Option<string>)
  {
    !IsNullOrEmpty(actionDay) && |actionDay.value| == 8
  }

  /** The three time texts of a snapshot parse (otherwise the converters throw). */
  predicate MarketTimesParse(data: Ctp.CtpDepthMarketData)
  {
    DateParses(data.tradingDay)
    && TimeParses(data.updateTime)
    && (FeedActionDayUsable(data.actionDay) ==> DateParses(data.actionDay))
  }

  /** The action day SetExchangeTime records for a parsed update time. */
  function ExchangeActionDay(data: Ctp.CtpDepthMarketData, updateTime: int, clock: LocalClock): (day: int)
    requires FeedActionDayUsable(data.actionDay) ==> DateParses(data.actionDay)
    ensures FeedActionDayUsable(data.actionDay) ==> day == GetDate(data.actionDay)
    ensures !FeedActionDayUsable(data.actionDay) ==> day == GetActionDay(updateTime, clock)
  {
    if FeedActionDayUsable(data.actionDay) then GetDate(data.actionDay) else GetActionDay(updateTime, clock)
  }

  /** The Dalian exchange's supplied action day is trusted only strictly between 06:00:00 and 18:00:00. */
  predicate InDceDaySession(updateTime: int)
  {
    60000 < updateTime < 180000
  }

  /** The three time texts of a Dalian snapshot parse as far as SetDceExchangeTime reads them:
      the supplied action day is parsed only during the day session. */
  predicate DceMarketTimesParse(data: Ctp.CtpDepthMarketData)
  {
    DateParses(data.tradingDay)
    && TimeParses(data.updateTime)
    && (FeedActionDayUsable(data.actionDay) && InDceDaySession(GetTime(data.updateTime)) ==> DateParses(data.actionDay))
  }

  /** The action day SetDceExchangeTime records for a parsed update time. */
  function DceActionDay(data: Ctp.CtpDepthMarketData, updateTime: int, clock: LocalClock): (day: int)
    requires FeedActionDayUsable(data.actionDay) && InDceDaySession(updateTime) ==> DateParses(data.actionDay)
    ensures FeedActionDayUsable(data.actionDay) && InDceDaySession(updateTime) ==> day == GetDate(data.actionDay)
    ensures !(FeedActionDayUsable(data.actionDay) && InDceDaySession(updateTime)) ==> day == GetActionDay(updateTime, clock)
  {
    if FeedActionDayUsable(data.actionDay) && InDceDaySession(updateTime) then GetDate(data.actionDay)
    else GetActionDay(updateTime, clock)
  }

  /** During the Dalian day session the Dalian rule and the general rule give the same day;
      outside it, the Dalian rule gives the clock's day whatever the exchange supplied. */
  lemma DceRuleRefinesGeneralRule(data: Ctp.CtpDepthMarketData, updateTime: int, clock: LocalClock)
    requires FeedActionDayUsable(data.actionDay) ==> DateParses(data.actionDay)
    ensures InDceDaySession(updateTime) ==> DceActionDay(data, updateTime, clock) == ExchangeActionDay(data, updateTime, clock)
    ensures !InDceDaySession(updateTime) ==> DceActionDay(data, updateTime, clock) == GetActionDay(updateTime, clock)
  {
  }

  /** Fill in the time stamps of a market-data record. */
  method SetExchangeTime(data: Ctp.CtpDepthMarketData, market: DepthMarketDataField, clock: LocalClock)
    requires MarketTimesParse(data)
    modifies market
    ensures market.tradingDay == GetDate(data.tradingDay)
    ensures market.updateTime == GetTime(data.updateTime)
    ensures market.updateMillisec == data.updateMillisec
    ensures market.actionDay == ExchangeActionDay(data, market.updateTime, clock)
  {
    market.tradingDay := GetDate(data.tradingDay);
    market.updateTime := GetTime(data.updateTime);
    market.updateMillisec := data.updateMillisec;
    if !IsNullOrEmpty(data.actionDay) && |data.actionDay.value| == 8 {
      market.actionDay := GetDate(data.actionDay);
    } else {
      market.actionDay := GetActionDay(market.updateTime, clock);
    }
  }

  /** The Zhengzhou exchange uses the general rule. */
  method SetCzceExchangeTime(data: Ctp.CtpDepthMarketData, market: DepthMarketDataField, clock: LocalClock)
    requires MarketTimesParse(data)
    modifies market
    ensures market.tradingDay == GetDate(data.tradingDay)
    ensures market.updateTime == GetTime(data.updateTime)
    ensures market.updateMillisec == data.updateMillisec
    ensures market.actionDay == ExchangeActionDay(data, market.updateTime, clock)
  {
    SetExchangeTime(data, market, clock);
  }

  /** Fill in the time stamps of a Dalian market-data record. */
  method SetDceExchangeTime(data: Ctp.CtpDepthMarketData, market: DepthMarketDataField, clock: LocalClock)
    requires DceMarketTimesParse(data)
    modifies market
    ensures market.tradingDay == GetDate(data.tradingDay)
    ensures market.updateTime == GetTime(data.updateTime)
    ensures market.updateMillisec == data.updateMillisec
    ensures market.actionDay == DceActionDay(data, market.updateTime, clock)
  {
    market.tradingDay := GetDate(data.tradingDay);
    market.updateTime := GetTime(data.updateTime);
    market.updateMillisec := data.updateMillisec;
    if !IsNullOrEmpty(data.actionDay) && |data.actionDay.value| == 8
      && market.updateTime > 60000 && market.updateTime < 180000
    {
      market.actionDay := GetDate(data.actionDay);
    } else {
      market.actionDay := GetActionDay(market.updateTime, clock);
    }
  }
}
