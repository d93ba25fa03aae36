# XProvider timed task and CTP converters in Dafny

This project models two parts of the QuantBox XProvider trading adapter.

- **The provider's timed task** (`XProvider.TimedTask`, in `XProvider.dfy`). A 500 ms timer tick
  does two things:
  - It refreshes account and position data through two pending-query flags. A budget of two
    queries limits them, and the budget is re-armed only when it is exactly zero and the
    configured interval has passed.
  - It asks the connection manager to reconnect or disconnect, following the configured trading
    sessions.

  A re-entrancy guard (`Interlocked.Exchange` on an int) drops a tick that overlaps a running
  one. The task is a Dafny class with the same fields. Each method is proved against a
  specification function:
  - `DataQueryStep` for the query step, and `AutoConnectPosts` for the connect step.
  - Lemmas over whole runs of ticks (`RunQueries`) state how the budget behaves.
- **The CTP converters** (`CtpConvert`, in `CtpConvert.dfy`). These are pure maps between the
  broker gateway's codes and the normalized XApi types:
  - the order-status and execution-type classifiers;
  - `GetDate` / `GetTime` on the gateway's text time stamps;
  - the exchange decoder;
  - the order-entry builder;
  - the action-day rule for market data;
  - the small code maps, each paired with its inverse where one exists.

Supporting modules:
- `Wrappers`: `Option`, standing for a nullable string.
- `Strings`: `int.Parse` on digit strings, `string.Split` on one character, zero-padded
  formatting used to state round trips, and 32-bit wrap-around.
- `CtpApi`: the gateway's codes and records.
- `XApi`: the normalized types.

Time is a parameter. `now` is the local clock in milliseconds since the start of the calendar,
and the time of day is `now % 86400000`. The interval test `TotalSeconds > interval` is stated
exactly on milliseconds as `now - lastTime > interval * 1000`. The provider is a snapshot
(`ProviderState`) of the fields the task reads. Each query and each post to the connection
manager is appended to the task's `log`.

The code issues the position query before the account query
(`QuantBox/XProvider.TimedTask.cs:86-95`), and so does the model. The budget can reach -1 (see
Findings). The class `TimedTask` keeps the code's behaviour, and `GuardedDataQueryStep` is the
intended throttle, proved beside it.

A run of ticks (`RunQueries`) also carries the provider's callbacks. Before each tick they may
request an account or a position query, as `SetEnableQueryAccount` and `SetEnableQueryPosition`
do. So a flag can fire again within one arming of the budget.

## Model

| member | source | states |
|---|---|---|
| XProvider.TimeOfDay | QuantBox/XProvider.TimedTask.cs:20 | the time of day lies within one day |
| XProvider.SessionBoundsInclusive | QuantBox/XProvider.TimedTask.cs:21-26 | both ends of a session belong to it; with no sessions, no time is in session |
| XProvider.AutoConnectPosts | QuantBox/XProvider.TimedTask.cs:50-66 | at most one post; none without sessions; a reconnect exactly when in session and disconnected; a disconnect exactly when sessions exist, the time is out of session and the provider is connected |
| XProvider.AutoConnectFollowsSession | QuantBox/XProvider.TimedTask.cs:50-66 | with sessions configured, the posts request "connected exactly while in session"; once that state holds, nothing more is posted |
| XProvider.DataQueryStep | QuantBox/XProvider.TimedTask.cs:68-96 | closed gate: nothing changes. A pending query goes out iff the gate is open and the armed budget is at least one. Position goes before account. Each flag is cleared only by its own query. Each query costs one unit of the armed budget. The range -1..2 is preserved |
| XProvider.GuardedDataQueryStep | QuantBox/XProvider.TimedTask.cs:75-95 | the corrected step, with the budget tested before each query. A pending position query goes out iff the gate is open and the armed budget is at least one. A pending account query goes out iff the budget left after the position query is at least one. Flags and budget are accounted as in the code's step, and the budget stays within 0..2 |
| XProvider.GuardedAgreesUnlessOverdrawn | QuantBox/XProvider.TimedTask.cs:82-95 | whenever the code's step leaves a budget of zero or more, the corrected step does exactly the same; the two differ only where the code overdraws |
| XProvider.BudgetAccounting | QuantBox/XProvider.TimedTask.cs:75-95 | over any run of ticks, the queries issued plus the budget left equal the starting budget plus two per re-arming |
| XProvider.RunKeepsBudgetRange | QuantBox/XProvider.TimedTask.cs:75-95 | over any run, the budget stays within -1..2 as written and within 0..2 when guarded |
| XProvider.QueriesPerArming | QuantBox/XProvider.TimedTask.cs:75-95 | over one arming's worth of budget (a full budget with no re-arming, as after `Start`, or an empty budget re-armed once by the interval), however often the callbacks request queries, the code issues at most three queries and the guarded step at most two |
| XProvider.NegativeBudgetIsSticky | QuantBox/XProvider.TimedTask.cs:75-84 | once the budget is negative, no later tick issues a query, re-arms, or changes the budget or the arming time, whatever the callbacks request, because re-arming asks for exactly zero |
| XProvider.BudgetOverrunLocksOut | QuantBox/XProvider.TimedTask.cs:75-95 | a task just started as an execution provider (budget 2, account query pending) sends the account query in one tick. The callbacks then request both queries, and the next tick sends both. That is three queries in one arming, with no re-arming, and the budget ends at -1; no later run issues a query or re-arms |
| XProvider.GuardedBudgetRearms | QuantBox/XProvider.TimedTask.cs:75-84 | the guarded task re-arms an exhausted budget at the first tick after the interval, and then issues a pending query |
| XProvider.TimedTask.constructor | QuantBox/XProvider.TimedTask.cs:29-34 | a new task has its timer stopped, no guard held, an empty log and default fields |
| XProvider.TimedTask.InTradingSession | QuantBox/XProvider.TimedTask.cs:18-27 | the loop over the sessions returns true iff some session contains the time of day, both ends included |
| XProvider.TimedTask.ExchangeInTimer | QuantBox/XProvider.TimedTask.cs:38-46 | returns the previous guard value and stores the new one in one step |
| XProvider.TimedTask.AutoConnect | QuantBox/XProvider.TimedTask.cs:50-66 | appends exactly the posts `AutoConnectPosts` prescribes for the time of day to the log |
| XProvider.TimedTask.DataQuery | QuantBox/XProvider.TimedTask.cs:68-96 | the fields and the log become those `DataQueryStep` prescribes; the budget stays within -1..2 |
| XProvider.TimedTask.TimerOnElapsed | QuantBox/XProvider.TimedTask.cs:36-48 | with the guard held, nothing changes; otherwise the query step and then the connect step are applied, and the guard is released |
| XProvider.TimedTask.Start | QuantBox/XProvider.TimedTask.cs:101-116 | a no-op while the timer runs; otherwise the budget is 2 at `now`, the account query is pending iff the provider executes orders, the position query is not pending, and the timer runs |
| XProvider.TimedTask.Stop | QuantBox/XProvider.TimedTask.cs:118-121 | the timer is stopped and nothing else changes |
| XProvider.TimedTask.SetEnableQueryAccount | QuantBox/XProvider.TimedTask.cs:98 | sets only the account-query flag |
| XProvider.TimedTask.SetEnableQueryPosition | QuantBox/XProvider.TimedTask.cs:99 | sets only the position-query flag |
| CtpConvert.CheckRspInfo | SfitCtp/CtpConvert.cs:17-20 | a reply succeeds iff its header is missing or its error id is zero |
| CtpConvert.GetReasonMsg | SfitCtp/CtpConvert.cs:22-40 | the six named disconnect codes get their own message; every other code is an unknown error |
| CtpConvert.ReasonMsgNamesItsCode | SfitCtp/CtpConvert.cs:22-40 | the code can be read back from every message, so no two codes share one |
| CtpConvert.GetCtpResumeType | SfitCtp/CtpConvert.cs:42-52 | Restart and Resume map to themselves; every other mode maps to Quick |
| CtpConvert.GetPositionSide | SfitCtp/CtpConvert.cs:94-100 | Long iff the direction code is Long; Net and the rest read as Short |
| CtpConvert.GetHedgeFlag | SfitCtp/CtpConvert.cs:102-113 | Arbitrage, Hedge and Speculation each map to the normalized flag of the same name and only from it; every other code is Undefined |
| CtpConvert.ToCtpHedgeFlag | SfitCtp/CtpConvert.cs:241-251 | Arbitrage is sent iff the flag is Arbitrage, Hedge iff it is Hedge; every other flag is sent as Speculation |
| CtpConvert.HedgeFlagRoundTrip | SfitCtp/CtpConvert.cs:241-251 | the incoming and outgoing hedge maps are inverse on the three shared flags; Undefined is sent as Speculation |
| CtpConvert.GetInstrumentType | SfitCtp/CtpConvert.cs:178-191 | Future iff Futures or EFP; MultiLeg iff Combination; Option iff Options or SpotOption; otherwise Stock |
| CtpConvert.GetPutCall | SfitCtp/CtpConvert.cs:170-176 | Call iff the code is CallOptions |
| CtpConvert.GetOffsetFlag | SfitCtp/CtpConvert.cs:253-262 | the outgoing offset is always Open, Close or CloseToday; Open iff the input is neither Close nor CloseToday |
| CtpConvert.GetOpenClose | SfitCtp/CtpConvert.cs:380-391 | never Undefined; Close iff Close or CloseYesterday; CloseToday iff CloseToday |
| CtpConvert.OffsetFlagRoundTrip | SfitCtp/CtpConvert.cs:380-391 | the offset maps are inverse on Open, Close and CloseToday; Undefined is sent as Open |
| CtpConvert.GetCtpOrderSide | SfitCtp/CtpConvert.cs:264-270 | Buy iff the side is Buy; the direction is always a named code |
| CtpConvert.GetOrderSide | SfitCtp/CtpConvert.cs:393-399 | Buy iff the direction code is Buy |
| CtpConvert.OrderSideRoundTrip | SfitCtp/CtpConvert.cs:393-399 | a side survives the trip to the gateway and back, and so does a named direction |
| CtpConvert.VolumeStatus | SfitCtp/CtpConvert.cs:160-166 | Filled iff nothing remains; New iff something remains and nothing traded; otherwise PartiallyFilled |
| CtpConvert.GetOrderStatus | SfitCtp/CtpConvert.cs:147-168 | Rejected or Cancelled iff the status is Canceled, Rejected iff the insert was rejected too; Unknown with InsertSubmitted is New; every other report is decided by its volumes |
| CtpConvert.GetExecType | SfitCtp/CtpConvert.cs:272-290 | Rejected or Cancelled iff Canceled, as for the status; Trade iff AllTraded, PartTradedQueueing, or Unknown not freshly submitted |
| CtpConvert.StatusAndExecTypeAgreeOnCancels | SfitCtp/CtpConvert.cs:272-290 | the two classifiers agree on Rejected and on Cancelled, and a live status always goes with New or Trade |
| CtpConvert.ExecTypeIgnoresVolumes | SfitCtp/CtpConvert.cs:272-290 | the execution type depends on the two status codes only |
| CtpConvert.UnknownStatusDivergence | SfitCtp/CtpConvert.cs:155-159 | an Unknown report that was not freshly submitted, with nothing traded, is New by status but Trade by execution type |
| CtpConvert.ZeroVolumeIsFilled | SfitCtp/CtpConvert.cs:160-162 | a zero remaining volume reads as Filled, even with a zero original volume |
| CtpConvert.ClassifierExamples | SfitCtp/CtpConvert.cs:147-168 | worked rows of both decision tables |
| CtpConvert.GetDate | SfitCtp/CtpConvert.cs:54-57 | a null or empty date is 99991231; any other date is a non-negative 32-bit int (its value is stated by DateRoundTrip and DigitsDateRoundTrip) |
| CtpConvert.DateRoundTrip | SfitCtp/CtpConvert.cs:54-57 | the text yyyyMMdd of a date reads as year*10000 + month*100 + day |
| CtpConvert.DigitsDateRoundTrip | SfitCtp/CtpConvert.cs:54-57 | any text of one to nine digits, zero-padded or not, reads as the number it writes |
| CtpConvert.NoDateIsLatest | SfitCtp/CtpConvert.cs:56 | a missing date reads as no earlier than any calendar date (9999-12-31 reads as the same number) |
| CtpConvert.GetTime | SfitCtp/CtpConvert.cs:59-75 | the result is a 32-bit int; the compact form reads below 1000000; the eight-character form reads at most 999999 |
| CtpConvert.CompactTimeTextRoundTrip | SfitCtp/CtpConvert.cs:61-65 | "HMMSS" and "HHMMSS" read as H*10000 + MM*100 + SS |
| CtpConvert.CompactDigitsRoundTrip | SfitCtp/CtpConvert.cs:61-63 | any colon-free digit text of three to six characters ("3000" for 00:30:00) reads as its decimal value |
| CtpConvert.TimeTextRoundTrip | SfitCtp/CtpConvert.cs:66-70 | "HH:MM:SS" reads as HH*10000 + MM*100 + SS |
| CtpConvert.ShortHourTimeTextRoundTrip | SfitCtp/CtpConvert.cs:71-74 | "H:MM:SS", read through the split path, gives the same number |
| CtpConvert.GetExchangeType | SfitCtp/CtpConvert.cs:292-311 | a null or empty id is Undefined; otherwise SHFE, DCE, CZCE, CFFEX or INE exactly when the second character is H, C, Z, F or N, and Undefined for any other character |
| CtpConvert.ExchangeIdRoundTrip | SfitCtp/CtpConvert.cs:292-311 | each exchange is recognized from its own id |
| CtpConvert.ExchangeTypeReadsSecondChar | SfitCtp/CtpConvert.cs:297-310 | two ids with the same second character give the same exchange |
| CtpConvert.OrderPriceTypeFor | SfitCtp/CtpConvert.cs:205-218 | AnyPrice iff the order is Market, Stop, MarketOnClose or TrailingStop; otherwise LimitPrice |
| CtpConvert.TimeConditionFor | SfitCtp/CtpConvert.cs:205-231 | GFD iff a limit-like order has a time in force other than IOC and FOK; otherwise IOC |
| CtpConvert.VolumeConditionFor | SfitCtp/CtpConvert.cs:219-231 | CV iff fill-or-kill; otherwise AV |
| CtpConvert.GetCtpOrder | SfitCtp/CtpConvert.cs:193-239 | every field of the request, including the zeroed limit price of an any-price order and the time condition after the time-in-force override |
| CtpConvert.AnyPriceOrdersNeverRest | SfitCtp/CtpConvert.cs:205-231 | an any-price order is always immediate-or-cancel; only limit orders are ever good for the day |
| CtpConvert.ActionDayOffset | SfitCtp/CtpConvert.cs:316-322 | -1 iff a time after 23:00:00 is seen before local 01:00; +1 iff a time before 01:00:00 is seen in local hour 23; otherwise 0 |
| CtpConvert.GetActionDay | SfitCtp/CtpConvert.cs:313-325 | one of the clock's three dates; today's date whenever either time is away from midnight; with three consecutive dates, yesterday or tomorrow exactly in the two midnight cases |
| CtpConvert.ActionDayOffsetIsDayShift | SfitCtp/CtpConvert.cs:313-325 | when the exchange stamp and the local clock are less than an hour apart, the offset is the true day shift |
| CtpConvert.ExchangeActionDay | SfitCtp/CtpConvert.cs:332-338 | the supplied action day is used iff it has eight characters; otherwise the clock rule applies |
| CtpConvert.DceActionDay | SfitCtp/CtpConvert.cs:351-359 | the supplied action day is used iff it has eight characters and the time is strictly between 06:00:00 and 18:00:00 |
| CtpConvert.DceRuleRefinesGeneralRule | SfitCtp/CtpConvert.cs:346-360 | inside the Dalian day session the Dalian rule equals the general rule; outside it, the clock rule applies |
| CtpConvert.SetExchangeTime | SfitCtp/CtpConvert.cs:327-339 | the record's trading day, update time, milliseconds and action day are the parsed values of the snapshot |
| CtpConvert.SetCzceExchangeTime | SfitCtp/CtpConvert.cs:341-344 | the same fields as the general rule |
| CtpConvert.SetDceExchangeTime | SfitCtp/CtpConvert.cs:346-360 | the same fields, with the Dalian action-day rule |
| Strings.Wrap32 | SfitCtp/CtpConvert.cs:72-74 | unchecked 32-bit arithmetic: the result is in int range, congruent to the exact value modulo 2^32, and equal to it when the exact value fits |

## Left out

- The timer itself, threads, and concurrent ticks. A tick is one method call. The guard is
  modelled as the field `inTimer` and an atomic exchange, and a second tick arriving while
  `inTimer` is 1 is dropped. Interleavings inside a tick are not modelled.
- `DateTime.Now` is a parameter: `now` for the task and `LocalClock` for the converters. Calendar
  arithmetic (`AddDays`, year/month/day) is not modelled. `LocalClock` carries the dates of
  yesterday, today and tomorrow as inputs.
- The provider's connection manager and trader are not modelled beyond the events in `log`. The
  provider is read once per tick as a snapshot.
- One `now` stands for all three reads of `DateTime.Now` in a tick
  (`QuantBox/XProvider.TimedTask.cs:20, 76, 78`). In the code, `_lastTime` takes a reading
  slightly later than the one the interval test compared. The model records the same instant
  for both.
- Exceptions are not modelled as values. `GetDate`, `GetTime`, `GetExchangeType`,
  `SetExchangeTime` and `SetDceExchangeTime` require inputs on which the code does not throw.
  With `int.Parse` restricted as in the next bullet, these are exactly the inputs that do not throw:
  - `TimeParses` mirrors the out-of-range reads and failed parses.
  - `GetExchangeType` requires an id of at least two characters when it is not empty, because
    `exchangeId[1]` throws on a one-character id.
- `int.Parse` is modelled on non-empty decimal digit strings whose value fits in an int. Signs,
  surrounding white space and culture settings are not modelled.
- CtpConvert.GetReasonMsg: the message text (code in hex and decimal, then a description) is
  not modelled. The result names the reason, and the unknown case keeps the code.
- `IsMax`, the strike-price clean-up in `GetInstrumentField`, and the `double` price fields:
  floating-point comparisons are not modelled. Prices are `real` and are copied unchanged.
- `GetAccountField`, `GetPositionField`, `GetInstrumentField` and `GetTrade`: field-by-field
  copies. The converters they call are modelled.
- CtpConvert.GetCtpOrder does not model three fields:
  - `OrderRef`, the formatting of an int;
  - `VolumeTotalOriginal`, a truncating `double` to `int` cast;
  - `StopPrice`, a `double` copy.
  The outgoing hedge and offset flags are the gateway codes rather than their one-character
  strings.
- The byte values of the gateway's codes. Each named code is a constructor. For each code type
  the converters receive from the gateway, one extra constructor stands for every byte the SDK
  does not name. The normalized
  enumerations list only the members the converters use.
- The XApi enumerations `OrderSide`, `HedgeFlagType` and `OpenCloseType` are not part of this
  model's sources. `OrderSideRoundTrip`, `HedgeFlagRoundTrip` and `OffsetFlagRoundTrip` assume
  those enumerations have exactly the members listed in `XApi.dfy`. An extra member would go down
  a converter's default branch and would not survive the round trip.
- Runs of ticks model the callbacks requesting a query, that is setting a flag to true. A callback
  clearing a pending flag is not part of a run; `SetEnableQueryAccount` and
  `SetEnableQueryPosition` on the class allow both.

## Findings

| source | as written | input that shows it | evidently intended | confidence | as-written member | corrected member |
|---|---|---|---|---|---|---|
| QuantBox/XProvider.TimedTask.cs:75-95 | the budget is tested once, against `>= 1`, and then each pending query takes one unit. A budget of 1 with both flags pending issues two queries and leaves -1. Re-arming tests `== 0`, so a budget of -1 is never re-armed, and the task issues no refresh query until it is stopped and started again | right after `Start` on an execution provider (budget 2, account flag pending), a connected tick sends the account query and leaves budget 1. The callbacks then set both flags, and the next tick sends both queries and leaves -1. That is three queries in one arming, and none afterwards | test the budget before each query, so that at most two queries go out per arming, the budget never drops below 0, and it is re-armed after every interval | not executed | XProvider.BudgetOverrunLocksOut | XProvider.GuardedDataQueryStep |
