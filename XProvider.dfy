/**
 * The provider's timed task: a 500 ms tick that throttles the account and position refresh
 * queries with a re-armable budget of two, and asks the connection manager to reconnect or
 * disconnect according to the configured trading sessions.
 *
 * The clock is a parameter: `now` is the local time in milliseconds since the start of the
 * calendar (a DateTime), and its time of day is `now % MsPerDay`. The provider is passed in
 * as a snapshot of the fields the task reads. Queries and posts to the connection manager
 * are appended to the task's event log.
 */
module XProvider {

  const MsPerDay: int := 86_400_000

  /** The number of refresh queries one arming allows. */
  const QueryBudget: int := 2

  /** A trading session as two times of day in milliseconds; both ends belong to it. */
  datatype SessionTime = SessionTime(begin: int, end: int)

  /** The provider fields the task reads; the query interval is in whole seconds. */
  datatype ProviderState = ProviderState(
    isConnected: bool,
    isInstrumentProvider: bool,
    qryInstrumentCompleted: bool,
    isExecutionProvider: bool,
    sessionTimes: seq<SessionTime>,
    tradingDataQueryInterval: int)

  /** What the task does to the outside: a trading query, or a post to the connection manager. */
  datatype Event = QueryPositions | QueryAccount | PostAutoReconnect | PostAutoDisconnect

  function TimeOfDay(now: nat): (time: nat)
    ensures time < MsPerDay
  {
    now % MsPerDay
  }

  // ---------------------------------------------------------------------------------------
  // Sessions and the connect/disconnect decision

  /** Some configured session contains the time, both ends included. */
  predicate InSession(sessions: seq<SessionTime>, time: int)
  {
    exists i :: 0 <= i < |sessions| && sessions[i].begin <= time <= sessions[i].end
  }

  /** Both ends of a session are in session, and nothing is in session when none is configured. */
  lemma SessionBoundsInclusive(sessions: seq<SessionTime>, k: int, time: int)
    requires 0 <= k < |sessions| && sessions[k].begin <= sessions[k].end
    ensures InSession(sessions, sessions[k].begin) && InSession(sessions, sessions[k].end)
    ensures !InSession([], time)
  {
  }

  /** The posts of one AutoConnect step. */
  function AutoConnectPosts(p: ProviderState, time: int): (posted: seq<Event>)
    ensures |posted| <= 1
    ensures p.sessionTimes == [] ==> posted == []
    ensures posted == [PostAutoReconnect] <==> InSession(p.sessionTimes, time) && !p.isConnected
    ensures posted == [PostAutoDisconnect] <==> p.sessionTimes != [] && !InSession(p.sessionTimes, time) && p.isConnected
  {
    if |p.sessionTimes| == 0 then []
    else if InSession(p.sessionTimes, time) then
      if !p.isConnected then [PostAutoReconnect] else []
    else
      if p.isConnected then [PostAutoDisconnect] else []
  }

  /** The connection state the connection manager is asked for by the posts. */
  function RequestedConnection(connected: bool, posted: seq<Event>): bool
  {
    if PostAutoReconnect in posted then true
    else if PostAutoDisconnect in posted then false
    else connected
  }

  /** With sessions configured, the posts always ask for "connected exactly while in session",
      and once that state is reached the task posts nothing more. */
  lemma AutoConnectFollowsSession(p: ProviderState, time: int)
    requires p.sessionTimes != []
    ensures RequestedConnection(p.isConnected, AutoConnectPosts(p, time)) == InSession(p.sessionTimes, time)
    ensures AutoConnectPosts(p.(isConnected := InSession(p.sessionTimes, time)), time) == []
  {
  }

  // ---------------------------------------------------------------------------------------
  // The refresh-query decision

  /** The task fields the query step reads and writes. */
  datatype QueryState = QueryState(
    lastTime: int,
    validQueryCount: int,
    enableQueryAccount: bool,
    enableQueryPosition: bool)

  /** The query step runs only while connected, and, for an instrument provider, after the
      instrument query has completed. */
  predicate QueryGateOpen(p: ProviderState)
  {
    p.isConnected && !(p.isInstrumentProvider && !p.qryInstrumentCompleted)
  }

  /** More than the query interval has passed since the last arming (TotalSeconds > interval). */
  predicate IntervalElapsed(q: QueryState, p: ProviderState, now: int)
  {
    now - q.lastTime > p.tradingDataQueryInterval * 1000
  }

  /** The step re-arms the budget: gate open, budget exactly zero, interval elapsed. */
  predicate Rearms(q: QueryState, p: ProviderState, now: int)
  {
    QueryGateOpen(p) && q.validQueryCount == 0 && IntervalElapsed(q, p, now)
  }

  /** The budget the queries of a step draw on, after the possible re-arming. */
  function ArmedCount(q: QueryState, p: ProviderState, now: int): int
  {
    if Rearms(q, p, now) then QueryBudget else q.validQueryCount
  }

  /** The fields after a step, and the queries the step issued, in order. */
  datatype QueryStep = QueryStep(state: QueryState, issued: seq<Event>)

  /** One DataQuery step as the task runs it: the budget is tested once, then the position
      query and the account query each take one unit. */
  function DataQueryStep(q: QueryState, p: ProviderState, now: int): (r: QueryStep)
    ensures !QueryGateOpen(p) ==> r == QueryStep(q, [])
    ensures r.state.lastTime == if Rearms(q, p, now) then now else q.lastTime
    // each pending query goes out exactly when the gate is open and the armed budget is positive
    ensures QueryPositions in r.issued <==> QueryGateOpen(p) && ArmedCount(q, p, now) >= 1 && q.enableQueryPosition
    ensures QueryAccount in r.issued <==> QueryGateOpen(p) && ArmedCount(q, p, now) >= 1 && q.enableQueryAccount
    // the position query goes first, and nothing else is issued
    ensures r.issued in {[], [QueryPositions], [QueryAccount], [QueryPositions, QueryAccount]}
    // a flag is cleared by, and only by, issuing its query
    ensures r.state.enableQueryPosition == (q.enableQueryPosition && QueryPositions !in r.issued)
    ensures r.state.enableQueryAccount == (q.enableQueryAccount && QueryAccount !in r.issued)
    // every issued query costs one unit of the armed budget
    ensures QueryGateOpen(p) ==> r.state.validQueryCount == ArmedCount(q, p, now) - |r.issued|
    ensures -1 <= q.validQueryCount <= QueryBudget ==> -1 <= r.state.validQueryCount <= QueryBudget
  {
    if !QueryGateOpen(p) then QueryStep(q, [])
    else
      var armed := if q.validQueryCount == 0 && IntervalElapsed(q, p, now)
        then q.(validQueryCount := QueryBudget, lastTime := now) else q;
      if armed.validQueryCount < 1 then QueryStep(armed, [])
      else
        var afterPosition := if armed.enableQueryPosition
          then QueryStep(armed.(validQueryCount := armed.validQueryCount - 1, enableQueryPosition := false), [QueryPositions])
          else QueryStep(armed, []);
        var s := afterPosition.state;
        if s.enableQueryAccount
        then
          assert [] + [QueryAccount] == [QueryAccount] && [QueryPositions] + [QueryAccount] == [QueryPositions, QueryAccount];
          QueryStep(s.(validQueryCount := s.validQueryCount - 1, enableQueryAccount := false), afterPosition.issued + [QueryAccount])
        else afterPosition
  }

  /** The query step with the budget tested before each query (the intended throttle). */
  function GuardedDataQueryStep(q: QueryState, p: ProviderState, now: int): (r: QueryStep)
    ensures !QueryGateOpen(p) ==> r == QueryStep(q, [])
    ensures r.state.lastTime == if Rearms(q, p, now) then now else q.lastTime
    ensures r.issued in {[], [QueryPositions], [QueryAccount], [QueryPositions, QueryAccount]}
    // a pending query goes out exactly when the budget left at that point allows it
    ensures QueryPositions in r.issued <==> QueryGateOpen(p) && ArmedCount(q, p, now) >= 1 && q.enableQueryPosition
    ensures QueryAccount in r.issued <==>
      QueryGateOpen(p) && q.enableQueryAccount
      && ArmedCount(q, p, now) - (if QueryPositions in r.issued then 1 else 0) >= 1
    ensures QueryGateOpen(p) ==> r.state.validQueryCount == ArmedCount(q, p, now) - |r.issued|
    ensures r.state.enableQueryPosition == (q.enableQueryPosition && QueryPositions !in r.issued)
    ensures r.state.enableQueryAccount == (q.enableQueryAccount && QueryAccount !in r.issued)
    ensures 0 <= q.validQueryCount <= QueryBudget ==> 0 <= r.state.validQueryCount <= QueryBudget
  {
    if !QueryGateOpen(p) then QueryStep(q, [])
    else
      var armed := if q.validQueryCount == 0 && IntervalElapsed(q, p, now)
        then q.(validQueryCount := QueryBudget, lastTime := now) else q;
      var afterPosition := if armed.validQueryCount >= 1 && armed.enableQueryPosition
        then QueryStep(armed.(validQueryCount := armed.validQueryCount - 1, enableQueryPosition := false), [QueryPositions])
        else QueryStep(armed, []);
      var s := afterPosition.state;
      if s.validQueryCount >= 1 && s.enableQueryAccount
      then
        assert [] + [QueryAccount] == [QueryAccount] && [QueryPositions] + [QueryAccount] == [QueryPositions, QueryAccount];
        QueryStep(s.(validQueryCount := s.validQueryCount - 1, enableQueryAccount := false), afterPosition.issued + [QueryAccount])
      else afterPosition
  }

  /** The correction changes nothing except where the code overdraws: whenever the code's step
      leaves a budget of zero or more, the guarded step does exactly the same. */
  lemma GuardedAgreesUnlessOverdrawn(q: QueryState, p: ProviderState, now: int)
    ensures DataQueryStep(q, p, now).state.validQueryCount >= 0 ==> GuardedDataQueryStep(q, p, now) == DataQueryStep(q, p, now)
  {
  }

  /** One tick's worth of input to the query step: the provider and the clock at the tick, and
      whether the provider's callbacks requested an account or a position query (through
      `SetEnableQueryAccount` / `SetEnableQueryPosition`) since the previous tick. */
  datatype Tick = Tick(provider: ProviderState, now: int, requestAccount: bool, requestPosition: bool)

  /** The query fields after the callbacks of a tick have set their flags. */
  function Requested(q: QueryState, t: Tick): (r: QueryState)
    ensures r.lastTime == q.lastTime && r.validQueryCount == q.validQueryCount
    ensures r.enableQueryAccount <==> q.enableQueryAccount || t.requestAccount
    ensures r.enableQueryPosition <==> q.enableQueryPosition || t.requestPosition
  {
    q.(enableQueryAccount := q.enableQueryAccount || t.requestAccount,
       enableQueryPosition := q.enableQueryPosition || t.requestPosition)
  }

  /** The callbacks' requests, then the query step of the timer tick. */
  function Step(guarded: bool, q: QueryState, t: Tick): QueryStep
  {
    var pending := Requested(q, t);
    if guarded then GuardedDataQueryStep(pending, t.provider, t.now) else DataQueryStep(pending, t.provider, t.now)
  }

  /** The query steps of a sequence of ticks: the final fields and all queries issued, in order. */
  function RunQueries(guarded: bool, q: QueryState, ticks: seq<Tick>): QueryStep
    decreases |ticks|
  {
    if ticks == [] then QueryStep(q, [])
    else
      var first := Step(guarded, q, ticks[0]);
      var rest := RunQueries(guarded, first.state, ticks[1..]);
      QueryStep(rest.state, first.issued + rest.issued)
  }

  /** How many ticks of the sequence re-arm the budget. */
  function RearmCount(guarded: bool, q: QueryState, ticks: seq<Tick>): nat
    decreases |ticks|
  {
    if ticks == [] then 0
    else
      (if Rearms(q, ticks[0].provider, ticks[0].now) then 1 else 0)
      + RearmCount(guarded, Step(guarded, q, ticks[0]).state, ticks[1..])
  }

  /** Over any run, every query is paid for: the queries issued plus the budget left equal the
      budget at the start plus two per re-arming. */
  lemma {:induction false} BudgetAccounting(guarded: bool, q: QueryState, ticks: seq<Tick>)
    ensures |RunQueries(guarded, q, ticks).issued| + RunQueries(guarded, q, ticks).state.validQueryCount
      == q.validQueryCount + QueryBudget * RearmCount(guarded, q, ticks)
    decreases |ticks|
  {
    if ticks != [] {
      BudgetAccounting(guarded, Step(guarded, q, ticks[0]).state, ticks[1..]);
    }
  }

  /** Over any run the as-written budget stays between -1 and 2, the guarded one between 0 and 2. */
  lemma {:induction false} RunKeepsBudgetRange(guarded: bool, q: QueryState, ticks: seq<Tick>)
    requires (if guarded then 0 else -1) <= q.validQueryCount <= QueryBudget
    ensures (if guarded then 0 else -1) <= RunQueries(guarded, q, ticks).state.validQueryCount <= QueryBudget
    decreases |ticks|
  {
    if ticks != [] {
      RunKeepsBudgetRange(guarded, Step(guarded, q, ticks[0]).state, ticks[1..]);
    }
  }

  /** Between two armings, however often the callbacks request queries, the as-written task
      issues at most three queries, and the guarded task at most two. */
  lemma QueriesPerArming(guarded: bool, ticks: seq<Tick>, q: QueryState)
    requires 0 <= q.validQueryCount <= QueryBudget
    // one arming's worth of budget: a full budget and no re-arming, or an empty one re-armed once
    requires q.validQueryCount + QueryBudget * RearmCount(guarded, q, ticks) == QueryBudget
    ensures |RunQueries(guarded, q, ticks).issued| <= if guarded then QueryBudget else QueryBudget + 1
  {
    BudgetAccounting(guarded, q, ticks);
    RunKeepsBudgetRange(guarded, q, ticks);
  }

  /** Once the as-written budget is negative, no later tick issues a query or re-arms, whatever
      the callbacks request: the re-arm test asks for exactly zero. */
  lemma {:induction false} NegativeBudgetIsSticky(q: QueryState, ticks: seq<Tick>)
    requires q.validQueryCount < 0
    ensures RunQueries(false, q, ticks).issued == []
    ensures RunQueries(false, q, ticks).state.validQueryCount == q.validQueryCount
    ensures RunQueries(false, q, ticks).state.lastTime == q.lastTime
    ensures RearmCount(false, q, ticks) == 0
    decreases |ticks|
  {
    if ticks != [] {
      NegativeBudgetIsSticky(Step(false, q, ticks[0]).state, ticks[1..]);
    }
  }

  /** A task just started as an execution provider (budget 2, account query pending) overruns its
      budget in two connected ticks: the first sends the account query; the callbacks then request
      both queries, and the second tick sends both. That is three queries in one arming; the
      budget ends at -1, and no later run, whatever the callbacks request, queries again. */
  lemma BudgetOverrunLocksOut(p: ProviderState, start: int, now1: int, now2: int, later: seq<Tick>)
    requires QueryGateOpen(p)
    ensures var ticks := [Tick(p, now1, false, false), Tick(p, now2, true, true)];
      var r := RunQueries(false, QueryState(start, QueryBudget, true, false), ticks);
      && RearmCount(false, QueryState(start, QueryBudget, true, false), ticks) == 0
      && r.issued == [QueryAccount, QueryPositions, QueryAccount]
      && r.state.validQueryCount == -1
      && RunQueries(false, r.state, later).issued == []
      && RearmCount(false, r.state, later) == 0
  {
    var q := QueryState(start, QueryBudget, true, false);
    var ticks := [Tick(p, now1, false, false), Tick(p, now2, true, true)];
    var s1 := Step(false, q, ticks[0]);
    assert s1 == QueryStep(QueryState(start, 1, false, false), [QueryAccount]);
    var s2 := Step(false, s1.state, ticks[1]);
    assert s2 == QueryStep(QueryState(start, -1, false, false), [QueryPositions, QueryAccount]);
    assert ticks[1..][0] == ticks[1] && ticks[1..][1..] == [];
    var rest := RunQueries(false, s1.state, ticks[1..]);
    assert RunQueries(false, s2.state, []) == QueryStep(s2.state, []);
    assert rest == QueryStep(s2.state, s2.issued + []);
    assert RearmCount(false, s1.state, ticks[1..]) == 0;
    var r := RunQueries(false, q, ticks);
    assert r == QueryStep(rest.state, s1.issued + rest.issued);
    assert r.issued == [QueryAccount, QueryPositions, QueryAccount];
    NegativeBudgetIsSticky(r.state, later);
  }

  /** The guarded task never goes negative, so an exhausted budget is re-armed by the first tick
      after the interval, with the gate open. */
  lemma GuardedBudgetRearms(q: QueryState, p: ProviderState, now: int)
    requires 0 <= q.validQueryCount <= QueryBudget
    requires QueryGateOpen(p) && IntervalElapsed(q, p, now)
    requires q.validQueryCount < 1
    ensures GuardedDataQueryStep(q, p, now).state.lastTime == now
    ensures q.enableQueryPosition || q.enableQueryAccount ==> GuardedDataQueryStep(q, p, now).issued != []
  {
  }

  // ---------------------------------------------------------------------------------------
  // The task

  class TimedTask {
    var lastTime: int
    var validQueryCount: int
    var inTimer: int
    var enableQueryAccount: bool
    var enableQueryPosition: bool
    var timerEnabled: bool
    /** Every query issued and every post made, in order. */
    var log: seq<Event>

    ghost predicate Valid()
      reads this`validQueryCount, this`inTimer
    {
      -1 <= validQueryCount <= QueryBudget && (inTimer == 0 || inTimer == 1)
    }

    function Queries(): QueryState
      reads this
    {
      QueryState(lastTime, validQueryCount, enableQueryAccount, enableQueryPosition)
    }

    /** A new task: timer stopped, fields at their defaults. */
    constructor ()
      ensures Valid() && !timerEnabled && inTimer == 0 && log == []
      ensures Queries() == QueryState(0, 0, false, false)
    {
      lastTime, validQueryCount, inTimer := 0, 0, 0;
      enableQueryAccount, enableQueryPosition := false, false;
      timerEnabled := false;
      log := [];
    }

    /** The configured sessions are searched in order, returning at the first that contains
        the time of day. */
    method InTradingSession(p: ProviderState, now: nat) returns (found: bool)
      ensures found == InSession(p.sessionTimes, TimeOfDay(now))
    {
      var time := TimeOfDay(now);
      var i := 0;
      while i < |p.sessionTimes|
        invariant 0 <= i <= |p.sessionTimes|
        invariant forall j :: 0 <= j < i ==> !(p.sessionTimes[j].begin <= time <= p.sessionTimes[j].end)
      {
        var range := p.sessionTimes[i];
        if time >= range.begin && time <= range.end {
          return true;
        }
        i := i + 1;
      }
      return false;
    }

    /** `Interlocked.Exchange` on the guard, as one indivisible step. */
    method ExchangeInTimer(value: int) returns (previous: int)
      requires Valid() && (value == 0 || value == 1)
      modifies this`inTimer
      ensures Valid()
      ensures previous == old(inTimer) && inTimer == value
    {
      previous := inTimer;
      inTimer := value;
    }

    /** Post a reconnect when in session and disconnected, a disconnect when out of session and
        connected; nothing without configured sessions. Earlier posts are not remembered. */
    method AutoConnect(p: ProviderState, now: nat)
      modifies this`log
      ensures log == old(log) + AutoConnectPosts(p, TimeOfDay(now))
    {
      if |p.sessionTimes| == 0 {
        return;
      }
      var inSession := InTradingSession(p, now);
      if inSession {
        if !p.isConnected {
          log := log + [PostAutoReconnect];
        }
      } else {
        if p.isConnected {
          log := log + [PostAutoDisconnect];
        }
      }
    }

    /** Re-arm the budget when it is exactly zero and the interval has elapsed; then, when the
        budget is at least one, issue the pending position query and the pending account query,
        each clearing its flag and taking one unit. */
    method DataQuery(p: ProviderState, now: nat)
      requires Valid()
      modifies this`lastTime, this`validQueryCount, this`enableQueryAccount, this`enableQueryPosition, this`log
      ensures Valid()
      ensures var r := DataQueryStep(old(Queries()), p, now);
        Queries() == r.state && log == old(log) + r.issued
    {
      if !p.isConnected || (p.isInstrumentProvider && !p.qryInstrumentCompleted) {
        return;
      }
      if validQueryCount == 0 {
        if now - lastTime > p.tradingDataQueryInterval * 1000 {
          validQueryCount := QueryBudget;
          lastTime := now;
        }
      }
      if validQueryCount < 1 {
        return;
      }
      if enableQueryPosition {
        log := log + [QueryPositions];
        validQueryCount := validQueryCount - 1;
        enableQueryPosition := false;
      }
      if enableQueryAccount {
        log := log + [QueryAccount];
        validQueryCount := validQueryCount - 1;
        enableQueryAccount := false;
      }
    }

    /** One timer tick: skipped entirely while another tick holds the guard; otherwise the
        query step, then the connect step, then the guard is released. */
    method TimerOnElapsed(p: ProviderState, now: nat)
      requires Valid()
      modifies this`lastTime, this`validQueryCount, this`enableQueryAccount, this`enableQueryPosition, this`log, this`inTimer
      ensures Valid()
      ensures old(inTimer) != 0 ==> unchanged(this)
      ensures old(inTimer) == 0 ==> inTimer == 0
      ensures old(inTimer) == 0 ==> var r := DataQueryStep(old(Queries()), p, now);
        Queries() == r.state && log == old(log) + r.issued + AutoConnectPosts(p, TimeOfDay(now))
    {
      var previous := ExchangeInTimer(1);
      if previous != 0 {
        return;
      }
      DataQuery(p, now);
      AutoConnect(p, now);
      previous := ExchangeInTimer(0);
    }

    /** Start the timer unless it runs: re-arm the budget at `now`, request the account query
        for an execution provider, and no position query. */
    method Start(p: ProviderState, now: nat)
      requires Valid()
      modifies this`lastTime, this`validQueryCount, this`enableQueryAccount, this`enableQueryPosition, this`timerEnabled
      ensures Valid()
      ensures old(timerEnabled) ==> unchanged(this)
      ensures !old(timerEnabled) ==> timerEnabled && Queries() == QueryState(now, QueryBudget, p.isExecutionProvider, false)
    {
      if !timerEnabled {
        lastTime := now;
        validQueryCount := QueryBudget;
        if p.isExecutionProvider {
          enableQueryAccount := true;
          enableQueryPosition := false;
        } else {
          enableQueryAccount := false;
          enableQueryPosition := false;
        }
        timerEnabled := true;
      }
    }

    /** Stop the timer; nothing else changes. */
    method Stop()
      modifies this`timerEnabled
      ensures !timerEnabled
    {
      timerEnabled := false;
    }

    /** The account-query flag, set by the provider's login and trade callbacks. */
    method SetEnableQueryAccount(value: bool)
      modifies this`enableQueryAccount
      ensures enableQueryAccount == value
    {
      enableQueryAccount := value;
    }

    /** The position-query flag, set by the provider's login and trade callbacks. */
    method SetEnableQueryPosition(value: bool)
      modifies this`enableQueryPosition
      ensures enableQueryPosition == value
    {
      enableQueryPosition := value;
    }
  }
}
