/** The risk gate: daily and weekly P&L trackers that reset on date
    boundaries, peak-equity and drawdown tracking, position sizing, and the
    trade validation chain with its latched circuit breaker. The tracker is a
    value (RiskState) with pure transitions; the RiskManager class holds the
    same fields and its methods are proved to perform those transitions. */
module Risk {
  import opened Common
  import Strategy

  /** Limits fixed at construction, with their defaults. */
  datatype RiskLimits = RiskLimits(
    maxPositionSize: real,
    maxPositions: int,
    maxSectorPositions: int,
    dailyLossLimit: real,
    weeklyLossLimit: real,
    maxDrawdownPct: real,
    positionSizePct: real)

  const DefaultLimits: RiskLimits := RiskLimits(1000.0, 5, 2, 100.0, 300.0, 15.0, 20.0)

  /** Why trading was halted: the two automatic trips, or a caller's own text. */
  datatype HaltReason = DailyLossLimitExceeded | MaxDrawdownExceeded | Manual(note: string)

  datatype RiskState = RiskState(
    dailyPnl: real,
    weeklyPnl: real,
    currentDate: Option<int>,
    weekStartDate: Option<int>,
    peakEquity: real,
    currentDrawdownPct: real,
    tradingHalted: bool,
    haltReason: Option<HaltReason>)

  /** A fresh tracker: no dates seen, a peak of zero, trading active. */
  const InitialState: RiskState := RiskState(0.0, 0.0, None, None, 0.0, 0.0, false, None)

  /** The breaker flag and its reason are set and cleared together, and
      neither the peak nor the drawdown is ever negative. */
  predicate RiskInvariant(s: RiskState)
  {
    && (s.tradingHalted <==> s.haltReason.Some?)
    && s.peakEquity >= 0.0
    && s.currentDrawdownPct >= 0.0
  }

  // ---------------------------------------------------------------------------
  // Trackers

  predicate SameDay(stored: Option<int>, ts: int)
  {
    stored.Some? && Day(stored.value) == Day(ts)
  }

  /** A timestamp on a new calendar day (or the first one seen) zeroes the
      daily P&L and becomes the stored date; one on the stored day changes
      nothing. */
  function ResetDaily(s: RiskState, ts: int): (r: RiskState)
    ensures SameDay(r.currentDate, ts)
    ensures SameDay(s.currentDate, ts) ==> r == s
    ensures !SameDay(s.currentDate, ts) ==> r.dailyPnl == 0.0 && r.currentDate == Some(ts)
    ensures r == s.(dailyPnl := r.dailyPnl, currentDate := r.currentDate)
  {
    if s.currentDate.None? || Day(ts) != Day(s.currentDate.value) then
      s.(dailyPnl := 0.0, currentDate := Some(ts))
    else
      s
  }

  /** The first timestamp only records the week start; afterwards a timestamp
      at least 7 whole days past the start zeroes the weekly P&L and becomes
      the new start. Either way the start ends up fewer than 7 days before ts. */
  function ResetWeekly(s: RiskState, ts: int): (r: RiskState)
    ensures r.weekStartDate.Some? && DaysBetween(r.weekStartDate.value, ts) < 7
    ensures s.weekStartDate.None? ==> r == s.(weekStartDate := Some(ts))
    ensures s.weekStartDate.Some? && DaysBetween(s.weekStartDate.value, ts) >= 7 ==>
      r.weeklyPnl == 0.0 && r.weekStartDate == Some(ts)
    ensures s.weekStartDate.Some? && DaysBetween(s.weekStartDate.value, ts) < 7 ==> r == s
    ensures r == s.(weeklyPnl := r.weeklyPnl, weekStartDate := r.weekStartDate)
  {
    if s.weekStartDate.None? then
      s.(weekStartDate := Some(ts))
    else if DaysBetween(s.weekStartDate.value, ts) >= 7 then
      s.(weeklyPnl := 0.0, weekStartDate := Some(ts))
    else
      s
  }

  /** Both resets, then the amount is added to both accumulators: the
      stored date moves to ts on a new day, and the week start is recorded
      on the first call and moved to ts once 7 whole days have passed. */
  function ApplyPnl(s: RiskState, pnl: real, ts: int): (r: RiskState)
    ensures r.dailyPnl == (if SameDay(s.currentDate, ts) then s.dailyPnl else 0.0) + pnl
    ensures r.weeklyPnl ==
      (if s.weekStartDate.Some? && DaysBetween(s.weekStartDate.value, ts) >= 7 then 0.0 else s.weeklyPnl) + pnl
    ensures SameDay(r.currentDate, ts)
    ensures r.currentDate == if SameDay(s.currentDate, ts) then s.currentDate else Some(ts)
    ensures r.weekStartDate ==
      if s.weekStartDate.None? || DaysBetween(s.weekStartDate.value, ts) >= 7 then Some(ts) else s.weekStartDate
    ensures r.peakEquity == s.peakEquity && r.currentDrawdownPct == s.currentDrawdownPct
    ensures r.tradingHalted == s.tradingHalted && r.haltReason == s.haltReason
  {
    var t := ResetWeekly(ResetDaily(s, ts), ts);
    t.(dailyPnl := t.dailyPnl + pnl, weeklyPnl := t.weeklyPnl + pnl)
  }

  /** The drawdown rule on the tracker; a zero peak (the initial one) divides
      by zero in the source unless the equity is a new high. */
  function TrackDrawdown(s: RiskState, equity: real): (r: RiskState)
    requires equity > s.peakEquity || s.peakEquity != 0.0
    ensures r.peakEquity >= s.peakEquity && r.peakEquity >= equity
    ensures equity > s.peakEquity ==> r.peakEquity == equity && r.currentDrawdownPct == 0.0
    ensures equity <= s.peakEquity ==>
      r.peakEquity == s.peakEquity && r.currentDrawdownPct * s.peakEquity == (s.peakEquity - equity) * 100.0
    ensures r.peakEquity > 0.0 ==> r.currentDrawdownPct >= 0.0
    ensures r == s.(peakEquity := r.peakEquity, currentDrawdownPct := r.currentDrawdownPct)
  {
    var pd := PeakAndDrawdown(s.peakEquity, equity);
    s.(peakEquity := pd.0, currentDrawdownPct := pd.1)
  }

  function Halt(s: RiskState, reason: HaltReason): (r: RiskState)
    ensures r.tradingHalted && r.haltReason == Some(reason)
    ensures r == s.(tradingHalted := r.tradingHalted, haltReason := r.haltReason)
  {
    s.(tradingHalted := true, haltReason := Some(reason))
  }

  /** Manual resume clears the flag and the reason. */
  function Resume(s: RiskState): (r: RiskState)
    ensures !r.tradingHalted && r.haltReason.None?
    ensures r == s.(tradingHalted := r.tradingHalted, haltReason := r.haltReason)
  {
    s.(tradingHalted := false, haltReason := None)
  }

  // ---------------------------------------------------------------------------
  // Limit checks

  /** The daily check compares the magnitude of the P&L, so a gain at least
      as large as the limit is a breach too. */
  function DailyLossLimitBreached(limits: RiskLimits, s: RiskState): (breached: bool)
    ensures breached <==> s.dailyPnl <= -limits.dailyLossLimit || s.dailyPnl >= limits.dailyLossLimit
  {
    Abs(s.dailyPnl) >= limits.dailyLossLimit
  }

  /** The weekly check, likewise on the magnitude. */
  function WeeklyLossLimitBreached(limits: RiskLimits, s: RiskState): (breached: bool)
    ensures breached <==> s.weeklyPnl <= -limits.weeklyLossLimit || s.weeklyPnl >= limits.weeklyLossLimit
  {
    Abs(s.weeklyPnl) >= limits.weeklyLossLimit
  }

  predicate DrawdownLimitBreached(limits: RiskLimits, s: RiskState)
  {
    s.currentDrawdownPct >= limits.maxDrawdownPct
  }

  /** Too many open positions, or some sector already at its cap. */
  predicate PositionLimitsBreached(limits: RiskLimits, currentPositions: int, sectorPositions: map<string, int>)
  {
    || currentPositions >= limits.maxPositions
    || exists sector :: sector in sectorPositions && sectorPositions[sector] >= limits.maxSectorPositions
  }

  // ---------------------------------------------------------------------------
  // Sizing

  /** The smaller of the cap and position_size_pct of equity, divided by the
      price and truncated; a zero result becomes one share only when the
      equity covers one share. A zero price divides by zero in the source. */
  function CalculatePositionSize(limits: RiskLimits, accountEquity: real, stockPrice: real): (shares: int)
    requires stockPrice != 0.0
    ensures var budget := Min(limits.maxPositionSize, accountEquity * (limits.positionSizePct / 100.0));
      stockPrice > 0.0 && budget >= stockPrice ==>
        shares as real * stockPrice <= budget < (shares + 1) as real * stockPrice
    ensures var budget := Min(limits.maxPositionSize, accountEquity * (limits.positionSizePct / 100.0));
      stockPrice > 0.0 && 0.0 <= budget < stockPrice ==>
        shares == (if accountEquity >= stockPrice then 1 else 0)
    ensures var budget := Min(limits.maxPositionSize, accountEquity * (limits.positionSizePct / 100.0));
      stockPrice > 0.0 && budget < 0.0 ==>
        if accountEquity >= stockPrice && budget > -stockPrice then shares == 1
        else shares <= 0 && (shares - 1) as real * stockPrice < budget <= shares as real * stockPrice
  {
    var maxByPercentage := accountEquity * (limits.positionSizePct / 100.0);
    var positionValue := Min(limits.maxPositionSize, maxByPercentage);
    var shares := Trunc(positionValue / stockPrice);
    var r := if shares == 0 && accountEquity >= stockPrice then 1 else shares;
    if stockPrice > 0.0 && positionValue >= 0.0 then DivTruncBounds(positionValue, stockPrice); r
    else if stockPrice > 0.0 then DivTruncBoundsNegative(positionValue, stockPrice); r
    else r
  }

  /** Unlike the strategy's sizer, which never returns fewer than one share,
      this one returns zero when the equity does not cover one share. */
  lemma SizersDisagreeBelowOneShare()
    ensures CalculatePositionSize(DefaultLimits, 100.0, 150.0) == 0
    ensures Strategy.CalculatePositionSize(100.0, 150.0, Strategy.DefaultMaxPositionSize) == 1
  {
  }

  // ---------------------------------------------------------------------------
  // Trade validation

  /** The checks after the breaker, in the order they are applied. */
  datatype TradeCheck =
    | DailyLossLimit
    | WeeklyLossLimit
    | DrawdownLimit
    | PositionLimits
    | PositionSizeLimit
    | InsufficientCapital

  datatype Rejection = TradingHalted(reason: Option<HaltReason>) | Failed(check: TradeCheck)

  datatype Verdict = Approved | Rejected(rejection: Rejection)

  datatype TradeRequest = TradeRequest(
    ticker: string,
    price: real,
    quantity: int,
    accountEquity: real,
    currentPositions: int,
    timestamp: int)

  function CheckRank(c: TradeCheck): nat
  {
    match c
    case DailyLossLimit => 0
    case WeeklyLossLimit => 1
    case DrawdownLimit => 2
    case PositionLimits => 3
    case PositionSizeLimit => 4
    case InsufficientCapital => 5
  }

  /** The breaker trips on exactly two of the checks. */
  function HaltOn(c: TradeCheck): Option<HaltReason>
  {
    match c
    case DailyLossLimit => Some(DailyLossLimitExceeded)
    case DrawdownLimit => Some(MaxDrawdownExceeded)
    case _ => None
  }

  /** The drawdown update inside validation needs a non-zero peak unless the
      equity is a new high; a halted gate never reaches it. */
  predicate CanValidate(s: RiskState, req: TradeRequest)
  {
    s.tradingHalted || req.accountEquity > s.peakEquity || s.peakEquity != 0.0
  }

  /** The trackers as the checks see them: both resets, then the drawdown
      update with the reported equity. */
  function Tracked(s: RiskState, req: TradeRequest): RiskState
    requires req.accountEquity > s.peakEquity || s.peakEquity != 0.0
  {
    TrackDrawdown(ResetWeekly(ResetDaily(s, req.timestamp), req.timestamp), req.accountEquity)
  }

  /** Each check on its own against the updated trackers. Sector counts are
      never passed by validation, so the sector part is empty here. */
  predicate TradeCheckFails(limits: RiskLimits, t: RiskState, req: TradeRequest, c: TradeCheck)
  {
    match c
    case DailyLossLimit => DailyLossLimitBreached(limits, t)
    case WeeklyLossLimit => WeeklyLossLimitBreached(limits, t)
    case DrawdownLimit => DrawdownLimitBreached(limits, t)
    case PositionLimits => PositionLimitsBreached(limits, req.currentPositions, map[])
    case PositionSizeLimit => req.price * req.quantity as real > limits.maxPositionSize
    case InsufficientCapital => req.price * req.quantity as real > req.accountEquity
  }

  /** validate_trade: a halted gate rejects with its halt reason and touches
      nothing; otherwise the trackers are updated, the first failing check in
      rank order rejects, and only the daily-loss and drawdown failures trip
      the breaker. */
  function Validate(limits: RiskLimits, s: RiskState, req: TradeRequest): (res: (RiskState, Verdict))
    requires CanValidate(s, req)
    ensures s.tradingHalted ==> res == (s, Rejected(TradingHalted(s.haltReason)))
    ensures !s.tradingHalted && res.1 == Approved ==>
      forall c :: !TradeCheckFails(limits, Tracked(s, req), req, c)
    ensures !s.tradingHalted && res.1.Rejected? ==>
      && res.1.rejection.Failed?
      && TradeCheckFails(limits, Tracked(s, req), req, res.1.rejection.check)
      && forall c :: CheckRank(c) < CheckRank(res.1.rejection.check) ==>
           !TradeCheckFails(limits, Tracked(s, req), req, c)
    ensures !s.tradingHalted ==>
      res.0 == if res.1.Rejected? && HaltOn(res.1.rejection.check).Some?
               then Halt(Tracked(s, req), HaltOn(res.1.rejection.check).value)
               else Tracked(s, req)
    ensures res.0.tradingHalted <==>
      || s.tradingHalted
      || res.1 == Rejected(Failed(DailyLossLimit))
      || res.1 == Rejected(Failed(DrawdownLimit))
  {
    if s.tradingHalted then
      (s, Rejected(TradingHalted(s.haltReason)))
    else
      var t := TrackDrawdown(ResetWeekly(ResetDaily(s, req.timestamp), req.timestamp), req.accountEquity);
      if DailyLossLimitBreached(limits, t) then
        (Halt(t, DailyLossLimitExceeded), Rejected(Failed(DailyLossLimit)))
      else if WeeklyLossLimitBreached(limits, t) then
        (t, Rejected(Failed(WeeklyLossLimit)))
      else if DrawdownLimitBreached(limits, t) then
        (Halt(t, MaxDrawdownExceeded), Rejected(Failed(DrawdownLimit)))
      else if PositionLimitsBreached(limits, req.currentPositions, map[]) then
        (t, Rejected(Failed(PositionLimits)))
      else
        var positionValue := req.price * req.quantity as real;
        if positionValue > limits.maxPositionSize then
          (t, Rejected(Failed(PositionSizeLimit)))
        else if positionValue > req.accountEquity then
          (t, Rejected(Failed(InsufficientCapital)))
        else
          (t, Approved)
  }

  // ---------------------------------------------------------------------------
  // Event sequences

  /** What a caller can do to the gate. */
  datatype RiskEvent =
    | Attempt(request: TradeRequest)
    | RecordPnl(pnl: real, timestamp: int)
    | HaltCommand(reason: HaltReason)
    | ResumeCommand

  predicate StepAllowed(s: RiskState, e: RiskEvent)
  {
    e.Attempt? ==> CanValidate(s, e.request)
  }

  /** One event; an attempt also yields its verdict. */
  function Step(limits: RiskLimits, s: RiskState, e: RiskEvent): (RiskState, Option<Verdict>)
    requires StepAllowed(s, e)
  {
    match e
    case Attempt(req) => var res := Validate(limits, s, req); (res.0, Some(res.1))
    case RecordPnl(pnl, ts) => (ApplyPnl(s, pnl, ts), None)
    case HaltCommand(reason) => (Halt(s, reason), None)
    case ResumeCommand => (Resume(s), None)
  }

  /** Every event of the sequence can be taken from the state the previous
      ones leave. */
  predicate Runnable(limits: RiskLimits, s: RiskState, events: seq<RiskEvent>)
    decreases |events|
  {
    events == [] ||
    (StepAllowed(s, events[0]) && Runnable(limits, Step(limits, s, events[0]).0, events[1..]))
  }

  /** The final state and the verdicts of the attempts, in order. */
  function Run(limits: RiskLimits, s: RiskState, events: seq<RiskEvent>): (RiskState, seq<Verdict>)
    requires Runnable(limits, s, events)
    decreases |events|
  {
    if events == [] then (s, [])
    else
      var step := Step(limits, s, events[0]);
      var rest := Run(limits, step.0, events[1..]);
      (rest.0, (if step.1.Some? then [step.1.value] else []) + rest.1)
  }

  /** The circuit breaker latches: from a halted state, any sequence of
      attempts, P&L updates and further halts (but no resume) stays halted and
      rejects every attempt as halted, whatever the losses, gains or equity
      reported; with no further halt the reason is the original one. */
  lemma {:induction false} BreakerLatches(limits: RiskLimits, s: RiskState, events: seq<RiskEvent>)
    requires s.tradingHalted
    requires forall i :: 0 <= i < |events| ==> !events[i].ResumeCommand?
    ensures Runnable(limits, s, events)
    ensures Run(limits, s, events).0.tradingHalted
    ensures forall v :: v in Run(limits, s, events).1 ==> v.Rejected? && v.rejection.TradingHalted?
    ensures (forall i :: 0 <= i < |events| ==> !events[i].HaltCommand?) ==>
      && Run(limits, s, events).0.haltReason == s.haltReason
      && forall v :: v in Run(limits, s, events).1 ==> v == Rejected(TradingHalted(s.haltReason))
    decreases |events|
  {
    if events != [] {
      var step := Step(limits, s, events[0]);
      assert step.0.tradingHalted;
      assert !events[0].HaltCommand? ==> step.0.haltReason == s.haltReason;
      BreakerLatches(limits, step.0, events[1..]);
    }
  }

  /** The P&L amounts recorded by a sequence of events. */
  function PnlTotal(events: seq<RiskEvent>): real
    decreases |events|
  {
    if events == [] then 0.0
    else (if events[0].RecordPnl? then events[0].pnl else 0.0) + PnlTotal(events[1..])
  }

  /** Within one calendar day the daily tracker is the running sum of the
      recorded P&L: no reset happens until the date changes. */
  lemma {:induction false} DailyPnlSumsWithinDay(limits: RiskLimits, s: RiskState, events: seq<RiskEvent>)
    requires s.currentDate.Some?
    requires forall i :: 0 <= i < |events| ==>
      events[i].RecordPnl? && Day(events[i].timestamp) == Day(s.currentDate.value)
    ensures Runnable(limits, s, events)
    ensures Run(limits, s, events).0.dailyPnl == s.dailyPnl + PnlTotal(events)
    ensures Run(limits, s, events).0.currentDate == s.currentDate
    decreases |events|
  {
    if events != [] {
      var s1 := ApplyPnl(s, events[0].pnl, events[0].timestamp);
      assert SameDay(s.currentDate, events[0].timestamp);
      assert s1.currentDate == s.currentDate;
      DailyPnlSumsWithinDay(limits, s1, events[1..]);
    }
  }

  /** Every transition keeps the invariant. */
  lemma ValidateKeepsInvariant(limits: RiskLimits, s: RiskState, req: TradeRequest)
    requires RiskInvariant(s) && CanValidate(s, req)
    ensures RiskInvariant(Validate(limits, s, req).0)
  {
    if !s.tradingHalted {
      var t := Tracked(s, req);
      assert t.peakEquity > 0.0 || t.currentDrawdownPct == 0.0;
    }
  }

  /** A large gain trips the breaker exactly as a large loss does. */
  lemma GainTripsDailyBreaker(limits: RiskLimits, s: RiskState, req: TradeRequest)
    requires !s.tradingHalted && CanValidate(s, req)
    requires SameDay(s.currentDate, req.timestamp)
    requires s.dailyPnl >= limits.dailyLossLimit
    ensures Validate(limits, s, req).1 == Rejected(Failed(DailyLossLimit))
    ensures Validate(limits, s, req).0.haltReason == Some(DailyLossLimitExceeded)
  {
    assert Tracked(s, req).dailyPnl == s.dailyPnl;
  }

  /** The weekly limit rejects but never halts. */
  lemma WeeklyBreachDoesNotHalt(limits: RiskLimits, s: RiskState, req: TradeRequest)
    requires !s.tradingHalted && CanValidate(s, req)
    requires Validate(limits, s, req).1 == Rejected(Failed(WeeklyLossLimit))
    ensures !Validate(limits, s, req).0.tradingHalted
    ensures Validate(limits, s, req).0 == Tracked(s, req)
  {
  }

  /** Four losses of 25 on one day against the default daily limit of 100:
      the next attempt is rejected and trips the breaker, and a later
      attempt, however favourable, is rejected with the halt reason. */
  const ScenarioTime: int := Strategy.TestDay + 10 * 60
  const ScenarioTrade: TradeRequest := TradeRequest("AAPL", 150.0, 6, 10000.0, 0, ScenarioTime)

  lemma FourLossesTripTheBreaker()
    ensures var s0 := Validate(DefaultLimits, InitialState, ScenarioTrade);
      s0.1 == Approved &&
      var s4 := ApplyPnl(ApplyPnl(ApplyPnl(ApplyPnl(s0.0, -25.0, ScenarioTime), -25.0, ScenarioTime),
                                  -25.0, ScenarioTime), -25.0, ScenarioTime);
      var v5 := Validate(DefaultLimits, s4, ScenarioTrade);
      v5.1 == Rejected(Failed(DailyLossLimit)) &&
      v5.0.tradingHalted &&
      Validate(DefaultLimits, v5.0, ScenarioTrade.(price := 20.0, quantity := 1, accountEquity := 20000.0)).1
        == Rejected(TradingHalted(Some(DailyLossLimitExceeded)))
  {
    var s0 := Validate(DefaultLimits, InitialState, ScenarioTrade);
    assert s0.0.dailyPnl == 0.0 && s0.0.currentDate == Some(ScenarioTime);
    var s4 := ApplyPnl(ApplyPnl(ApplyPnl(ApplyPnl(s0.0, -25.0, ScenarioTime), -25.0, ScenarioTime),
                                -25.0, ScenarioTime), -25.0, ScenarioTime);
    assert s4.dailyPnl == -100.0;
  }

  // ---------------------------------------------------------------------------
  // The stateful gate

  class RiskManager {
    const limits: RiskLimits

    var dailyPnl: real
    var weeklyPnl: real
    var currentDate: Option<int>
    var weekStartDate: Option<int>
    var peakEquity: real
    var currentDrawdownPct: real
    var tradingHalted: bool
    var haltReason: Option<HaltReason>

    /** The fields as a tracker value. */
    function State(): RiskState
      reads this
    {
      RiskState(dailyPnl, weeklyPnl, currentDate, weekStartDate,
                peakEquity, currentDrawdownPct, tradingHalted, haltReason)
    }

    ghost predicate Valid()
      reads this
    {
      RiskInvariant(State())
    }

    constructor (limits: RiskLimits)
      ensures Valid()
      ensures this.limits == limits && State() == InitialState
    {
      this.limits := limits;
      dailyPnl := 0.0;
      weeklyPnl := 0.0;
      currentDate := None;
      weekStartDate := None;
      peakEquity := 0.0;
      currentDrawdownPct := 0.0;
      tradingHalted := false;
      haltReason := None;
    }

    method ResetDailyPnl(ts: int)
      requires Valid()
      modifies this
      ensures Valid()
      ensures State() == ResetDaily(old(State()), ts)
    {
      if currentDate.None? || Day(ts) != Day(currentDate.value) {
        dailyPnl := 0.0;
        currentDate := Some(ts);
      }
    }

    method ResetWeeklyPnl(ts: int)
      requires Valid()
      modifies this
      ensures Valid()
      ensures State() == ResetWeekly(old(State()), ts)
    {
      if weekStartDate.None? {
        weekStartDate := Some(ts);
        return;
      }
      var daysDiff := DaysBetween(weekStartDate.value, ts);
      if daysDiff >= 7 {
        weeklyPnl := 0.0;
        weekStartDate := Some(ts);
      }
    }

    method UpdatePnl(pnl: real, ts: int)
      requires Valid()
      modifies this
      ensures Valid()
      ensures State() == ApplyPnl(old(State()), pnl, ts)
    {
      ResetDailyPnl(ts);
      ResetWeeklyPnl(ts);
      dailyPnl := dailyPnl + pnl;
      weeklyPnl := weeklyPnl + pnl;
    }

    method UpdateDrawdown(currentEquity: real)
      requires Valid()
      requires currentEquity > peakEquity || peakEquity != 0.0
      modifies this
      ensures Valid()
      ensures State() == TrackDrawdown(old(State()), currentEquity)
    {
      if currentEquity > peakEquity {
        peakEquity := currentEquity;
        currentDrawdownPct := 0.0;
      } else {
        currentDrawdownPct := (peakEquity - currentEquity) / peakEquity * 100.0;
      }
    }

    /** check_position_limits: the count cap first, then a scan of the sector
      counts for one at its cap. */
    method CheckPositionLimits(currentPositions: int, sectorPositions: map<string, int>)
      returns (breached: bool)
      ensures breached == PositionLimitsBreached(limits, currentPositions, sectorPositions)
    {
      if currentPositions >= limits.maxPositions {
        return true;
      }
      var pending := sectorPositions.Keys;
      while pending != {}
        invariant pending <= sectorPositions.Keys
        invariant forall sector :: sector in sectorPositions && sector !in pending ==>
          sectorPositions[sector] < limits.maxSectorPositions
        decreases pending
      {
        var sector :| sector in pending;
        if sectorPositions[sector] >= limits.maxSectorPositions {
          return true;
        }
        pending := pending - {sector};
      }
      return false;
    }

    method HaltTrading(reason: HaltReason)
      modifies this
      ensures State() == Halt(old(State()), reason)
      ensures old(Valid()) ==> Valid()
    {
      tradingHalted := true;
      haltReason := Some(reason);
    }

    method ResumeTrading()
      modifies this
      ensures State() == Resume(old(State()))
      ensures old(Valid()) ==> Valid()
    {
      tradingHalted := false;
      haltReason := None;
    }

    method ValidateTrade(ticker: string, price: real, quantity: int, accountEquity: real,
                         currentPositions: int, timestamp: int) returns (verdict: Verdict)
      requires Valid()
      requires tradingHalted || accountEquity > peakEquity || peakEquity != 0.0
      modifies this
      ensures Valid()
      ensures (State(), verdict) ==
        Validate(limits, old(State()), TradeRequest(ticker, price, quantity, accountEquity, currentPositions, timestamp))
    {
      ghost var req := TradeRequest(ticker, price, quantity, accountEquity, currentPositions, timestamp);
      ghost var before := State();
      ValidateKeepsInvariant(limits, before, req);
      if tradingHalted {
        return Rejected(TradingHalted(haltReason));
      }
      ResetDailyPnl(timestamp);
      ResetWeeklyPnl(timestamp);
      UpdateDrawdown(accountEquity);
      assert State() == Tracked(before, req);
      if DailyLossLimitBreached(limits, State()) {
        HaltTrading(DailyLossLimitExceeded);
        return Rejected(Failed(DailyLossLimit));
      }
      if WeeklyLossLimitBreached(limits, State()) {
        return Rejected(Failed(WeeklyLossLimit));
      }
      if DrawdownLimitBreached(limits, State()) {
        HaltTrading(MaxDrawdownExceeded);
        return Rejected(Failed(DrawdownLimit));
      }
      var positionLimits := CheckPositionLimits(currentPositions, map[]);
      if positionLimits {
        return Rejected(Failed(PositionLimits));
      }
      var positionValue := price * quantity as real;
      if positionValue > limits.maxPositionSize {
        return Rejected(Failed(PositionSizeLimit));
      }
      if positionValue > accountEquity {
        return Rejected(Failed(InsufficientCapital));
      }
      return Approved;
    }
  }
}
