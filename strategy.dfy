/** The rule-based intraday strategy: entry evaluation on one annotated bar,
    prioritised exit rules on an open position, signal generation and the
    sizing and bracket-price helpers. Everything here is a pure decision over
    configuration fixed at construction. */
module Strategy {
  import opened Common

  /** Parameters read from the configuration dictionary, with its defaults. */
  datatype StrategyConfig = StrategyConfig(
    minStockPrice: real,
    maxStockPrice: real,
    rsiLower: real,
    rsiUpper: real,
    volumeMultiplier: real,
    minAtr: real,
    stopLossPct: real,
    takeProfitPct: real,
    trailingStopTriggerPct: real,
    trailingStopPct: real)

  const DefaultConfig: StrategyConfig :=
    StrategyConfig(20.0, 500.0, 40.0, 70.0, 1.2, 0.5, 1.0, 1.5, 1.0, 0.5)

  /** The fixed session times, as minutes after midnight Eastern time. */
  const TradingStart: int := 10 * 60
  const TradingEnd: int := 15 * 60
  const PositionCloseTime: int := 15 * 60 + 55

  /** One bar with the indicator columns attached; a missing or NaN indicator
      is None. */
  datatype Bar = Bar(
    timestamp: int,
    close: real,
    volume: nat,
    sma: Option<real>,
    rsi: Option<real>,
    volumeMa: Option<real>,
    atr: Option<real>)

  // ---------------------------------------------------------------------------
  // Session clock

  /** The entry window [10:00, 15:00], both ends included. */
  predicate IsTradingHours(ts: int)
  {
    TradingStart <= MinuteOfDay(ts) <= TradingEnd
  }

  /** The end-of-day close: at or after 15:55. */
  predicate ShouldClosePositions(ts: int)
  {
    MinuteOfDay(ts) >= PositionCloseTime
  }

  // ---------------------------------------------------------------------------
  // Entry rules

  /** The entry checks, in the order the strategy applies them. */
  datatype EntryCheck =
    | PriceBelowMinimum
    | PriceAboveMaximum
    | OutsideTradingHours
    | SmaMissing
    | NotAboveSma
    | RsiMissing
    | RsiOutOfRange
    | VolumeMaMissing
    | VolumeRatioLow
    | AtrMissing
    | AtrBelowMinimum

  datatype EntryDecision = Enter | Reject(check: EntryCheck)

  function EntryRank(c: EntryCheck): nat
  {
    match c
    case PriceBelowMinimum => 0
    case PriceAboveMaximum => 1
    case OutsideTradingHours => 2
    case SmaMissing => 3
    case NotAboveSma => 4
    case RsiMissing => 5
    case RsiOutOfRange => 6
    case VolumeMaMissing => 7
    case VolumeRatioLow => 8
    case AtrMissing => 9
    case AtrBelowMinimum => 10
  }

  /** volume / volume_ma below the multiplier. The bar's fields are numpy
      scalars, so a zero average yields +inf (or NaN for 0/0); neither compares
      below the multiplier, so a zero average never rejects. */
  predicate VolumeRatioBelow(cfg: StrategyConfig, volume: nat, volumeMa: real)
  {
    volumeMa != 0.0 && (volume as real) / volumeMa < cfg.volumeMultiplier
  }

  /** Each entry check on its own, independent of the order. */
  predicate EntryCheckFails(cfg: StrategyConfig, bar: Bar, ts: int, c: EntryCheck)
  {
    match c
    case PriceBelowMinimum => bar.close < cfg.minStockPrice
    case PriceAboveMaximum => bar.close > cfg.maxStockPrice
    case OutsideTradingHours => !IsTradingHours(ts)
    case SmaMissing => bar.sma.None?
    case NotAboveSma => bar.sma.Some? && bar.close <= bar.sma.value
    case RsiMissing => bar.rsi.None?
    case RsiOutOfRange =>
      bar.rsi.Some? && (bar.rsi.value < cfg.rsiLower || bar.rsi.value > cfg.rsiUpper)
    case VolumeMaMissing => bar.volumeMa.None?
    case VolumeRatioLow => bar.volumeMa.Some? && VolumeRatioBelow(cfg, bar.volume, bar.volumeMa.value)
    case AtrMissing => bar.atr.None?
    case AtrBelowMinimum => bar.atr.Some? && bar.atr.value < cfg.minAtr
  }

  /** Entry evaluation: the first failing check, in rank order, is the
      rejection; a bar is entered only when no check fails (and, by the second
      clause, a bar on which some check fails is rejected). */
  function CheckEntry(cfg: StrategyConfig, bar: Bar, ts: int): (d: EntryDecision)
    ensures d == Enter ==> forall c :: !EntryCheckFails(cfg, bar, ts, c)
    ensures d.Reject? ==> EntryCheckFails(cfg, bar, ts, d.check)
    ensures d.Reject? ==>
      forall c :: EntryRank(c) < EntryRank(d.check) ==> !EntryCheckFails(cfg, bar, ts, c)
  {
    var price := bar.close;
    if price < cfg.minStockPrice then
      Reject(PriceBelowMinimum)
    else if price > cfg.maxStockPrice then Reject(PriceAboveMaximum)
    else if !IsTradingHours(ts) then Reject(OutsideTradingHours)
    else if bar.sma.None? then Reject(SmaMissing)
    else if price <= bar.sma.value then Reject(NotAboveSma)
    else if bar.rsi.None? then Reject(RsiMissing)
    else if bar.rsi.value < cfg.rsiLower || bar.rsi.value > cfg.rsiUpper then Reject(RsiOutOfRange)
    else if bar.volumeMa.None? then Reject(VolumeMaMissing)
    else if VolumeRatioBelow(cfg, bar.volume, bar.volumeMa.value) then Reject(VolumeRatioLow)
    else if bar.atr.None? then Reject(AtrMissing)
    else if bar.atr.value < cfg.minAtr then Reject(AtrBelowMinimum)
    else Enter
  }

  // ---------------------------------------------------------------------------
  // Exit rules

  /** The exit rules, in priority order. */
  datatype ExitReason = StopLoss | TakeProfit | TimeStop | TrailingStop

  datatype ExitDecision = Hold | Exit(reason: ExitReason)

  function ExitRank(r: ExitReason): nat
  {
    match r
    case StopLoss => 0
    case TakeProfit => 1
    case TimeStop => 2
    case TrailingStop => 3
  }

  /** Unrealised P&L of the position in percent of the entry price. */
  function PnlPct(entryPrice: real, currentPrice: real): real
    requires entryPrice != 0.0
  {
    (currentPrice - entryPrice) / entryPrice * 100.0
  }

  /** The trailing rule is looked at only when a highest price is known, the
      gain strictly exceeds the trigger and no earlier rule fired. */
  predicate TrailingConsidered(cfg: StrategyConfig, entryPrice: real, currentPrice: real,
                               ts: int, highest: Option<real>)
    requires entryPrice != 0.0
  {
    var pnl := PnlPct(entryPrice, currentPrice);
    && !(pnl <= -cfg.stopLossPct)
    && !(pnl >= cfg.takeProfitPct)
    && !ShouldClosePositions(ts)
    && highest.Some?
    && pnl > cfg.trailingStopTriggerPct
  }

  /** Each exit rule on its own, independent of the priority order. */
  predicate ExitRuleMatches(cfg: StrategyConfig, entryPrice: real, currentPrice: real,
                            ts: int, highest: Option<real>, r: ExitReason)
    requires entryPrice != 0.0
  {
    var pnl := PnlPct(entryPrice, currentPrice);
    match r
    case StopLoss => pnl <= -cfg.stopLossPct
    case TakeProfit => pnl >= cfg.takeProfitPct
    case TimeStop => ShouldClosePositions(ts)
    case TrailingStop =>
      && highest.Some?
      && highest.value != 0.0
      && pnl > cfg.trailingStopTriggerPct
      && (currentPrice - highest.value) / highest.value * 100.0 <= -cfg.trailingStopPct
  }

  /** Exit evaluation: the first matching rule in priority order, or Hold
      exactly when none matches. A zero entry price, or a zero highest price reaching the
      trailing rule, divides by zero in the source. */
  function CheckExit(cfg: StrategyConfig, entryPrice: real, currentPrice: real,
                     ts: int, highest: Option<real>): (d: ExitDecision)
    requires entryPrice != 0.0
    requires TrailingConsidered(cfg, entryPrice, currentPrice, ts, highest) ==> highest.value != 0.0
    ensures d == Hold ==>
      forall r :: !ExitRuleMatches(cfg, entryPrice, currentPrice, ts, highest, r)
    ensures d.Exit? ==> ExitRuleMatches(cfg, entryPrice, currentPrice, ts, highest, d.reason)
    ensures d.Exit? ==>
      forall r :: ExitRank(r) < ExitRank(d.reason) ==>
        !ExitRuleMatches(cfg, entryPrice, currentPrice, ts, highest, r)
  {
    var pnl := PnlPct(entryPrice, currentPrice);
    if pnl <= -cfg.stopLossPct then
      Exit(StopLoss)
    else if pnl >= cfg.takeProfitPct then Exit(TakeProfit)
    else if ShouldClosePositions(ts) then Exit(TimeStop)
    else if highest.Some? && pnl > cfg.trailingStopTriggerPct then
      var drawdownFromHigh := (currentPrice - highest.value) / highest.value * 100.0;
      if drawdownFromHigh <= -cfg.trailingStopPct then Exit(TrailingStop) else Hold
    else Hold
  }

  // ---------------------------------------------------------------------------
  // Sizing and bracket prices

  /** Shares for a new position: the dollar budget is the smaller of the cap
      and 20% of the account, divided by the price and truncated, but never
      fewer than one share. A zero price divides by zero in the source. */
  function CalculatePositionSize(accountValue: real, price: real, maxPositionSize: real): (shares: int)
    requires price != 0.0
    ensures shares >= 1
    ensures var budget := Min(maxPositionSize, accountValue * 0.2);
      price > 0.0 && budget >= price ==>
        shares as real * price <= budget < (shares + 1) as real * price
    ensures var budget := Min(maxPositionSize, accountValue * 0.2);
      price > 0.0 && budget < price ==> shares == 1
  {
    var positionValue := Min(maxPositionSize, accountValue * 0.2);
    var shares := Trunc(positionValue / price);
    var r := if shares > 1 then shares else 1;
    if price > 0.0 && positionValue >= 0.0 then DivTruncBounds(positionValue, price); r else r
  }

  /** The default cap used by the driver. */
  const DefaultMaxPositionSize: real := 1000.0

  /** The stop-loss price is the price at which the stop-loss rule's
      boundary sits: exactly -stop_loss_pct from the entry. */
  function GetStopLossPrice(cfg: StrategyConfig, entryPrice: real): (p: real)
    ensures entryPrice != 0.0 ==> PnlPct(entryPrice, p) == -cfg.stopLossPct
    ensures entryPrice > 0.0 && cfg.stopLossPct > 0.0 ==> p < entryPrice
  {
    entryPrice * (1.0 - cfg.stopLossPct / 100.0)
  }

  /** The take-profit price sits exactly +take_profit_pct from the entry. */
  function GetTakeProfitPrice(cfg: StrategyConfig, entryPrice: real): (p: real)
    ensures entryPrice != 0.0 ==> PnlPct(entryPrice, p) == cfg.takeProfitPct
    ensures entryPrice > 0.0 && cfg.takeProfitPct > 0.0 ==> p > entryPrice
  {
    entryPrice * (1.0 + cfg.takeProfitPct / 100.0)
  }

  // ---------------------------------------------------------------------------
  // Signals

  datatype SignalKind = Buy | Sell

  /** A trading signal; the free-text reason is not modelled. */
  datatype Signal = Signal(ticker: string, kind: SignalKind, timestamp: int,
                           price: real, confidence: real)

  /** The three shapes a caller may pass for an open position: a bare ticker
      string, a record whose 'ticker' entry may be absent, or an object whose
      'ticker' attribute may be absent. All are read through Ticker(). */
  datatype PositionRef =
    | TickerName(name: string)
    | Record(recordTicker: Option<string>)
    | Holder(attrTicker: Option<string>)
  {
    function Ticker(): Option<string>
    {
      match this
      case TickerName(n) => Some(n)
      case Record(t) => t
      case Holder(t) => t
    }
  }

  predicate HoldsPosition(ticker: string, positions: seq<PositionRef>)
  {
    exists i :: 0 <= i < |positions| && positions[i].Ticker() == Some(ticker)
  }

  /** The linear search over the caller's positions, stopping at the first
      reference to the ticker. */
  method FindPosition(ticker: string, positions: seq<PositionRef>) returns (found: bool)
    ensures found <==> HoldsPosition(ticker, positions)
  {
    found := false;
    var i := 0;
    while i < |positions|
      invariant 0 <= i <= |positions|
      invariant forall j :: 0 <= j < i ==> positions[j].Ticker() != Some(ticker)
    {
      if positions[i].Ticker() == Some(ticker) {
        found := true;
        break;
      }
      i := i + 1;
    }
  }

  /** At most one buy signal for the ticker, priced at the latest close, and
      none when the frame is empty, the ticker is already held or the latest
      bar fails the entry rules. */
  method GenerateSignals(cfg: StrategyConfig, ticker: string, frame: seq<Bar>,
                         positions: seq<PositionRef>) returns (signals: seq<Signal>)
    ensures |signals| <= 1
    ensures frame == [] ==> signals == []
    ensures HoldsPosition(ticker, positions) ==> signals == []
    ensures signals != [] <==>
      && frame != []
      && !HoldsPosition(ticker, positions)
      && CheckEntry(cfg, frame[|frame| - 1], frame[|frame| - 1].timestamp) == Enter
    ensures signals != [] ==>
      signals[0] == Signal(ticker, Buy, frame[|frame| - 1].timestamp, frame[|frame| - 1].close, 1.0)
  {
    signals := [];
    if frame == [] {
      return;
    }
    var latest := frame[|frame| - 1];
    var hasPosition := FindPosition(ticker, positions);
    if !hasPosition {
      var decision := CheckEntry(cfg, latest, latest.timestamp);
      if decision == Enter {
        signals := signals + [Signal(ticker, Buy, latest.timestamp, latest.close, 1.0)];
      }
    }
  }

  // ---------------------------------------------------------------------------
  // Properties

  /** Both bracket rules are inclusive: a price exactly at the stop-loss price
      exits by stop loss. */
  lemma StopLossAtBoundary(cfg: StrategyConfig, entryPrice: real, ts: int, highest: Option<real>)
    requires entryPrice != 0.0
    ensures CheckExit(cfg, entryPrice, GetStopLossPrice(cfg, entryPrice), ts, highest) == Exit(StopLoss)
  {
  }

  /** A price exactly at the take-profit price exits by take profit, provided
      the stop-loss rule (checked first) does not already fire there. */
  lemma TakeProfitAtBoundary(cfg: StrategyConfig, entryPrice: real, ts: int, highest: Option<real>)
    requires entryPrice != 0.0
    requires cfg.takeProfitPct > -cfg.stopLossPct
    ensures CheckExit(cfg, entryPrice, GetTakeProfitPrice(cfg, entryPrice), ts, highest) == Exit(TakeProfit)
  {
  }

  /** With positive percentages the bracket surrounds the entry price. */
  lemma BracketSurroundsEntry(cfg: StrategyConfig, entryPrice: real)
    requires entryPrice > 0.0 && cfg.stopLossPct > 0.0 && cfg.takeProfitPct > 0.0
    ensures GetStopLossPrice(cfg, entryPrice) < entryPrice < GetTakeProfitPrice(cfg, entryPrice)
  {
  }

  /** The cases of the strategy's unit tests, under the default configuration
      (an 11:00 bar at 150 above an SMA of 148, RSI 55, volume ratio 1.2,
      ATR 1.5). */
  const TestDay: int := 19723 * MinutesPerDay
  const ValidBar: Bar := Bar(TestDay + 11 * 60, 150.0, 1200000, Some(148.0), Some(55.0), Some(1000000.0), Some(1.5))

  lemma EntryTestCases()
    ensures CheckEntry(DefaultConfig, ValidBar, ValidBar.timestamp) == Enter
    ensures CheckEntry(DefaultConfig, ValidBar, TestDay + 9 * 60) == Reject(OutsideTradingHours)
    ensures CheckEntry(DefaultConfig, ValidBar.(rsi := Some(75.0)), ValidBar.timestamp) == Reject(RsiOutOfRange)
    ensures CheckEntry(DefaultConfig, ValidBar.(volume := 900000), ValidBar.timestamp) == Reject(VolumeRatioLow)
    ensures CheckEntry(DefaultConfig, ValidBar.(close := 15.0, sma := Some(14.0)), ValidBar.timestamp)
            == Reject(PriceBelowMinimum)
  {
  }

  /** The entry bounds are inclusive except the SMA check: a price equal to
      the minimum, an RSI on either end of its range and an ATR equal to the
      minimum all pass, whereas a close equal to the SMA is rejected. */
  lemma EntryBoundaries()
    ensures CheckEntry(DefaultConfig, ValidBar.(close := 20.0, sma := Some(19.0)), ValidBar.timestamp) == Enter
    ensures CheckEntry(DefaultConfig, ValidBar.(rsi := Some(40.0)), ValidBar.timestamp) == Enter
    ensures CheckEntry(DefaultConfig, ValidBar.(rsi := Some(70.0)), ValidBar.timestamp) == Enter
    ensures CheckEntry(DefaultConfig, ValidBar.(atr := Some(0.5)), ValidBar.timestamp) == Enter
    ensures CheckEntry(DefaultConfig, ValidBar.(sma := Some(150.0)), ValidBar.timestamp) == Reject(NotAboveSma)
  {
  }

  /** A timestamp at a given minute of a given day. */
  lemma MinuteOfDayAt(day: int, m: int)
    requires 0 <= m < MinutesPerDay
    ensures MinuteOfDay(day * MinutesPerDay + m) == m
  {
  }

  /** On every day the entry window includes 10:00 and 15:00 and nothing
      outside them, and the end-of-day close starts exactly at 15:55. */
  lemma SessionClockBoundaries(day: int)
    ensures IsTradingHours(day * MinutesPerDay + TradingStart)
    ensures IsTradingHours(day * MinutesPerDay + TradingEnd)
    ensures !IsTradingHours(day * MinutesPerDay + TradingStart - 1)
    ensures !IsTradingHours(day * MinutesPerDay + TradingEnd + 1)
    ensures ShouldClosePositions(day * MinutesPerDay + PositionCloseTime)
    ensures !ShouldClosePositions(day * MinutesPerDay + PositionCloseTime - 1)
  {
    MinuteOfDayAt(day, TradingStart);
    MinuteOfDayAt(day, TradingEnd);
    MinuteOfDayAt(day, TradingStart - 1);
    MinuteOfDayAt(day, TradingEnd + 1);
    MinuteOfDayAt(day, PositionCloseTime);
    MinuteOfDayAt(day, PositionCloseTime - 1);
  }

  lemma ExitTestCases()
    ensures CheckExit(DefaultConfig, 150.0, 148.5, TestDay + 14 * 60, None) == Exit(StopLoss)
    ensures CheckExit(DefaultConfig, 150.0, 152.25, TestDay + 14 * 60, None) == Exit(TakeProfit)
    ensures CheckExit(DefaultConfig, 150.0, 150.5, TestDay + 15 * 60 + 55, None) == Exit(TimeStop)
  {
  }

  /** The trailing-stop unit test expects an exit for entry 150, current
      151.24 and highest 152; the gain there is about +0.83%, below the 1%
      trigger, so the code holds the position. */
  lemma TrailingTestInputHolds()
    ensures CheckExit(DefaultConfig, 150.0, 151.24, TestDay + 14 * 60, Some(152.0)) == Hold
  {
  }

  /** The sizing unit test: 10,000 of equity at 150 buys 6 shares (900). */
  lemma PositionSizeTestCase()
    ensures CalculatePositionSize(10000.0, 150.0, DefaultMaxPositionSize) == 6
  {
  }
}
