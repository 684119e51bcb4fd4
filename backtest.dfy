/** The backtest ledger: cash, open positions keyed by ticker, the trade log,
    the equity curve and the running statistics. The ledger is a value
    (Ledger) with pure transitions; BacktestEngine holds the same fields and
    its methods are proved to perform those transitions. */
module Backtest {
  import opened Common
  import Strategy

  datatype BacktestConfig = BacktestConfig(
    startingCapital: real,
    maxPositions: int,
    maxPositionSize: real,
    commissionPerTrade: real,
    slippagePct: real,
    dailyLossLimit: real,
    maxDrawdownPct: real)

  const DefaultConfig: BacktestConfig := BacktestConfig(10000.0, 5, 1000.0, 0.0, 0.05, 100.0, 15.0)

  /** An open position. Timestamps are minutes. */
  datatype Position = Position(
    ticker: string,
    entryTime: int,
    entryPrice: real,
    quantity: nat,
    stopLoss: real,
    takeProfit: real,
    highestPrice: real)

  /** Why a position was closed: one of the strategy's exit rules, the forced
      close at the end of the data, or any other caller-supplied text. */
  datatype CloseReason = RuleExit(rule: Strategy.ExitReason) | EndOfBacktest | OtherReason(text: string)

  datatype Trade = Trade(
    ticker: string,
    entryTime: int,
    exitTime: int,
    entryPrice: real,
    exitPrice: real,
    quantity: nat,
    pnl: real,
    pnlPct: real,
    exitReason: CloseReason,
    commission: real,
    slippage: real)

  datatype EquityPoint = EquityPoint(
    timestamp: int,
    equity: real,
    capital: real,
    positionValue: real,
    drawdown: real,
    numPositions: nat)

  datatype Ledger = Ledger(
    capital: real,
    startingCapital: real,
    positions: map<string, Position>,
    trades: seq<Trade>,
    equityCurve: seq<EquityPoint>,
    dailyPnl: real,
    peakEquity: real,
    currentDrawdown: real,
    totalTrades: nat,
    winningTrades: nat,
    losingTrades: nat)

  // ---------------------------------------------------------------------------
  // Positions

  /** Constructing a position: a highest price of zero (the default) is
      replaced by the entry price. */
  function NewPosition(ticker: string, entryTime: int, entryPrice: real, quantity: nat,
                       stopLoss: real, takeProfit: real, highestPrice: real): (p: Position)
    ensures p.highestPrice == (if highestPrice == 0.0 then entryPrice else highestPrice)
    ensures p == Position(ticker, entryTime, entryPrice, quantity, stopLoss, takeProfit, p.highestPrice)
  {
    Position(ticker, entryTime, entryPrice, quantity, stopLoss, takeProfit,
             if highestPrice == 0.0 then entryPrice else highestPrice)
  }

  /** The highest price only ratchets upward; nothing else changes. */
  function UpdateHighestPrice(p: Position, currentPrice: real): (q: Position)
    ensures q.highestPrice >= p.highestPrice && q.highestPrice >= currentPrice
    ensures q.highestPrice == p.highestPrice || q.highestPrice == currentPrice
    ensures q == p.(highestPrice := q.highestPrice)
  {
    p.(highestPrice := Max(p.highestPrice, currentPrice))
  }

  /** Unrealised P&L: positive exactly when a held quantity is above water. */
  function CalculatePnl(p: Position, currentPrice: real): (pnl: real)
    ensures p.quantity > 0 ==> (pnl > 0.0 <==> currentPrice > p.entryPrice)
    ensures p.quantity > 0 ==> (pnl < 0.0 <==> currentPrice < p.entryPrice)
    ensures p.quantity == 0 ==> pnl == 0.0
  {
    var diff := currentPrice - p.entryPrice;
    if p.quantity > 0 then MulPositive(diff, p.quantity as real); diff * p.quantity as real
    else diff * p.quantity as real
  }

  lemma MulPositive(d: real, q: real)
    requires q > 0.0
    ensures d > 0.0 <==> d * q > 0.0
    ensures d < 0.0 <==> d * q < 0.0
  {
    if d > 0.0 { MulStrictMonotone(0.0, d, q); }
    if d < 0.0 { MulStrictMonotone(d, 0.0, q); }
  }

  /** Unrealised P&L in percent of the entry price: the strategy's P&L
      percentage, scaled back it is the price difference. */
  function CalculatePnlPct(p: Position, currentPrice: real): (pct: real)
    requires p.entryPrice != 0.0
    ensures pct * p.entryPrice == (currentPrice - p.entryPrice) * 100.0
    ensures pct == Strategy.PnlPct(p.entryPrice, currentPrice)
  {
    (currentPrice - p.entryPrice) / p.entryPrice * 100.0
  }

  // ---------------------------------------------------------------------------
  // Fills

  /** Buying pays slippage: the fill is the price raised by slippage_pct. */
  function EntryFill(cfg: BacktestConfig, price: real): (fill: real)
    ensures fill == price * (1.0 + cfg.slippagePct / 100.0)
    ensures price > 0.0 && cfg.slippagePct >= 0.0 ==> fill >= price
  {
    price + price * (cfg.slippagePct / 100.0)
  }

  /** Selling pays slippage: the fill is the price lowered by slippage_pct. */
  function ExitFill(cfg: BacktestConfig, price: real): (fill: real)
    ensures fill == price * (1.0 - cfg.slippagePct / 100.0)
    ensures price > 0.0 && cfg.slippagePct >= 0.0 ==> fill <= price
  {
    price - price * (cfg.slippagePct / 100.0)
  }

  // ---------------------------------------------------------------------------
  // Trade-log summaries

  /** Number of trades with strictly positive P&L. */
  function CountWins(trades: seq<Trade>): (n: nat)
    ensures n <= |trades|
  {
    if trades == [] then 0
    else CountWins(trades[..|trades| - 1]) + (if trades[|trades| - 1].pnl > 0.0 then 1 else 0)
  }

  /** Sum of the trades' P&L. */
  function TotalPnl(trades: seq<Trade>): real
  {
    if trades == [] then 0.0 else TotalPnl(trades[..|trades| - 1]) + trades[|trades| - 1].pnl
  }

  // ---------------------------------------------------------------------------
  // The ledger

  /** The state after construction or reset: all capital in cash, no
      positions, no history, the peak at the starting capital. */
  function InitialLedger(cfg: BacktestConfig): (l: Ledger)
    ensures l.capital == l.startingCapital == l.peakEquity == cfg.startingCapital
    ensures l.positions == map[] && l.trades == [] && l.equityCurve == []
    ensures l.dailyPnl == 0.0 && l.currentDrawdown == 0.0
    ensures l.totalTrades == l.winningTrades == l.losingTrades == 0
  {
    Ledger(cfg.startingCapital, cfg.startingCapital, map[], [], [], 0.0, cfg.startingCapital, 0.0, 0, 0, 0)
  }

  /** What every reachable ledger satisfies.
      - the counters agree with the trade log; a zero-P&L trade is a loss;
      - the "daily" P&L is never reset between trades, so it is the sum of
        every trade's P&L since construction or reset;
      - each position is stored under its own ticker, and its highest price
        is at least its entry price;
      - the open-position count respects the cap;
      - every trade was charged the commission twice;
      - the peak never falls below the starting capital, and a positive
        peak has a non-negative drawdown. */
  ghost predicate ValidLedger(cfg: BacktestConfig, l: Ledger)
  {
    TradeLogAgrees(cfg, l) && PositionsWellFormed(cfg, l) && PeakAboveStart(cfg, l)
  }

  /** The counters, the running P&L and the per-trade commission agree with
      the trade log. */
  ghost predicate TradeLogAgrees(cfg: BacktestConfig, l: Ledger)
  {
    && l.totalTrades == |l.trades|
    && l.winningTrades + l.losingTrades == l.totalTrades
    && l.winningTrades == CountWins(l.trades)
    && l.dailyPnl == TotalPnl(l.trades)
    && (forall i :: 0 <= i < |l.trades| ==> l.trades[i].commission == cfg.commissionPerTrade * 2.0)
  }

  /** Each position is filed under its own ticker, its highest price is at
      least its entry price, and there are at most maxPositions of them. */
  ghost predicate PositionsWellFormed(cfg: BacktestConfig, l: Ledger)
  {
    && (forall t :: t in l.positions ==> l.positions[t].ticker == t)
    && (forall t :: t in l.positions ==> l.positions[t].highestPrice >= l.positions[t].entryPrice)
    && (|l.positions| == 0 || |l.positions| <= cfg.maxPositions)
  }

  ghost predicate PeakAboveStart(cfg: BacktestConfig, l: Ledger)
  {
    && l.startingCapital == cfg.startingCapital
    && l.peakEquity >= l.startingCapital
    && (l.peakEquity > 0.0 ==> l.currentDrawdown >= 0.0)
  }

  lemma InitialLedgerValid(cfg: BacktestConfig)
    ensures ValidLedger(cfg, InitialLedger(cfg))
  {
  }

  /** can_open_position: room for another position, cash of at least one
      maximum-size position, no daily-loss breach (by magnitude) and no
      drawdown breach. */
  predicate CanOpen(cfg: BacktestConfig, l: Ledger)
  {
    && |l.positions| < cfg.maxPositions
    && l.capital >= cfg.maxPositionSize
    && Abs(l.dailyPnl) < cfg.dailyLossLimit
    && l.currentDrawdown < cfg.maxDrawdownPct
  }

  /** The cash an entry takes: the filled cost plus one commission. */
  function EntryCost(cfg: BacktestConfig, price: real, quantity: nat): real
  {
    EntryFill(cfg, price) * quantity as real + cfg.commissionPerTrade
  }

  /** open_position. It fails, changing nothing, when the ticker is held,
      when the gate refuses, or when the cost exceeds the cash; otherwise it
      stores a position at the entry fill (highest price = fill) under the
      ticker, takes exactly the cost from cash and changes nothing else. */
  function Open(cfg: BacktestConfig, l: Ledger, ticker: string, ts: int, price: real, quantity: nat,
                stopLoss: real, takeProfit: real): (r: (Ledger, bool))
    ensures !r.1 <==>
      || ticker in l.positions
      || !CanOpen(cfg, l)
      || EntryCost(cfg, price, quantity) > l.capital
    ensures !r.1 ==> r.0 == l
    ensures r.1 ==>
      var fill := EntryFill(cfg, price);
      r.0 == l.(capital := l.capital - (fill * quantity as real + cfg.commissionPerTrade),
                positions := l.positions[ticker := Position(ticker, ts, fill, quantity, stopLoss, takeProfit, fill)])
  {
    if ticker in l.positions then (l, false)
    else if !CanOpen(cfg, l) then (l, false)
    else
      var actualEntryPrice := EntryFill(cfg, price);
      var totalCost := actualEntryPrice * quantity as real + cfg.commissionPerTrade;
      if totalCost > l.capital then (l, false)
      else
        var position := NewPosition(ticker, ts, actualEntryPrice, quantity, stopLoss, takeProfit, 0.0);
        (l.(capital := l.capital - totalCost, positions := l.positions[ticker := position]), true)
  }

  /** The record a close produces: the exit fill, the net P&L (fill minus
      entry, times quantity, minus one commission), the P&L percentage, the
      commission of both legs and the slippage of both legs at this price. */
  function CloseTrade(cfg: BacktestConfig, p: Position, ts: int, price: real, reason: CloseReason): (t: Trade)
    requires p.entryPrice != 0.0
    ensures t.exitPrice == ExitFill(cfg, price)
    ensures t.pnl == (t.exitPrice - p.entryPrice) * p.quantity as real - cfg.commissionPerTrade
    ensures t.pnlPct * p.entryPrice == (t.exitPrice - p.entryPrice) * 100.0
    ensures t.commission == cfg.commissionPerTrade * 2.0
    ensures t.slippage == price * (cfg.slippagePct / 100.0) * p.quantity as real * 2.0
    ensures t.ticker == p.ticker && t.entryTime == p.entryTime && t.exitTime == ts
    ensures t.entryPrice == p.entryPrice && t.quantity == p.quantity && t.exitReason == reason
  {
    var slippage := price * (cfg.slippagePct / 100.0);
    var actualExitPrice := price - slippage;
    var grossPnl := (actualExitPrice - p.entryPrice) * p.quantity as real;
    var netPnl := grossPnl - cfg.commissionPerTrade;
    var pnlPct := (actualExitPrice - p.entryPrice) / p.entryPrice * 100.0;
    Trade(p.ticker, p.entryTime, ts, p.entryPrice, actualExitPrice, p.quantity, netPnl, pnlPct,
          reason, cfg.commissionPerTrade * 2.0, slippage * p.quantity as real * 2.0)
  }

  /** Closing needs a non-zero entry price for the P&L percentage. */
  predicate CanClose(l: Ledger, ticker: string)
  {
    ticker in l.positions ==> l.positions[ticker].entryPrice != 0.0
  }

  /** close_position. An unheld ticker yields no trade and no change.
      Otherwise cash rises by the exit proceeds less one commission, the
      ticker is removed, exactly one trade is appended, the trade's P&L is
      added to the running P&L, and the win counter rises when that P&L is
      positive, the loss counter otherwise (so a zero P&L is a loss). */
  function Close(cfg: BacktestConfig, l: Ledger, ticker: string, ts: int, price: real, reason: CloseReason)
    : (r: (Ledger, Option<Trade>))
    requires CanClose(l, ticker)
    ensures ticker !in l.positions ==> r == (l, None)
    ensures ticker in l.positions ==>
      r.1.Some? &&
      var p := l.positions[ticker];
      var t := r.1.value;
      t == CloseTrade(cfg, p, ts, price, reason) &&
      r.0 == l.(capital := l.capital + (t.exitPrice * p.quantity as real - cfg.commissionPerTrade),
                positions := l.positions - {ticker},
                trades := l.trades + [t],
                dailyPnl := l.dailyPnl + t.pnl,
                totalTrades := l.totalTrades + 1,
                winningTrades := l.winningTrades + (if t.pnl > 0.0 then 1 else 0),
                losingTrades := l.losingTrades + (if t.pnl > 0.0 then 0 else 1))
  {
    if ticker !in l.positions then (l, None)
    else
      var p := l.positions[ticker];
      var trade := CloseTrade(cfg, p, ts, price, reason);
      var proceeds := trade.exitPrice * p.quantity as real;
      var l1 := l.(capital := l.capital + (proceeds - cfg.commissionPerTrade),
                   trades := l.trades + [trade],
                   totalTrades := l.totalTrades + 1,
                   dailyPnl := l.dailyPnl + trade.pnl);
      var l2 := if trade.pnl > 0.0 then l1.(winningTrades := l1.winningTrades + 1)
                else l1.(losingTrades := l1.losingTrades + 1);
      (l2.(positions := l2.positions - {ticker}), Some(trade))
  }

  /** update_positions: every held ticker with a price ratchets its highest
      price up to that price; unpriced tickers, the key set and everything
      else are unchanged. */
  function PriceUpdate(l: Ledger, prices: map<string, real>): (r: Ledger)
    ensures r.positions.Keys == l.positions.Keys
    ensures forall t :: t in l.positions ==>
      r.positions[t] == if t in prices then UpdateHighestPrice(l.positions[t], prices[t]) else l.positions[t]
    ensures forall t :: t in l.positions ==> r.positions[t].highestPrice >= l.positions[t].highestPrice
    ensures r == l.(positions := r.positions)
  {
    l.(positions := map t | t in l.positions ::
         if t in prices then UpdateHighestPrice(l.positions[t], prices[t]) else l.positions[t])
  }

  /** One held ticker's contribution to the marked value: its price times its
      quantity, or nothing when it has no price. */
  function PositionMark(positions: map<string, Position>, prices: map<string, real>, t: string): real
    requires t in positions
  {
    if t in prices then prices[t] * positions[t].quantity as real else 0.0
  }

  /** The sum of the marks over a set of held tickers. */
  ghost function ValueOver(keys: set<string>, positions: map<string, Position>, prices: map<string, real>): real
    requires keys <= positions.Keys
    decreases keys
  {
    if keys == {} then 0.0
    else
      var t :| t in keys;
      PositionMark(positions, prices, t) + ValueOver(keys - {t}, positions, prices)
  }

  /** The sum does not depend on which ticker is taken first. */
  lemma {:induction false} ValueOverRemove(keys: set<string>, positions: map<string, Position>,
                                           prices: map<string, real>, k: string)
    requires keys <= positions.Keys && k in keys
    ensures ValueOver(keys, positions, prices) ==
      PositionMark(positions, prices, k) + ValueOver(keys - {k}, positions, prices)
    decreases keys
  {
    var t :| t in keys && ValueOver(keys, positions, prices) ==
      PositionMark(positions, prices, t) + ValueOver(keys - {t}, positions, prices);
    if t != k {
      ValueOverRemove(keys - {t}, positions, prices, k);
      ValueOverRemove(keys - {k}, positions, prices, t);
      assert keys - {t} - {k} == keys - {k} - {t};
    }
  }

  /** The marked value of the open positions. */
  ghost function MarkToMarket(positions: map<string, Position>, prices: map<string, real>): real
  {
    ValueOver(positions.Keys, positions, prices)
  }

  /** With non-negative prices the marked value is non-negative. */
  lemma {:induction false} ValueOverNonNegative(keys: set<string>, positions: map<string, Position>,
                                                prices: map<string, real>)
    requires keys <= positions.Keys
    requires forall t :: t in prices ==> prices[t] >= 0.0
    ensures ValueOver(keys, positions, prices) >= 0.0
    decreases keys
  {
    if keys != {} {
      var t :| t in keys && ValueOver(keys, positions, prices) ==
        PositionMark(positions, prices, t) + ValueOver(keys - {t}, positions, prices);
      ValueOverNonNegative(keys - {t}, positions, prices);
      assert PositionMark(positions, prices, t) >= 0.0 by {
        if t in prices && positions[t].quantity > 0 {
          MulMonotone(0.0, prices[t], positions[t].quantity as real);
        }
      }
    }
  }

  /** Tickers without a price contribute nothing: with no held ticker priced,
      the marked value is zero (a data gap values the positions at zero). */
  lemma {:induction false} ValueOverUnpriced(keys: set<string>, positions: map<string, Position>,
                                             prices: map<string, real>)
    requires keys <= positions.Keys
    requires forall t :: t in keys ==> t !in prices
    ensures ValueOver(keys, positions, prices) == 0.0
    decreases keys
  {
    if keys != {} {
      var t :| t in keys && ValueOver(keys, positions, prices) ==
        PositionMark(positions, prices, t) + ValueOver(keys - {t}, positions, prices);
      ValueOverUnpriced(keys - {t}, positions, prices);
      assert PositionMark(positions, prices, t) == 0.0;
      assert ValueOver(keys - {t}, positions, prices) == 0.0;
    }
  }

  lemma MarkToMarketBounds(positions: map<string, Position>, prices: map<string, real>)
    ensures (forall t :: t in prices ==> prices[t] >= 0.0) ==> MarkToMarket(positions, prices) >= 0.0
    ensures (forall t :: t in positions ==> t !in prices) ==> MarkToMarket(positions, prices) == 0.0
  {
    if forall t :: t in prices ==> prices[t] >= 0.0 {
      ValueOverNonNegative(positions.Keys, positions, prices);
    }
    if forall t :: t in positions ==> t !in prices {
      ValueOverUnpriced(positions.Keys, positions, prices);
    }
  }

  /** The drawdown update divides by the peak unless the equity is a new high. */
  ghost predicate CanRecordEquity(l: Ledger, prices: map<string, real>)
  {
    l.capital + MarkToMarket(l.positions, prices) > l.peakEquity || l.peakEquity != 0.0
  }

  /** record_equity: equity is cash plus the marked value; a new high
      becomes the peak with zero drawdown, otherwise the drawdown is the
      percentage fall from the peak; exactly one point is appended. */
  ghost function EquityRecord(l: Ledger, ts: int, prices: map<string, real>): (r: Ledger)
    requires CanRecordEquity(l, prices)
    ensures var equity := l.capital + MarkToMarket(l.positions, prices);
      && r.peakEquity == Max(l.peakEquity, equity)
      && (equity > l.peakEquity ==> r.currentDrawdown == 0.0)
      && (equity <= l.peakEquity ==> r.currentDrawdown * l.peakEquity == (l.peakEquity - equity) * 100.0)
      && r.equityCurve == l.equityCurve +
           [EquityPoint(ts, equity, l.capital, MarkToMarket(l.positions, prices), r.currentDrawdown, |l.positions|)]
    ensures r == l.(peakEquity := r.peakEquity, currentDrawdown := r.currentDrawdown, equityCurve := r.equityCurve)
  {
    var positionValue := MarkToMarket(l.positions, prices);
    var totalEquity := l.capital + positionValue;
    var pd := PeakAndDrawdown(l.peakEquity, totalEquity);
    l.(peakEquity := pd.0, currentDrawdown := pd.1,
       equityCurve := l.equityCurve + [EquityPoint(ts, totalEquity, l.capital, positionValue, pd.1, |l.positions|)])
  }

  // ---------------------------------------------------------------------------
  // Invariant preservation

  lemma CountWinsAppend(trades: seq<Trade>, t: Trade)
    ensures CountWins(trades + [t]) == CountWins(trades) + (if t.pnl > 0.0 then 1 else 0)
    ensures TotalPnl(trades + [t]) == TotalPnl(trades) + t.pnl
  {
    assert (trades + [t])[..|trades|] == trades;
  }

  lemma OpenKeepsValid(cfg: BacktestConfig, l: Ledger, ticker: string, ts: int, price: real, quantity: nat,
                       stopLoss: real, takeProfit: real)
    requires ValidLedger(cfg, l)
    ensures ValidLedger(cfg, Open(cfg, l, ticker, ts, price, quantity, stopLoss, takeProfit).0)
  {
  }

  lemma CloseKeepsValid(cfg: BacktestConfig, l: Ledger, ticker: string, ts: int, price: real, reason: CloseReason)
    requires ValidLedger(cfg, l) && CanClose(l, ticker)
    ensures ValidLedger(cfg, Close(cfg, l, ticker, ts, price, reason).0)
  {
    if ticker in l.positions {
      var r := Close(cfg, l, ticker, ts, price, reason);
      CountWinsAppend(l.trades, r.1.value);
      assert r.0.positions.Keys == l.positions.Keys - {ticker};
      assert |r.0.positions.Keys| < |l.positions.Keys|;
    }
  }

  lemma UpdatePositionsKeepsValid(cfg: BacktestConfig, l: Ledger, prices: map<string, real>)
    requires ValidLedger(cfg, l)
    ensures ValidLedger(cfg, PriceUpdate(l, prices))
  {
    var r := PriceUpdate(l, prices);
    assert r.positions.Keys == l.positions.Keys;
    assert |r.positions| == |r.positions.Keys|;
  }

  lemma RecordEquityKeepsValid(cfg: BacktestConfig, l: Ledger, ts: int, prices: map<string, real>)
    requires ValidLedger(cfg, l) && CanRecordEquity(l, prices)
    ensures ValidLedger(cfg, EquityRecord(l, ts, prices))
  {
  }

  // ---------------------------------------------------------------------------
  // Operation sequences

  /** The ledger operations a driver can issue. */
  datatype LedgerOp =
    | OpenOp(ticker: string, ts: int, price: real, quantity: nat, stopLoss: real, takeProfit: real)
    | CloseOp(ticker: string, ts: int, price: real, reason: CloseReason)
    | UpdateOp(prices: map<string, real>)
    | RecordOp(ts: int, prices: map<string, real>)
    | ResetOp

  ghost predicate OpAllowed(l: Ledger, op: LedgerOp)
  {
    match op
    case CloseOp(ticker, _, _, _) => CanClose(l, ticker)
    case RecordOp(_, prices) => CanRecordEquity(l, prices)
    case _ => true
  }

  ghost function Apply(cfg: BacktestConfig, l: Ledger, op: LedgerOp): Ledger
    requires OpAllowed(l, op)
  {
    match op
    case OpenOp(ticker, ts, price, quantity, sl, tp) => Open(cfg, l, ticker, ts, price, quantity, sl, tp).0
    case CloseOp(ticker, ts, price, reason) => Close(cfg, l, ticker, ts, price, reason).0
    case UpdateOp(prices) => PriceUpdate(l, prices)
    case RecordOp(ts, prices) => EquityRecord(l, ts, prices)
    case ResetOp => InitialLedger(cfg)
  }

  /** Applies the operations in order, stopping at the first one that cannot
      be applied (a division by zero in the source); returns the ledger and
      how many were applied. */
  ghost function RunOps(cfg: BacktestConfig, l: Ledger, ops: seq<LedgerOp>): (r: (Ledger, nat))
    ensures r.1 <= |ops|
    decreases |ops|
  {
    if ops == [] || !OpAllowed(l, ops[0]) then (l, 0)
    else
      var rest := RunOps(cfg, Apply(cfg, l, ops[0]), ops[1..]);
      (rest.0, rest.1 + 1)
  }

  /** After any sequence of operations from a valid ledger (in particular
      from construction), the counters agree with the trade log, the running
      P&L is the sum of the trades' P&L, tickers are unique keys and the peak
      never fell below the starting capital. */
  lemma {:induction false} RunOpsKeepsValid(cfg: BacktestConfig, l: Ledger, ops: seq<LedgerOp>)
    requires ValidLedger(cfg, l)
    ensures var r := RunOps(cfg, l, ops).0;
      && ValidLedger(cfg, r)
      && r.winningTrades + r.losingTrades == r.totalTrades == |r.trades|
    decreases |ops|
  {
    if ops != [] && OpAllowed(l, ops[0]) {
      match ops[0] {
      case OpenOp(ticker, ts, price, quantity, sl, tp) =>
        OpenKeepsValid(cfg, l, ticker, ts, price, quantity, sl, tp);
      case CloseOp(ticker, ts, price, reason) =>
        CloseKeepsValid(cfg, l, ticker, ts, price, reason);
      case UpdateOp(prices) =>
        UpdatePositionsKeepsValid(cfg, l, prices);
      case RecordOp(ts, prices) =>
        RecordEquityKeepsValid(cfg, l, ts, prices);
      case ResetOp =>
        InitialLedgerValid(cfg);
      }
      RunOpsKeepsValid(cfg, Apply(cfg, l, ops[0]), ops[1..]);
    }
  }

  // ---------------------------------------------------------------------------
  // Properties of open and close

  /** What a successful open leaves behind, in the terms a later close needs. */
  lemma OpenEffects(cfg: BacktestConfig, l: Ledger, ticker: string, ts: int, price: real, quantity: nat,
                    stopLoss: real, takeProfit: real)
    requires Open(cfg, l, ticker, ts, price, quantity, stopLoss, takeProfit).1
    ensures var m := Open(cfg, l, ticker, ts, price, quantity, stopLoss, takeProfit).0;
      && ticker !in l.positions
      && ticker in m.positions
      && m.positions - {ticker} == l.positions
      && m.positions[ticker].entryPrice == EntryFill(cfg, price)
      && m.positions[ticker].quantity == quantity
      && m.capital == l.capital - (EntryFill(cfg, price) * quantity as real + cfg.commissionPerTrade)
      && m.trades == l.trades
  {
    assert ticker !in l.positions;
  }

  /** What a close of a held ticker does to cash, positions and the log. */
  lemma CloseEffects(cfg: BacktestConfig, m: Ledger, ticker: string, ts: int, price: real, reason: CloseReason)
    requires ticker in m.positions && CanClose(m, ticker)
    ensures var r := Close(cfg, m, ticker, ts, price, reason);
      var p := m.positions[ticker];
      && r.1.Some?
      && r.0.positions == m.positions - {ticker}
      && r.0.capital == m.capital + (ExitFill(cfg, price) * p.quantity as real - cfg.commissionPerTrade)
      && r.1.value.pnl == ExitFill(cfg, price) * p.quantity as real - p.entryPrice * p.quantity as real
                          - cfg.commissionPerTrade
      && |r.0.trades| == |m.trades| + 1
  {
    var p := m.positions[ticker];
    var t := Close(cfg, m, ticker, ts, price, reason).1.value;
    assert (t.exitPrice - p.entryPrice) * p.quantity as real
        == t.exitPrice * p.quantity as real - p.entryPrice * p.quantity as real;
  }

  /** Opening and then closing the same ticker restores the position map and
      moves cash by exactly (exit fill * q - c) - (entry fill * q + c); the
      cash change is the trade's P&L less the entry commission, which that
      P&L does not include. */
  lemma RoundTripConservation(cfg: BacktestConfig, l: Ledger, ticker: string, ts: int, price: real,
                              quantity: nat, stopLoss: real, takeProfit: real,
                              exitTs: int, exitPrice: real, reason: CloseReason)
    requires Open(cfg, l, ticker, ts, price, quantity, stopLoss, takeProfit).1
    requires EntryFill(cfg, price) != 0.0
    ensures var afterOpen := Open(cfg, l, ticker, ts, price, quantity, stopLoss, takeProfit).0;
      CanClose(afterOpen, ticker) &&
      var closed := Close(cfg, afterOpen, ticker, exitTs, exitPrice, reason);
      && closed.1.Some?
      && closed.0.positions == l.positions
      && closed.0.capital ==
           l.capital - (EntryFill(cfg, price) * quantity as real + cfg.commissionPerTrade)
                     + (ExitFill(cfg, exitPrice) * quantity as real - cfg.commissionPerTrade)
      && closed.0.capital - l.capital == closed.1.value.pnl - cfg.commissionPerTrade
      && |closed.0.trades| == |l.trades| + 1
  {
    OpenEffects(cfg, l, ticker, ts, price, quantity, stopLoss, takeProfit);
    var afterOpen := Open(cfg, l, ticker, ts, price, quantity, stopLoss, takeProfit).0;
    CloseEffects(cfg, afterOpen, ticker, exitTs, exitPrice, reason);
  }

  /** A close at exactly break-even counts as a loss and adds nothing to the
      running P&L. */
  lemma BreakEvenCloseCountsAsLoss(cfg: BacktestConfig, l: Ledger, ticker: string, ts: int, price: real,
                                   reason: CloseReason)
    requires ticker in l.positions && CanClose(l, ticker)
    requires CloseTrade(cfg, l.positions[ticker], ts, price, reason).pnl == 0.0
    ensures var r := Close(cfg, l, ticker, ts, price, reason).0;
      r.losingTrades == l.losingTrades + 1 && r.winningTrades == l.winningTrades && r.dailyPnl == l.dailyPnl
  {
  }

  /** The worked example: 6 AAPL at 150 with 0.05% slippage fills at 150.075
      and leaves 9099.55 of 10000; the mark at 152.5 is a new peak of
      10014.55; closing at 152.5 fills at 152.42375, books a P&L of 14.0925
      and a win, and leaves 10014.0925 in cash. */
  lemma ExampleRoundTrip()
    ensures var l0 := InitialLedger(DefaultConfig);
      var o := Open(DefaultConfig, l0, "AAPL", Strategy.TestDay + 600, 150.0, 6, 148.5, 152.25);
      && o.1
      && o.0.positions["AAPL"].entryPrice == 150.075
      && o.0.capital == 9099.55
      && var c := Close(DefaultConfig, o.0, "AAPL", Strategy.TestDay + 870, 152.5, RuleExit(Strategy.TakeProfit));
      && c.1.Some?
      && c.1.value.exitPrice == 152.42375
      && c.1.value.pnl == 14.0925
      && c.0.capital == 10014.0925
      && c.0.winningTrades == 1 && c.0.losingTrades == 0
  {
  }

  lemma ExampleMark()
    ensures var l0 := InitialLedger(DefaultConfig);
      var o := Open(DefaultConfig, l0, "AAPL", Strategy.TestDay + 600, 150.0, 6, 148.5, 152.25).0;
      var u := PriceUpdate(o, map["AAPL" := 152.5]);
      && u.positions["AAPL"].highestPrice == 152.5
      && MarkToMarket(u.positions, map["AAPL" := 152.5]) == 915.0
      && CanRecordEquity(u, map["AAPL" := 152.5])
      && EquityRecord(u, Strategy.TestDay + 840, map["AAPL" := 152.5]).peakEquity == 10014.55
      && EquityRecord(u, Strategy.TestDay + 840, map["AAPL" := 152.5]).currentDrawdown == 0.0
  {
    var l0 := InitialLedger(DefaultConfig);
    var o := Open(DefaultConfig, l0, "AAPL", Strategy.TestDay + 600, 150.0, 6, 148.5, 152.25).0;
    var u := PriceUpdate(o, map["AAPL" := 152.5]);
    var prices := map["AAPL" := 152.5];
    assert u.positions.Keys == {"AAPL"};
    ValueOverRemove(u.positions.Keys, u.positions, prices, "AAPL");
    assert u.positions.Keys - {"AAPL"} == {};
  }

  /** The marking loop of record_equity: walks the held tickers and adds
      price times quantity for each one that has a price. */
  method SumMarks(held: map<string, Position>, prices: map<string, real>) returns (positionValue: real)
    ensures positionValue == MarkToMarket(held, prices)
  {
    positionValue := 0.0;
    var pending := held.Keys;
    while pending != {}
      invariant pending <= held.Keys
      invariant positionValue + ValueOver(pending, held, prices) == ValueOver(held.Keys, held, prices)
      decreases pending
    {
      var ticker :| ticker in pending;
      ValueOverRemove(pending, held, prices, ticker);
      if ticker in prices {
        positionValue := positionValue + prices[ticker] * held[ticker].quantity as real;
      }
      pending := pending - {ticker};
    }
  }

  // ---------------------------------------------------------------------------
  // The stateful engine

  class BacktestEngine {
    const config: BacktestConfig

    var capital: real
    var startingCapital: real
    var positions: map<string, Position>
    var trades: seq<Trade>
    var equityCurve: seq<EquityPoint>
    var dailyPnl: real
    var peakEquity: real
    var currentDrawdown: real
    var totalTrades: nat
    var winningTrades: nat
    var losingTrades: nat

    /** The fields as a ledger value. */
    function Snapshot(): Ledger
      reads this
    {
      Ledger(capital, startingCapital, positions, trades, equityCurve, dailyPnl,
             peakEquity, currentDrawdown, totalTrades, winningTrades, losingTrades)
    }

    ghost predicate Valid()
      reads this
    {
      ValidLedger(config, Snapshot())
    }

    constructor (config: BacktestConfig)
      ensures Valid()
      ensures this.config == config && Snapshot() == InitialLedger(config)
    {
      this.config := config;
      capital := config.startingCapital;
      startingCapital := config.startingCapital;
      positions := map[];
      trades := [];
      equityCurve := [];
      dailyPnl := 0.0;
      peakEquity := config.startingCapital;
      currentDrawdown := 0.0;
      totalTrades := 0;
      winningTrades := 0;
      losingTrades := 0;
    }

    method Reset()
      modifies this
      ensures Snapshot() == InitialLedger(config)
      ensures Valid()
    {
      capital := config.startingCapital;
      startingCapital := config.startingCapital;
      positions := map[];
      trades := [];
      equityCurve := [];
      dailyPnl := 0.0;
      peakEquity := config.startingCapital;
      currentDrawdown := 0.0;
      totalTrades := 0;
      winningTrades := 0;
      losingTrades := 0;
      InitialLedgerValid(config);
    }

    predicate CanOpenPosition()
      reads this
    {
      CanOpen(config, Snapshot())
    }

    method OpenPosition(ticker: string, ts: int, price: real, quantity: nat, stopLoss: real, takeProfit: real)
      returns (success: bool)
      requires Valid()
      modifies this
      ensures (Snapshot(), success) == Open(config, old(Snapshot()), ticker, ts, price, quantity, stopLoss, takeProfit)
      ensures Valid()
    {
      if ticker in positions {
        return false;
      }
      if !CanOpenPosition() {
        return false;
      }
      var slippage := price * (config.slippagePct / 100.0);
      var actualEntryPrice := price + slippage;
      var positionCost := actualEntryPrice * quantity as real;
      var totalCost := positionCost + config.commissionPerTrade;
      if totalCost > capital {
        return false;
      }
      var position := NewPosition(ticker, ts, actualEntryPrice, quantity, stopLoss, takeProfit, 0.0);
      capital := capital - totalCost;
      positions := positions[ticker := position];
      assert actualEntryPrice == EntryFill(config, price);
      ghost var expected := Open(config, old(Snapshot()), ticker, ts, price, quantity, stopLoss, takeProfit);
      assert expected.1;
      assert Snapshot().capital == expected.0.capital;
      assert Snapshot().positions == expected.0.positions;
      OpenKeepsValid(config, old(Snapshot()), ticker, ts, price, quantity, stopLoss, takeProfit);
      return true;
    }

    method ClosePosition(ticker: string, ts: int, price: real, reason: CloseReason) returns (trade: Option<Trade>)
      requires Valid() && CanClose(Snapshot(), ticker)
      modifies this
      ensures (Snapshot(), trade) == Close(config, old(Snapshot()), ticker, ts, price, reason)
      ensures Valid()
    {
      if ticker !in positions {
        return None;
      }
      var position := positions[ticker];
      ghost var expected := Close(config, Snapshot(), ticker, ts, price, reason);
      var t := CloseTrade(config, position, ts, price, reason);
      var proceeds := t.exitPrice * position.quantity as real;
      capital := capital + (proceeds - config.commissionPerTrade);
      trades := trades + [t];
      totalTrades := totalTrades + 1;
      dailyPnl := dailyPnl + t.pnl;
      if t.pnl > 0.0 {
        winningTrades := winningTrades + 1;
      } else {
        losingTrades := losingTrades + 1;
      }
      positions := positions - {ticker};
      assert expected.1 == Some(t);
      assert Snapshot() == expected.0;
      CloseKeepsValid(config, old(Snapshot()), ticker, ts, price, reason);
      return Some(t);
    }

    /** Walks the held tickers, ratcheting the highest price of each one
        that has a current price. */
    method UpdatePositions(prices: map<string, real>, ts: int)
      requires Valid()
      modifies this
      ensures Snapshot() == PriceUpdate(old(Snapshot()), prices)
      ensures Valid()
    {
      UpdatePositionsKeepsValid(config, Snapshot(), prices);
      var held := positions;
      var updated := held;
      var pending := held.Keys;
      while pending != {}
        invariant pending <= held.Keys
        invariant updated.Keys == held.Keys
        invariant forall t :: t in held ==>
          updated[t] == if t !in pending && t in prices then UpdateHighestPrice(held[t], prices[t]) else held[t]
        decreases pending
      {
        var ticker :| ticker in pending;
        if ticker in prices {
          updated := updated[ticker := UpdateHighestPrice(updated[ticker], prices[ticker])];
        }
        pending := pending - {ticker};
      }
      positions := updated;
    }

    /** Sums the marks of the held tickers, then applies the drawdown rule
        and appends one equity point. */
    method RecordEquity(ts: int, prices: map<string, real>)
      requires Valid() && CanRecordEquity(Snapshot(), prices)
      modifies this
      ensures Snapshot() == EquityRecord(old(Snapshot()), ts, prices)
      ensures Valid()
    {
      var positionValue := SumMarks(positions, prices);
      var totalEquity := capital + positionValue;
      if totalEquity > peakEquity {
        peakEquity := totalEquity;
        currentDrawdown := 0.0;
      } else {
        currentDrawdown := (peakEquity - totalEquity) / peakEquity * 100.0;
      }
      equityCurve := equityCurve + [EquityPoint(ts, totalEquity, capital, positionValue, currentDrawdown, |positions|)];
      RecordEquityKeepsValid(config, old(Snapshot()), ts, prices);
    }
  }
}
