/** The performance summary of a backtest ledger: return, win rate, profit
    factor, averages and extremes of wins and losses, maximum drawdown and
    the cost totals. The Sharpe ratio is not part of this model. */
module Metrics {
  import opened Common
  import opened Backtest

  // ---------------------------------------------------------------------------
  // Sequence helpers

  /** Python's sum() over a list of floats. */
  function Sum(xs: seq<real>): real
  {
    if xs == [] then 0.0 else Sum(xs[..|xs| - 1]) + xs[|xs| - 1]
  }

  lemma {:induction false} SumAppend(xs: seq<real>, ys: seq<real>)
    ensures Sum(xs + ys) == Sum(xs) + Sum(ys)
    decreases |ys|
  {
    if ys == [] {
      assert xs + ys == xs;
    } else {
      var zs := xs + ys;
      assert zs[..|zs| - 1] == xs + ys[..|ys| - 1];
      SumAppend(xs, ys[..|ys| - 1]);
    }
  }

  /** The largest element, as Python's max(). */
  function MaxOf(xs: seq<real>): (r: real)
    requires xs != []
    ensures r in xs
    ensures forall i :: 0 <= i < |xs| ==> xs[i] <= r
  {
    if |xs| == 1 then xs[0]
    else
      var m := MaxOf(xs[..|xs| - 1]);
      assert forall i :: 0 <= i < |xs| - 1 ==> xs[..|xs| - 1][i] == xs[i];
      Max(m, xs[|xs| - 1])
  }

  // ---------------------------------------------------------------------------
  // Views of the trade log and the equity curve

  /** Number of trades with strictly negative P&L. */
  function CountLosses(trades: seq<Trade>): (n: nat)
    ensures n + CountWins(trades) <= |trades|
  {
    if trades == [] then 0
    else CountLosses(trades[..|trades| - 1]) + (if trades[|trades| - 1].pnl < 0.0 then 1 else 0)
  }

  /** Number of trades with P&L exactly zero. */
  function CountFlat(trades: seq<Trade>): (n: nat)
    ensures n <= |trades|
  {
    if trades == [] then 0
    else CountFlat(trades[..|trades| - 1]) + (if trades[|trades| - 1].pnl == 0.0 then 1 else 0)
  }

  /** The P&L of the winning trades (P&L > 0), in trade order. */
  function WinningPnls(trades: seq<Trade>): (w: seq<real>)
    ensures |w| == CountWins(trades)
    ensures forall i :: 0 <= i < |w| ==> w[i] > 0.0
  {
    if trades == [] then []
    else
      var last := trades[|trades| - 1];
      WinningPnls(trades[..|trades| - 1]) + (if last.pnl > 0.0 then [last.pnl] else [])
  }

  /** The magnitudes of the losing trades' P&L (P&L < 0, strictly), in trade
      order. */
  function LosingPnls(trades: seq<Trade>): (ls: seq<real>)
    ensures |ls| == CountLosses(trades)
    ensures forall i :: 0 <= i < |ls| ==> ls[i] > 0.0
  {
    if trades == [] then []
    else
      var last := trades[|trades| - 1];
      LosingPnls(trades[..|trades| - 1]) + (if last.pnl < 0.0 then [-last.pnl] else [])
  }

  /** The gross win: the P&L of the winning trades added up. */
  function GrossWin(trades: seq<Trade>): (g: real)
    ensures g >= 0.0
    ensures CountWins(trades) > 0 ==> g > 0.0
  {
    if trades == [] then 0.0
    else GrossWin(trades[..|trades| - 1]) + (if trades[|trades| - 1].pnl > 0.0 then trades[|trades| - 1].pnl else 0.0)
  }

  /** The gross loss: the magnitudes of the losing trades' P&L added up. */
  function GrossLoss(trades: seq<Trade>): (g: real)
    ensures g >= 0.0
    ensures CountLosses(trades) > 0 ==> g > 0.0
  {
    if trades == [] then 0.0
    else GrossLoss(trades[..|trades| - 1]) + (if trades[|trades| - 1].pnl < 0.0 then -trades[|trades| - 1].pnl else 0.0)
  }

  function Drawdowns(curve: seq<EquityPoint>): (d: seq<real>)
    ensures |d| == |curve|
    ensures forall i :: 0 <= i < |curve| ==> d[i] == curve[i].drawdown
  {
    seq(|curve|, i requires 0 <= i < |curve| => curve[i].drawdown)
  }

  function TotalCommission(trades: seq<Trade>): real
  {
    if trades == [] then 0.0 else TotalCommission(trades[..|trades| - 1]) + trades[|trades| - 1].commission
  }

  function TotalSlippage(trades: seq<Trade>): real
  {
    if trades == [] then 0.0 else TotalSlippage(trades[..|trades| - 1]) + trades[|trades| - 1].slippage
  }

  /** The mean of a list given by its total and its length (numpy's mean),
      or zero for an empty list. */
  function MeanOrZero(total: real, count: nat): (m: real)
    ensures count > 0 ==> m * count as real == total
    ensures count == 0 ==> m == 0.0
  {
    if count == 0 then 0.0 else total / count as real
  }

  function MaxOrZero(xs: seq<real>): (m: real)
    ensures xs != [] ==> m in xs && forall i :: 0 <= i < |xs| ==> xs[i] <= m
    ensures xs == [] ==> m == 0.0
  {
    if xs == [] then 0.0 else MaxOf(xs)
  }

  /** Return in percent of the starting capital. */
  function TotalReturn(startingCapital: real, finalEquity: real): (r: real)
    requires startingCapital != 0.0
    ensures r * startingCapital == (finalEquity - startingCapital) * 100.0
  {
    (finalEquity - startingCapital) / startingCapital * 100.0
  }

  /** Winning trades over all trades, in percent; zero when there are none. */
  function WinRate(winningTrades: nat, totalTrades: nat): (r: real)
    ensures totalTrades > 0 ==> r * totalTrades as real == winningTrades as real * 100.0
    ensures totalTrades == 0 ==> r == 0.0
  {
    if totalTrades > 0 then winningTrades as real / totalTrades as real * 100.0 else 0.0
  }

  /** Gross win over gross loss; zero when there is no loss. */
  function ProfitFactor(totalWins: real, totalLosses: real): (r: real)
    ensures totalLosses > 0.0 ==> r * totalLosses == totalWins
    ensures totalLosses <= 0.0 ==> r == 0.0
  {
    if totalLosses > 0.0 then totalWins / totalLosses else 0.0
  }

  // ---------------------------------------------------------------------------
  // The summary

  /** Either the four zeroed fields reported when there are no trades, or the
      full summary. */
  datatype Performance =
    | NoTrades(totalReturn: real, totalTrades: nat, winRate: real, profitFactor: real)
    | Summary(
        startingCapital: real,
        finalEquity: real,
        totalReturn: real,
        maxDrawdown: real,
        totalTrades: nat,
        winningTrades: nat,
        losingTrades: nat,
        winRate: real,
        profitFactor: real,
        avgWin: real,
        avgLoss: real,
        largestWin: real,
        largestLoss: real,
        totalCommission: real,
        totalSlippage: real)

  /** The return is relative to the starting capital, which the source
      divides by. */
  predicate CanSummarise(l: Ledger)
  {
    l.trades != [] ==> l.startingCapital != 0.0
  }

  /** get_performance_metrics without the Sharpe ratio; what each field
      means is stated by the lemmas below. The sums of the win and loss
      lists are GrossWin and GrossLoss (GrossWinIsListSum, GrossLossIsListSum). */
  function PerformanceMetrics(l: Ledger): (m: Performance)
    requires CanSummarise(l)
    ensures l.trades == [] ==> m == NoTrades(0.0, 0, 0.0, 0.0)
    ensures l.trades != [] ==> m.Summary? && m.startingCapital == l.startingCapital
    ensures m.Summary? ==>
      m.totalTrades == l.totalTrades && m.winningTrades == l.winningTrades && m.losingTrades == l.losingTrades
  {
    if l.trades == [] then NoTrades(0.0, 0, 0.0, 0.0)
    else
      var finalEquity := if |l.equityCurve| > 0 then l.equityCurve[|l.equityCurve| - 1].equity else l.startingCapital;
      var winningPnls := WinningPnls(l.trades);
      var losingPnls := LosingPnls(l.trades);
      var totalWins := GrossWin(l.trades);
      var totalLosses := GrossLoss(l.trades);
      Summary(l.startingCapital, finalEquity, TotalReturn(l.startingCapital, finalEquity),
              MaxOrZero(Drawdowns(l.equityCurve)), l.totalTrades, l.winningTrades, l.losingTrades,
              WinRate(l.winningTrades, l.totalTrades), ProfitFactor(totalWins, totalLosses),
              MeanOrZero(totalWins, |winningPnls|), MeanOrZero(totalLosses, |losingPnls|),
              MaxOrZero(winningPnls), MaxOrZero(losingPnls),
              TotalCommission(l.trades), TotalSlippage(l.trades))
  }

  // ---------------------------------------------------------------------------
  // Properties

  /** GrossWin is what sum() gives over the win list. */
  lemma {:induction false} GrossWinIsListSum(trades: seq<Trade>)
    ensures GrossWin(trades) == Sum(WinningPnls(trades))
    decreases |trades|
  {
    if trades != [] {
      var init := trades[..|trades| - 1];
      var last := trades[|trades| - 1];
      GrossWinIsListSum(init);
      if last.pnl > 0.0 {
        assert WinningPnls(trades) == WinningPnls(init) + [last.pnl];
        SumAppend(WinningPnls(init), [last.pnl]);
        SumSingleton(last.pnl);
      } else {
        assert WinningPnls(trades) == WinningPnls(init);
      }
    }
  }

  /** GrossLoss is what sum() gives over the loss list. */
  lemma {:induction false} GrossLossIsListSum(trades: seq<Trade>)
    ensures GrossLoss(trades) == Sum(LosingPnls(trades))
    decreases |trades|
  {
    if trades != [] {
      var init := trades[..|trades| - 1];
      var last := trades[|trades| - 1];
      GrossLossIsListSum(init);
      if last.pnl < 0.0 {
        assert LosingPnls(trades) == LosingPnls(init) + [-last.pnl];
        SumAppend(LosingPnls(init), [-last.pnl]);
        SumSingleton(-last.pnl);
      } else {
        assert LosingPnls(trades) == LosingPnls(init);
      }
    }
  }

  lemma SumSingleton(x: real)
    ensures Sum([x]) == x
  {
    assert [x][..0] == [];
  }

  /** Every trade is a win, a loss or break-even. */
  lemma {:induction false} OutcomesPartitionTrades(trades: seq<Trade>)
    ensures CountWins(trades) + CountLosses(trades) + CountFlat(trades) == |trades|
    decreases |trades|
  {
    if trades != [] {
      OutcomesPartitionTrades(trades[..|trades| - 1]);
    }
  }

  /** The final equity is the last recorded equity (the starting capital
      when nothing was recorded) and the return is its gain in percent of
      the starting capital. */
  lemma ReturnOfFinalEquity(l: Ledger)
    requires CanSummarise(l) && l.trades != []
    ensures var m := PerformanceMetrics(l);
      && m.finalEquity == (if l.equityCurve == [] then l.startingCapital else l.equityCurve[|l.equityCurve| - 1].equity)
      && m.totalReturn * l.startingCapital == (m.finalEquity - l.startingCapital) * 100.0
  {
  }

  /** The profit factor is the ratio of the sums of the win and loss lists,
      and zero when no trade lost money. */
  lemma ProfitFactorOfGrossTotals(l: Ledger)
    requires CanSummarise(l) && l.trades != []
    ensures PerformanceMetrics(l).profitFactor == ProfitFactor(Sum(WinningPnls(l.trades)), Sum(LosingPnls(l.trades)))
    ensures CountLosses(l.trades) == 0 ==> PerformanceMetrics(l).profitFactor == 0.0
  {
    var m := PerformanceMetrics(l);
    assert m.profitFactor == ProfitFactor(GrossWin(l.trades), GrossLoss(l.trades));
    GrossWinIsListSum(l.trades);
    GrossLossIsListSum(l.trades);
    if CountLosses(l.trades) == 0 {
      ZeroLossesZeroGross(l.trades);
    }
  }

  lemma {:induction false} ZeroLossesZeroGross(trades: seq<Trade>)
    requires CountLosses(trades) == 0
    ensures GrossLoss(trades) == 0.0
    decreases |trades|
  {
    if trades != [] {
      ZeroLossesZeroGross(trades[..|trades| - 1]);
    }
  }

  /** The maximum drawdown is the largest drawdown on the equity curve, or
      zero for an empty curve. */
  lemma MaxDrawdownIsLargestRecorded(l: Ledger)
    requires CanSummarise(l) && l.trades != []
    ensures var m := PerformanceMetrics(l);
      && (forall i :: 0 <= i < |l.equityCurve| ==> l.equityCurve[i].drawdown <= m.maxDrawdown)
      && (l.equityCurve != [] ==> exists i :: 0 <= i < |l.equityCurve| && l.equityCurve[i].drawdown == m.maxDrawdown)
      && (l.equityCurve == [] ==> m.maxDrawdown == 0.0)
  {
    var d := Drawdowns(l.equityCurve);
    if l.equityCurve != [] {
      var j :| 0 <= j < |d| && d[j] == MaxOrZero(d);
      assert l.equityCurve[j].drawdown == PerformanceMetrics(l).maxDrawdown;
    }
  }

  /** The average win is the mean of the gross win over the winning trades;
      with no winning trade both the average and the largest win are zero. */
  lemma AverageWin(l: Ledger)
    requires CanSummarise(l) && l.trades != []
    ensures PerformanceMetrics(l).avgWin == MeanOrZero(GrossWin(l.trades), CountWins(l.trades))
    ensures CountWins(l.trades) == 0 ==> PerformanceMetrics(l).largestWin == 0.0
  {
    var m := PerformanceMetrics(l);
    var w := WinningPnls(l.trades);
    assert m.avgWin == MeanOrZero(GrossWin(l.trades), |w|);
    assert m.largestWin == MaxOrZero(w);
  }

  /** The average loss is the mean of the gross loss over the losing trades;
      with no losing trade both the average and the largest loss are zero. */
  lemma AverageLoss(l: Ledger)
    requires CanSummarise(l) && l.trades != []
    ensures PerformanceMetrics(l).avgLoss == MeanOrZero(GrossLoss(l.trades), CountLosses(l.trades))
    ensures CountLosses(l.trades) == 0 ==> PerformanceMetrics(l).largestLoss == 0.0
  {
    var m := PerformanceMetrics(l);
    var ls := LosingPnls(l.trades);
    assert m.avgLoss == MeanOrZero(GrossLoss(l.trades), |ls|);
    assert m.largestLoss == MaxOrZero(ls);
  }

  lemma TotalSlippageAppend(trades: seq<Trade>, t: Trade)
    ensures TotalSlippage(trades + [t]) == TotalSlippage(trades) + t.slippage
    ensures TotalCommission(trades + [t]) == TotalCommission(trades) + t.commission
  {
    assert (trades + [t])[..|trades|] == trades;
  }

  /** The cost fields of the summary are read off the trade log. */
  lemma SummaryCostFields(l: Ledger)
    requires CanSummarise(l) && l.trades != []
    ensures PerformanceMetrics(l).totalSlippage == TotalSlippage(l.trades)
    ensures PerformanceMetrics(l).totalCommission == TotalCommission(l.trades)
  {
  }

  /** Closing a held position adds the slippage of both legs at the exit
      price (price * slippage_pct / 100 per share and leg) and two
      commissions to the trade log's cost totals. */
  lemma CloseAddsToTradeCosts(cfg: BacktestConfig, l: Ledger, ticker: string, ts: int, price: real,
                              reason: CloseReason)
    requires ticker in l.positions && CanClose(l, ticker)
    ensures var r := Close(cfg, l, ticker, ts, price, reason).0;
      var q := l.positions[ticker].quantity;
      && TotalSlippage(r.trades) == TotalSlippage(l.trades) + price * (cfg.slippagePct / 100.0) * q as real * 2.0
      && TotalCommission(r.trades) == TotalCommission(l.trades) + cfg.commissionPerTrade * 2.0
  {
    var c := Close(cfg, l, ticker, ts, price, reason);
    TotalSlippageAppend(l.trades, c.1.value);
  }

  /** The same for the totals the summary reports after the close. */
  lemma CloseAddsToCostTotals(cfg: BacktestConfig, l: Ledger, ticker: string, ts: int, price: real,
                              reason: CloseReason)
    requires ticker in l.positions && CanClose(l, ticker) && l.startingCapital != 0.0
    ensures var r := Close(cfg, l, ticker, ts, price, reason).0;
      var q := l.positions[ticker].quantity;
      && PerformanceMetrics(r).totalSlippage ==
           TotalSlippage(l.trades) + price * (cfg.slippagePct / 100.0) * q as real * 2.0
      && PerformanceMetrics(r).totalCommission == TotalCommission(l.trades) + cfg.commissionPerTrade * 2.0
  {
    var r := Close(cfg, l, ticker, ts, price, reason).0;
    CloseAddsToTradeCosts(cfg, l, ticker, ts, price, reason);
    SummaryCostFields(r);
  }

  /** On a reachable ledger the win rate is the share of trades with
      positive P&L, in percent. */
  lemma WinRateIsShareOfWins(cfg: BacktestConfig, l: Ledger)
    requires ValidLedger(cfg, l) && CanSummarise(l) && l.trades != []
    ensures PerformanceMetrics(l).winRate == WinRate(CountWins(l.trades), |l.trades|)
  {
    assert PerformanceMetrics(l).winRate == WinRate(l.winningTrades, l.totalTrades);
  }

  /** On a reachable ledger the losing counter also counts the break-even
      trades, which the loss list, the average loss and the profit factor
      leave out. */
  lemma LosingCounterIncludesBreakEven(cfg: BacktestConfig, l: Ledger)
    requires ValidLedger(cfg, l) && CanSummarise(l) && l.trades != []
    ensures PerformanceMetrics(l).losingTrades == CountLosses(l.trades) + CountFlat(l.trades)
  {
    OutcomesPartitionTrades(l.trades);
  }

  /** With no losing trade the profit factor is reported as zero, however
      large the wins. */
  lemma NoLossesMeansZeroProfitFactor(l: Ledger)
    requires CanSummarise(l) && l.trades != []
    requires forall i :: 0 <= i < |l.trades| ==> l.trades[i].pnl >= 0.0
    ensures PerformanceMetrics(l).profitFactor == 0.0
  {
    NoNegativeNoLosses(l.trades);
    ZeroLossesZeroGross(l.trades);
    assert PerformanceMetrics(l).profitFactor == ProfitFactor(GrossWin(l.trades), GrossLoss(l.trades));
  }

  lemma {:induction false} NoNegativeNoLosses(trades: seq<Trade>)
    requires forall i :: 0 <= i < |trades| ==> trades[i].pnl >= 0.0
    ensures CountLosses(trades) == 0
    decreases |trades|
  {
    if trades != [] {
      NoNegativeNoLosses(trades[..|trades| - 1]);
    }
  }

  /** With at least one losing trade the gross loss is positive, so the
      profit factor is the gross win over it rather than zero. */
  lemma LossMakesGrossLossPositive(trades: seq<Trade>, i: int)
    requires 0 <= i < |trades| && trades[i].pnl < 0.0
    ensures GrossLoss(trades) > 0.0
  {
    SomeLossCounted(trades, i);
  }

  lemma {:induction false} SomeLossCounted(trades: seq<Trade>, i: int)
    requires 0 <= i < |trades| && trades[i].pnl < 0.0
    ensures CountLosses(trades) > 0
    decreases |trades|
  {
    if i < |trades| - 1 {
      SomeLossCounted(trades[..|trades| - 1], i);
    }
  }

  /** The gross win less the gross loss is the net P&L of all trades:
      break-even trades appear on neither side. */
  lemma {:induction false} WinsMinusLossesIsNetPnl(trades: seq<Trade>)
    ensures GrossWin(trades) - GrossLoss(trades) == TotalPnl(trades)
    decreases |trades|
  {
    if trades != [] {
      WinsMinusLossesIsNetPnl(trades[..|trades| - 1]);
    }
  }

  /** A break-even trade is counted as a loss by the ledger's counters but
      adds nothing to the lists and totals the profit factor and averages
      use. */
  lemma BreakEvenTradeOutsideLossList(trades: seq<Trade>, t: Trade)
    requires t.pnl == 0.0
    ensures LosingPnls(trades + [t]) == LosingPnls(trades)
    ensures WinningPnls(trades + [t]) == WinningPnls(trades)
    ensures GrossLoss(trades + [t]) == GrossLoss(trades)
    ensures GrossWin(trades + [t]) == GrossWin(trades)
    ensures CountWins(trades + [t]) == CountWins(trades)
  {
    assert (trades + [t])[..|trades|] == trades;
  }

  /** Every winning trade is at most the largest win, every losing trade's
      loss at most the largest loss. */
  lemma LargestWinAndLossBound(l: Ledger, i: int)
    requires CanSummarise(l) && 0 <= i < |l.trades|
    ensures l.trades[i].pnl > 0.0 ==> l.trades[i].pnl <= PerformanceMetrics(l).largestWin
    ensures l.trades[i].pnl < 0.0 ==> -l.trades[i].pnl <= PerformanceMetrics(l).largestLoss
  {
    if l.trades[i].pnl > 0.0 {
      WinInWinningPnls(l.trades, i);
    }
    if l.trades[i].pnl < 0.0 {
      LossInLosingPnls(l.trades, i);
    }
  }

  lemma {:induction false} WinInWinningPnls(trades: seq<Trade>, i: int)
    requires 0 <= i < |trades| && trades[i].pnl > 0.0
    ensures trades[i].pnl in WinningPnls(trades)
    decreases |trades|
  {
    if i < |trades| - 1 {
      WinInWinningPnls(trades[..|trades| - 1], i);
    }
  }

  lemma {:induction false} LossInLosingPnls(trades: seq<Trade>, i: int)
    requires 0 <= i < |trades| && trades[i].pnl < 0.0
    ensures -trades[i].pnl in LosingPnls(trades)
    decreases |trades|
  {
    if i < |trades| - 1 {
      LossInLosingPnls(trades[..|trades| - 1], i);
    }
  }

  /** Every entry of the win list is the P&L of some winning trade. */
  lemma {:induction false} WinningPnlsAreWins(trades: seq<Trade>)
    ensures forall k :: 0 <= k < |WinningPnls(trades)| ==>
      exists i :: 0 <= i < |trades| && trades[i].pnl > 0.0 && trades[i].pnl == WinningPnls(trades)[k]
    decreases |trades|
  {
    if trades != [] {
      var init := trades[..|trades| - 1];
      WinningPnlsAreWins(init);
      var w := WinningPnls(trades);
      forall k | 0 <= k < |w|
        ensures exists i :: 0 <= i < |trades| && trades[i].pnl > 0.0 && trades[i].pnl == w[k]
      {
        if k < |WinningPnls(init)| {
          assert w[k] == WinningPnls(init)[k];
          var i :| 0 <= i < |init| && init[i].pnl > 0.0 && init[i].pnl == w[k];
          assert trades[i] == init[i];
        } else {
          assert trades[|trades| - 1].pnl == w[k];
        }
      }
    } else {
      assert WinningPnls(trades) == [];
    }
  }

  /** Every entry of the loss list is the magnitude of some losing trade's
      P&L. */
  lemma {:induction false} LosingPnlsAreLosses(trades: seq<Trade>)
    ensures forall k :: 0 <= k < |LosingPnls(trades)| ==>
      exists i :: 0 <= i < |trades| && trades[i].pnl < 0.0 && -trades[i].pnl == LosingPnls(trades)[k]
    decreases |trades|
  {
    if trades != [] {
      var init := trades[..|trades| - 1];
      LosingPnlsAreLosses(init);
      var ls := LosingPnls(trades);
      forall k | 0 <= k < |ls|
        ensures exists i :: 0 <= i < |trades| && trades[i].pnl < 0.0 && -trades[i].pnl == ls[k]
      {
        if k < |LosingPnls(init)| {
          assert ls[k] == LosingPnls(init)[k];
          var i :| 0 <= i < |init| && init[i].pnl < 0.0 && -init[i].pnl == ls[k];
          assert trades[i] == init[i];
        } else {
          assert -trades[|trades| - 1].pnl == ls[k];
        }
      }
    } else {
      assert LosingPnls(trades) == [];
    }
  }

  /** The largest win is the P&L of some winning trade when there is one,
      and the largest loss the magnitude of some losing trade's P&L. */
  lemma LargestWinAndLossAttained(l: Ledger)
    requires CanSummarise(l) && l.trades != []
    ensures CountWins(l.trades) > 0 ==>
      exists i :: 0 <= i < |l.trades| && l.trades[i].pnl > 0.0 && l.trades[i].pnl == PerformanceMetrics(l).largestWin
    ensures CountLosses(l.trades) > 0 ==>
      exists i :: 0 <= i < |l.trades| && l.trades[i].pnl < 0.0 && -l.trades[i].pnl == PerformanceMetrics(l).largestLoss
  {
    var w := WinningPnls(l.trades);
    var ls := LosingPnls(l.trades);
    assert PerformanceMetrics(l).largestWin == MaxOrZero(w);
    assert PerformanceMetrics(l).largestLoss == MaxOrZero(ls);
    if CountWins(l.trades) > 0 {
      WinningPnlsAreWins(l.trades);
      var k :| 0 <= k < |w| && w[k] == MaxOrZero(w);
    }
    if CountLosses(l.trades) > 0 {
      LosingPnlsAreLosses(l.trades);
      var k :| 0 <= k < |ls| && ls[k] == MaxOrZero(ls);
    }
  }

  /** When every trade paid the round-trip commission, the commission total
      is that amount times the number of trades. */
  lemma {:induction false} CommissionTotal(cfg: BacktestConfig, trades: seq<Trade>)
    requires forall i :: 0 <= i < |trades| ==> trades[i].commission == cfg.commissionPerTrade * 2.0
    ensures TotalCommission(trades) == cfg.commissionPerTrade * 2.0 * |trades| as real
    decreases |trades|
  {
    if trades != [] {
      CommissionTotal(cfg, trades[..|trades| - 1]);
    }
  }

  /** On a reachable ledger the commission total is twice the per-trade
      commission for every trade. */
  lemma ReachableCommission(cfg: BacktestConfig, l: Ledger)
    requires ValidLedger(cfg, l)
    ensures TotalCommission(l.trades) == cfg.commissionPerTrade * 2.0 * |l.trades| as real
  {
    CommissionTotal(cfg, l.trades);
  }

  /** The commission the summary reports on a reachable ledger: two
      commissions per trade. */
  lemma SummaryCommission(cfg: BacktestConfig, l: Ledger)
    requires ValidLedger(cfg, l) && CanSummarise(l) && l.trades != []
    ensures PerformanceMetrics(l).totalCommission == cfg.commissionPerTrade * 2.0 * |l.trades| as real
  {
    ReachableCommission(cfg, l);
    SummaryCostFields(l);
  }
}
