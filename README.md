# Intraday backtester core in Dafny

This project models the simulation and risk-control core of a rule-based intraday stock backtester. The core has three parts.

- **Strategy** (`strategy.dfy`, module `Strategy`). Pure decisions over a fixed configuration:
  - entry evaluation on one bar with its indicator columns (SMA, RSI, volume average, ATR);
  - the prioritised exit rules of an open position (stop loss, take profit, end-of-day time stop, trailing stop);
  - buy-signal generation, share sizing, and the stop-loss and take-profit prices.
- **Risk gate** (`risk.dfy`, module `Risk`):
  - daily and weekly P&L trackers that reset on date boundaries;
  - peak-equity and drawdown tracking, and the four limit checks;
  - position sizing;
  - `validate_trade`, a fixed-order check chain with a latched circuit breaker.

  The tracker is a value, `RiskState`, with pure transitions. The class `RiskManager` holds the same fields, and each of its methods is proved to perform the matching transition.
- **Backtest ledger** (`backtest.dfy`, module `Backtest`):
  - cash and the open positions keyed by ticker;
  - the trade log and the equity curve;
  - the win and loss counters, the running P&L, the peak and the drawdown.

  The ledger is a value, `Ledger`, with pure transitions (`Open`, `Close`, `PriceUpdate`, `EquityRecord`, `InitialLedger`) kept within the invariant `ValidLedger`. The class `BacktestEngine` has the same fields. Its methods are proved to perform those transitions, and the two loops of the source (updating positions and marking to market) appear as `while` loops.
- **Performance summary** (`metrics.dfy`, module `Metrics`). The statistics over a finished ledger.
- **Shared helpers** (`common.dfy`, module `Common`):
  - optional values;
  - Python's `abs`, `max`, `min` and `int()` on floats;
  - minute-based timestamps;
  - the peak and drawdown rule that the ledger and the risk gate share.

Modelling conventions:

- Prices, percentages and P&L are exact `real`s. Share quantities are `nat`.
- Timestamps are whole minutes, already in US/Eastern local time:
  - the calendar day is `ts / 1440` and the minute of the day is `ts % 1440`;
  - a difference in whole days rounds down, like `timedelta.days`.
- Free-text reasons are datatype tags:
  - the entry checks, exit rules, trade checks and halt reasons;
  - the close reason, as an exit rule, the end-of-backtest close or other text.
- Every division by zero that the source would raise becomes a precondition, for example:
  - a zero entry price;
  - a zero peak when the equity is not a new high;
  - a zero price in the sizers;
  - a zero starting capital in the summary.

## Model

| member | source | states |
|---|---|---|
| Common.Trunc | src/utils/risk_manager.py:226 | Python's `int()` on a float truncates toward zero: for x ≥ 0 the result r satisfies r ≤ x < r+1; for x < 0, r−1 < x ≤ r |
| Common.DivTruncBounds | src/strategy/strategy_engine.py:338 | Truncating a non-negative budget divided by a positive price gives the number of whole shares that fit: n·p ≤ x < (n+1)·p, and 0 when x < p |
| Common.MinuteOfDay | src/strategy/strategy_engine.py:290-297 | The minute of day lies in [0, 1440) and, with the day number, reconstructs the timestamp |
| Common.DivTruncBoundsNegative | src/utils/risk_manager.py:226 | Truncating a negative budget over a positive price rounds toward zero: (n−1)·p < x ≤ n·p with n ≤ 0, and n = 0 exactly when x > −p |
| Common.DaysBetween | src/utils/risk_manager.py:83 | Whole days between two timestamps, rounded down: d·1440 ≤ to−from < (d+1)·1440 |
| Common.PeakAndDrawdown | src/utils/risk_manager.py:112-118 | A new high becomes the peak with zero drawdown; otherwise the peak is kept and drawdown·peak = (peak−equity)·100; the new peak is the max of the two and a positive peak gives a non-negative drawdown; needs a non-zero peak unless the equity is a new high |
| Strategy.CheckEntry | src/strategy/strategy_engine.py:121-167 | Enter only when none of the eleven checks fails; a rejection names a failing check, and every check ranked before it (price < min, price > max, hours, SMA missing, price ≤ SMA, RSI missing, RSI out of range, volume MA missing, volume ratio low, ATR missing, ATR < min) passes |
| Strategy.EntryTestCases | tests/test_strategy.py:79-143 | The unit-test bars: 11:00/150/SMA 148/RSI 55/ratio 1.2/ATR 1.5 enters; 9:00 is outside hours; RSI 75 is out of range; ratio 0.9 is low; price 15 is below the minimum |
| Strategy.EntryBoundaries | src/strategy/strategy_engine.py:122-162 | Price equal to the minimum, RSI equal to 40 or 70, and ATR equal to the minimum all enter; a close equal to the SMA is rejected as not above it |
| Strategy.SessionClockBoundaries | src/strategy/strategy_engine.py:279-317 | On every day 10:00 and 15:00 are inside the entry window and 9:59 and 15:01 are outside it; the end-of-day close starts exactly at 15:55 |
| Strategy.CheckExit | src/strategy/strategy_engine.py:188-213 | Hold exactly when no rule matches; an exit names a matching rule, and every rule of higher priority (stop loss, take profit, time stop, trailing stop) does not match. The trailing rule needs a highest price and a gain strictly above the trigger |
| Strategy.StopLossAtBoundary | src/strategy/strategy_engine.py:194 | A price exactly at the stop-loss price exits by stop loss (inclusive bound) |
| Strategy.TakeProfitAtBoundary | src/strategy/strategy_engine.py:198 | A price exactly at the take-profit price exits by take profit when the stop-loss rule does not fire there |
| Strategy.ExitTestCases | tests/test_strategy.py:145-197 | 150→148.5 exits by stop loss, 150→152.25 by take profit, and 15:55 by the time stop |
| Strategy.TrailingTestInputHolds | src/strategy/strategy_engine.py:206-211 | On the trailing-stop unit test's input (entry 150, current 151.24, high 152) the code holds: the gain is below the 1% trigger |
| Strategy.CalculatePositionSize | src/strategy/strategy_engine.py:337-340 | At least one share; when the budget min(cap, 20% of account) covers one share, it is the whole number of shares the budget buys; below one share it is exactly one |
| Strategy.PositionSizeTestCase | tests/test_strategy.py:259-268 | 10,000 of equity at 150 with the 1,000 cap buys 6 shares |
| Strategy.GetStopLossPrice | src/strategy/strategy_engine.py:342-352 | The P&L percentage at the stop-loss price is exactly −stop_loss_pct, and it lies below a positive entry for a positive percentage |
| Strategy.GetTakeProfitPrice | src/strategy/strategy_engine.py:354-364 | The P&L percentage at the take-profit price is exactly +take_profit_pct, and it lies above a positive entry for a positive percentage |
| Strategy.BracketSurroundsEntry | src/strategy/strategy_engine.py:342-364 | With positive percentages, stop-loss price < entry < take-profit price |
| Strategy.FindPosition | src/strategy/strategy_engine.py:242-259 | The search finds exactly when some position reference (string, record entry or attribute) names the ticker |
| Strategy.GenerateSignals | src/strategy/strategy_engine.py:232-277 | At most one signal. There is one exactly when the frame is non-empty, the ticker is not held and the latest bar enters. It is a buy at the latest close and timestamp with confidence 1.0 |
| Risk.ResetDaily | src/utils/risk_manager.py:67-70 | A new calendar day, or no stored date, zeroes the daily P&L and stores the timestamp; the same day changes nothing; no other field changes |
| Risk.ResetWeekly | src/utils/risk_manager.py:79-87 | The first call only records the week start; at least 7 whole days later it zeroes the weekly P&L and moves the start; otherwise nothing changes; afterwards the start is fewer than 7 days back |
| Risk.ApplyPnl | src/utils/risk_manager.py:97-101 | Both resets, then the amount is added to the (possibly zeroed) daily and weekly P&L. The stored date becomes ts on a new day and is kept otherwise. The week start becomes ts on the first call or after 7 whole days and is kept otherwise. The peak, drawdown and breaker are untouched |
| Risk.TrackDrawdown | src/utils/risk_manager.py:112-118 | The peak never decreases; a new high resets the drawdown to 0; otherwise drawdown·peak = (peak−equity)·100; only peak and drawdown change |
| Risk.Halt | src/utils/risk_manager.py:307-308 | Sets the flag and stores the reason; nothing else changes |
| Risk.Resume | src/utils/risk_manager.py:313-314 | Clears both the flag and the reason; nothing else changes |
| Risk.DailyLossLimitBreached | src/utils/risk_manager.py:132 | Breached exactly when daily P&L ≤ −limit or ≥ +limit (magnitude comparison, so a large gain breaches) |
| Risk.WeeklyLossLimitBreached | src/utils/risk_manager.py:147 | Breached exactly when weekly P&L ≤ −limit or ≥ +limit |
| Risk.CalculatePositionSize | src/utils/risk_manager.py:220-237 | For a positive price: when the budget covers one share, the result is the whole number of shares it buys. For a budget in [0, price) it is 1 if the equity covers one share and 0 otherwise. For a negative budget it is 1 only when the equity covers one share and the budget is above −price; otherwise it is the budget over the price truncated toward zero, a count ≤ 0 |
| Risk.SizersDisagreeBelowOneShare | src/utils/risk_manager.py:229-230 | With 100 of equity at 150 the risk sizer returns 0 while the strategy's sizer returns 1 |
| Risk.Validate | src/utils/risk_manager.py:262-298 | A halted gate rejects with its reason and changes nothing. Otherwise the trackers are reset and the drawdown updated. Approval means no check fails; a rejection names a failing check and every earlier check passes. The breaker trips exactly on the daily-loss and drawdown failures |
| Risk.ValidateKeepsInvariant | src/utils/risk_manager.py:262-298 | Validation keeps flag ⇔ reason present, and a non-negative peak and drawdown |
| Risk.BreakerLatches | src/utils/risk_manager.py:263-264 | From a halted state, any sequence of attempts, P&L updates and halts without a resume stays halted and rejects every attempt as halted; without new halts the reason is the original one |
| Risk.DailyPnlSumsWithinDay | src/utils/risk_manager.py:97-101 | Within one calendar day the daily P&L is the start value plus the sum of the recorded amounts, and the stored date is kept |
| Risk.GainTripsDailyBreaker | src/utils/risk_manager.py:132 | A same-day daily P&L at or above +limit is rejected as a daily-loss breach and halts with that reason |
| Risk.WeeklyBreachDoesNotHalt | src/utils/risk_manager.py:277-278 | A weekly-limit rejection leaves the breaker off and the state equal to the reset and drawdown-updated trackers |
| Risk.FourLossesTripTheBreaker | src/utils/risk_manager.py:263-274 | Under the default limits: a first trade is approved; after four same-day losses of 25 the next attempt trips the breaker; a later, favourable attempt is rejected as halted |
| Risk.RiskManager.constructor | src/utils/risk_manager.py:37-58 | The tracker starts at zero P&L, no dates, a zero peak and trading active |
| Risk.RiskManager.ResetDailyPnl | src/utils/risk_manager.py:60-70 | The fields become ResetDaily of the old fields |
| Risk.RiskManager.ResetWeeklyPnl | src/utils/risk_manager.py:72-87 | The fields become ResetWeekly of the old fields |
| Risk.RiskManager.UpdatePnl | src/utils/risk_manager.py:89-101 | The fields become ApplyPnl of the old fields |
| Risk.RiskManager.UpdateDrawdown | src/utils/risk_manager.py:105-118 | The fields become TrackDrawdown of the old fields |
| Risk.RiskManager.CheckPositionLimits | src/utils/risk_manager.py:170-202 | True exactly when the position count is at the cap or some sector count is at its cap |
| Risk.RiskManager.HaltTrading | src/utils/risk_manager.py:300-309 | The fields become Halt of the old fields |
| Risk.RiskManager.ResumeTrading | src/utils/risk_manager.py:311-315 | The fields become Resume of the old fields |
| Risk.RiskManager.ValidateTrade | src/utils/risk_manager.py:239-298 | The new fields and the verdict are exactly Validate of the old fields and the request; the invariant is kept |
| Backtest.NewPosition | src/backtest/backtest_engine.py:38-40 | A highest price of 0 becomes the entry price; every other field is as given |
| Backtest.UpdateHighestPrice | src/backtest/backtest_engine.py:47-49 | The highest price ratchets up to at least the current price, takes one of the two values, and nothing else changes |
| Backtest.CalculatePnl | src/backtest/backtest_engine.py:51-53 | For a held quantity the P&L is positive (negative) exactly when the price is above (below) the entry; zero quantity gives zero |
| Backtest.CalculatePnlPct | src/backtest/backtest_engine.py:55-57 | pct·entry = (price−entry)·100, the same percentage the strategy's exit rules use |
| Backtest.EntryFill | src/backtest/backtest_engine.py:173-174 | The entry fill is price·(1+slippage/100), never below the price |
| Backtest.ExitFill | src/backtest/backtest_engine.py:231-232 | The exit fill is price·(1−slippage/100), never above the price |
| Backtest.InitialLedger | src/backtest/backtest_engine.py:108-120 | All capital is in cash, with no positions or history, the peak at the starting capital and the counters at zero |
| Backtest.InitialLedgerValid | src/backtest/backtest_engine.py:89-106 | The initial ledger satisfies the ledger invariant |
| Backtest.Open | src/backtest/backtest_engine.py:122-203 | Fails exactly when the ticker is held, the gate refuses (count, cash below one max position, \|daily P&L\| ≥ limit, drawdown ≥ limit) or the cost exceeds the cash, and a failure changes nothing. On success a position at the entry fill, with highest = fill, is filed under the ticker; cash falls by fill·q + commission; nothing else changes |
| Backtest.CloseTrade | src/backtest/backtest_engine.py:230-256 | The trade has the exit fill and pnl = (fill−entry)·q − commission, with pnl_pct·entry = (fill−entry)·100. Its commission is twice the per-trade commission and its slippage is price·slippage/100·q·2. The position's ticker, entry time, entry price and quantity are carried over |
| Backtest.Close | src/backtest/backtest_engine.py:224-269 | An unheld ticker gives no trade and no change. Otherwise cash rises by fill·q − commission and the ticker is removed. Exactly that trade is appended, and its P&L is added to the running P&L. The win counter rises on P&L > 0 and the loss counter otherwise |
| Backtest.PriceUpdate | src/backtest/backtest_engine.py:278-294 | Held tickers with a price ratchet their highest price; unpriced ones, the key set and all other state are unchanged; no highest price decreases |
| Backtest.MarkToMarketBounds | src/backtest/backtest_engine.py:304-308 | With non-negative prices the marked value is non-negative; with no held ticker priced it is zero |
| Backtest.EquityRecord | src/backtest/backtest_engine.py:296-327 | Equity is cash plus the marked value. The peak becomes max(peak, equity); a new high zeroes the drawdown, otherwise drawdown·peak = (peak−equity)·100. Exactly one point is appended, and nothing else changes |
| Backtest.OpenKeepsValid | src/backtest/backtest_engine.py:165-196 | Opening keeps the ledger invariant |
| Backtest.CloseKeepsValid | src/backtest/backtest_engine.py:224-269 | Closing keeps the ledger invariant: the counters are consistent (a zero-P&L trade counts as a loss), the running P&L is the sum of the trade P&L, and every trade paid twice the per-trade commission |
| Backtest.UpdatePositionsKeepsValid | src/backtest/backtest_engine.py:286-294 | Updating prices keeps the ledger invariant |
| Backtest.RecordEquityKeepsValid | src/backtest/backtest_engine.py:305-327 | Recording equity keeps the ledger invariant, including peak ≥ starting capital and a non-negative drawdown |
| Backtest.RunOpsKeepsValid | src/backtest/backtest_engine.py:104-106 | After any sequence of opens, closes, price updates, equity records and resets from a valid ledger, the invariant holds and winning + losing = total = number of trades |
| Backtest.OpenEffects | src/backtest/backtest_engine.py:172-196 | A successful open adds exactly the new ticker to the unheld map, at the entry fill and quantity; cash falls by fill·q + commission; the trade log is unchanged |
| Backtest.CloseEffects | src/backtest/backtest_engine.py:230-241 | Closing a held ticker removes it; cash rises by exit fill·q − commission; P&L = fill·q − entry·q − commission; one trade is appended |
| Backtest.RoundTripConservation | src/backtest/backtest_engine.py:177-241 | Open then close restores the position map; cash = before − (entry fill·q + c) + (exit fill·q − c); the cash change is the trade P&L less the entry commission |
| Backtest.BreakEvenCloseCountsAsLoss | src/backtest/backtest_engine.py:261-266 | A close at exactly zero P&L increments the losing counter, not the winning one, and leaves the running P&L unchanged |
| Backtest.ExampleRoundTrip | src/backtest/backtest_engine.py:172-266 | 6 shares at 150 with 0.05% slippage fill at 150.075 and leave 9099.55 of 10,000. Closing at 152.5 fills at 152.42375, books P&L 14.0925 as a win and leaves 10014.0925 |
| Backtest.ExampleMark | src/backtest/backtest_engine.py:286-317 | After that open, a mark at 152.5 raises the highest price to 152.5, values the position at 915 and sets a new peak of 10014.55 with zero drawdown |
| Backtest.SumMarks | src/backtest/backtest_engine.py:304-308 | The marking loop's total equals the marked value: price·quantity summed over held tickers that have a price |
| Backtest.BacktestEngine.constructor | src/backtest/backtest_engine.py:82-106 | The fields are the initial ledger of the configuration, and the invariant holds |
| Backtest.BacktestEngine.Reset | src/backtest/backtest_engine.py:108-120 | The fields return to the initial ledger, and the invariant holds |
| Backtest.BacktestEngine.OpenPosition | src/backtest/backtest_engine.py:142-203 | The new fields and the result are exactly Open of the old fields; the invariant is kept |
| Backtest.BacktestEngine.ClosePosition | src/backtest/backtest_engine.py:205-276 | The new fields and the returned trade are exactly Close of the old fields; the invariant is kept |
| Backtest.BacktestEngine.UpdatePositions | src/backtest/backtest_engine.py:278-294 | The loop leaves the fields equal to PriceUpdate of the old fields; the invariant is kept |
| Backtest.BacktestEngine.RecordEquity | src/backtest/backtest_engine.py:296-327 | The fields become EquityRecord of the old fields; the invariant is kept |
| Metrics.MaxOf | src/backtest/backtest_engine.py:389 | `max` of a non-empty list is an element and bounds every element |
| Metrics.WinningPnls | src/backtest/backtest_engine.py:353 | The win list has one entry per trade with P&L > 0, all positive (its entries are those trades' P&L by WinningPnlsAreWins) |
| Metrics.LosingPnls | src/backtest/backtest_engine.py:354 | The loss list has one magnitude per trade with P&L < 0 (strictly), all positive (its entries are those magnitudes by LosingPnlsAreLosses) |
| Metrics.MeanOrZero | src/backtest/backtest_engine.py:387-388 | For a non-empty list, mean·count = total; an empty list gives 0 |
| Metrics.WinRate | src/backtest/backtest_engine.py:356 | rate·total = winning·100 when there are trades, else 0 |
| Metrics.ProfitFactor | src/backtest/backtest_engine.py:361 | factor·losses = wins when the losses are positive, else 0 |
| Metrics.TotalReturn | src/backtest/backtest_engine.py:349 | return·start = (final−start)·100 |
| Metrics.PerformanceMetrics | src/backtest/backtest_engine.py:336-342 | No trades gives the zeroed four-field result; otherwise the full summary carries the starting capital and the three counters |
| Metrics.GrossWinIsListSum | src/backtest/backtest_engine.py:359 | The gross win used by the summary is `sum` of the win list |
| Metrics.GrossLossIsListSum | src/backtest/backtest_engine.py:360 | The gross loss used by the summary is `sum` of the loss list |
| Metrics.OutcomesPartitionTrades | src/backtest/backtest_engine.py:353-354 | Wins + losses + break-even trades = number of trades |
| Metrics.ReturnOfFinalEquity | src/backtest/backtest_engine.py:348-349 | The final equity is the last recorded equity, or the starting capital when none was recorded; the return is its gain in percent of the starting capital |
| Metrics.ProfitFactorOfGrossTotals | src/backtest/backtest_engine.py:359-361 | The profit factor is computed from the sums of the win and loss lists, and is 0 when no trade lost money |
| Metrics.MaxDrawdownIsLargestRecorded | src/backtest/backtest_engine.py:364 | The maximum drawdown bounds every recorded drawdown and is one of them; 0 for an empty curve |
| Metrics.AverageWin | src/backtest/backtest_engine.py:387-389 | The average win is the gross win over the number of winning trades; with no win, both it and the largest win are 0 |
| Metrics.AverageLoss | src/backtest/backtest_engine.py:388-390 | The average loss is the gross loss over the number of losing trades; with no loss, both it and the largest loss are 0 |
| Metrics.CloseAddsToTradeCosts | src/backtest/backtest_engine.py:231-259 | Closing a held position adds price·slippage/100·q·2 to the trade log's slippage total and two commissions to its commission total |
| Metrics.CloseAddsToCostTotals | src/backtest/backtest_engine.py:392-393 | After closing a held position, the summary's total slippage is the earlier trades' total plus price·slippage/100·q·2, and its total commission is the earlier total plus two commissions |
| Metrics.SummaryCommission | src/backtest/backtest_engine.py:392 | On a reachable ledger the summary's total commission is 2·commission·number of trades |
| Metrics.WinRateIsShareOfWins | src/backtest/backtest_engine.py:356 | On a reachable ledger the win rate is the share of trades with P&L > 0, in percent |
| Metrics.LosingCounterIncludesBreakEven | src/backtest/backtest_engine.py:263-266 | On a reachable ledger the reported losing count is the strict losses plus the break-even trades |
| Metrics.NoLossesMeansZeroProfitFactor | src/backtest/backtest_engine.py:361 | With no negative P&L the profit factor is 0, however large the wins |
| Metrics.LossMakesGrossLossPositive | src/backtest/backtest_engine.py:360-361 | One losing trade makes the gross loss positive, so the factor is a real ratio |
| Metrics.WinsMinusLossesIsNetPnl | src/backtest/backtest_engine.py:352-354 | Gross win − gross loss = the summed trade P&L |
| Metrics.BreakEvenTradeOutsideLossList | src/backtest/backtest_engine.py:353-354 | A zero-P&L trade changes neither list nor either gross total nor the win count |
| Metrics.WinningPnlsAreWins | src/backtest/backtest_engine.py:353 | Every entry of the win list is the P&L of some trade with P&L > 0 |
| Metrics.LosingPnlsAreLosses | src/backtest/backtest_engine.py:354 | Every entry of the loss list is the magnitude of some trade with P&L < 0 |
| Metrics.LargestWinAndLossAttained | src/backtest/backtest_engine.py:389-390 | With a winning trade, the largest win is the P&L of one of them; with a losing trade, the largest loss is the magnitude of one of them |
| Metrics.LargestWinAndLossBound | src/backtest/backtest_engine.py:389-390 | Every win is at most the largest win; every loss magnitude is at most the largest loss |
| Metrics.CommissionTotal | src/backtest/backtest_engine.py:392 | If every trade paid twice the commission, the total is 2·commission·number of trades |
| Metrics.ReachableCommission | src/backtest/backtest_engine.py:254 | On a reachable ledger the commission total is 2·commission·number of trades |

## Left out

- Logging, the `__repr__`/`to_dict` of signals, and the position's `position_value` property are left out: they produce output or are unused by the core.
- The Sharpe ratio is left out because it relies on floating-point statistics. `total_return_pct` is the same value as `total_return`, so the summary carries it once.
- The `get_trades_df` and `get_equity_curve_df` exports and `get_risk_status` are left out: each only builds a report.
- Time-zone localisation is abstracted away: timestamps are minutes already in US/Eastern time. Sub-minute resolution is not modelled.
- Indicator computation, data collection, persistence and the driver script are outside the core. Bars arrive with their indicator values, and a missing or NaN value is `None`.
- IEEE-754 floats are replaced by exact reals, so rounding is not modelled. The one such place the model captures is a zero volume average: the ratio is infinite or NaN and never rejects, which `Strategy.VolumeRatioBelow` models explicitly. Other float divisions by zero (a zero entry price in the exit rules, for example) become preconditions instead of infinities or NaN.
- Reason strings are datatype tags: the 2-decimal formatting and the signal's reason text are not modelled.
- Backtest.Open: positions are immutable values held in a map, and `update_positions` replaces them. Aliasing of a `Position` object that a caller keeps is not captured.
- Backtest.Open: quantities are `nat`, so the negative share counts the source would accept are not modelled.
- Backtest.RunOps: the sequence stops at the first operation whose division by zero the source would raise. Nothing is claimed past that point.
- Backtest.Close: the ledger's `daily_pnl` is never reset by the source, so it is the sum of every trade's P&L since construction or reset. The entry gate compares its magnitude with the daily limit exactly as written.
- Risk.Validate: the sector map is always empty, because the source never passes one to `check_position_limits`. The `ticker` argument is unused.
- The step composition of the example driver (update, exits, entries, record) is not modelled. Each ledger and gate operation is modelled on its own.
- Strategy.TrailingTestInputHolds: the trailing-stop unit test expects an exit on an input where the code holds. The lemma states what the code does; the test's expectation is not encoded.
