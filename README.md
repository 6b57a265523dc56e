# TradeBot backtesting core in Dafny

TradeBot is a small crypto trading dashboard. It takes a list of OHLCV candles, computes technical indicators on them, and replays the candles one by one. During the replay it opens and closes simulated positions and records the resulting trades and balance. This project models the computational core of that replay and proves properties of it:

- `series.dfy` (module `Series`) holds what the other modules share:
  - the candle, side, exit-reason and trade records;
  - sums, means and trailing windows;
  - the true range;
  - the RSI formula;
  - the EMA recurrence and the "seeded" EMA of the strategy modules.
- `indicators.dfy` (module `Indicators`) models the indicator functions that the k-nearest-neighbour backtester uses: SMA, EMA, RSI, ATR, CCI, ADX and `compute_all`. Each loop is a method proved equal to a specification function, and the ranges of RSI, CCI, DX and ADX are proved.
- `backtester.dfy` (module `KnnBacktest`, class `Backtester`) models the k-nearest-neighbour backtester:
  - the Lorentzian feature distance;
  - the stable sort by distance and the neighbour vote;
  - the long-only replay with ATR-sized entries, stop-loss and signal exits, the trade log and the equity curve.
- `strategy.dfy` (module `Strategy`) and `strategy_aggressive.dfy` (module `StrategyAggressive`) model the two pluggable strategies:
  - the EMA trend filter with SMA5/SMA8 confirmation;
  - ATR stops with a percentage floor;
  - the take-profit bracket of the aggressive strategy;
  - the exit rules (take-profit, stop, time, flip) in their order of precedence.
- `app.dfy` (module `App`) models the web application's backtest loop. The loop takes signals from `strategy`, sizes each position with `safe_position_size`, checks the stop before the strategy's exit, and books profit and loss additively.
- `main.dfy` (module `TradeBot`) models the stand-alone bot's indicators (`ema_list`, `sma_list`, `rsi_list`, `atr_list`, the 20-bar average volume) and its replay, which works as follows:
  - entry on an EMA cross-up confirmed by volume and RSI;
  - exit at the stop or on a cross-down;
  - the balance becomes the proceeds of each exit;
  - win and loss counts and the win rate are kept.

All prices and amounts are `real`. Every replay loop is a method whose `ensures` ties its result to a recursive `Replay` function over the candles. The lemmas about `Replay` state the bookkeeping invariants:
- the balance is the last trade's `balance_after`;
- `trades == wins + losses`;
- balances are additive in the application's loop;
- one equity point per bar in the backtester.

## Model

| member | source | states |
|---|---|---|
| Series.TrueRange | indicators.py:59-62 | the true range is at least each of high-low, \|high-prevClose\| and \|low-prevClose\|, and equals one of them |
| Series.RsiFromAverages | indicators.py:44-49 | RSI from average gain and loss is 100·g/(g+l+1e-12), lies in [0, 100), and is 0 when there are no gains |
| Series.GainsLossesExclusive | indicators.py:39-41 | gains and losses of each close-to-close move are non-negative, at most one is non-zero, and gain minus loss is the move |
| Series.EmaWithin | indicators.py:19-29 | every value of a sequence satisfying the EMA recurrence with a factor in [0,1] stays within the bounds of the input values |
| Series.EmaOrNone | strategy.py:6-13 | the seeded EMA is None exactly when there are fewer values than the period, otherwise the seeded fold |
| Series.SeededEmaWithinWindow | strategy.py:6-13 | the seeded EMA lies between the bounds of the last `period` values |
| Series.TrWindow | strategy.py:18-23 | the ATR window holds the true ranges of the `period` bars ending at i, each non-negative |
| Series.TrailingMeanBounds | indicators.py:61-65 | a trailing mean over at most `period` values lies within the bounds of the values |
| Indicators.Sma | indicators.py:4-17 | one output per input; entry i is 0 until `period` values exist, then the mean of the last `period` values, kept by a running sum over a window that drops its oldest value |
| Indicators.Ema | indicators.py:19-29 | the output starts with the first value and satisfies out[i] = v[i]·α + out[i-1]·(1-α) with α = 2/(period+1) |
| Indicators.RsiStepAgrees | indicators.py:42-49 | the running gain and loss windows of the loop give the RSI of the specification at bar i |
| Indicators.ComputeRsi | indicators.py:31-50 | one RSI per close, 50 for the first `period` bars, otherwise RSI of the trailing average gain and loss, always in [0, 100) |
| Indicators.TrSeries | indicators.py:52-62 | one true range per bar, high-low on the first bar, then the largest of high-low, \|high-prev close\| and \|low-prev close\| |
| Indicators.ComputeAtr | indicators.py:52-66 | ATR entry i is the trailing mean of the true ranges, and is non-negative when every high is at least its low |
| Indicators.ComputeCci | indicators.py:68-81 | CCI entry i is (tp - mean)/(0.015·(meandev+1e-12)) over the trailing window of typical prices, 0 before `period-1` |
| Indicators.CciBounded | indicators.py:68-81 | \|CCI\|·0.015 is strictly below the period (the typical price deviates from the mean by at most period·mean deviation) |
| Indicators.DirectionalMovementExclusive | indicators.py:96-99 | +DM and -DM are non-negative and at most one of them is non-zero on a bar |
| Indicators.DxInRange | indicators.py:115-121 | DX of non-negative directional indices lies in [0, 100] |
| Indicators.AdxInRange | indicators.py:83-128 | when highs are at least lows, every DX and ADX value of the pipeline lies in [0, 100] |
| Indicators.ComputeAdx | indicators.py:83-128 | the ADX method yields the ADX of the pipeline specification, in [0, 100] when highs are at least lows |
| Indicators.ComputeAllIndicators | indicators.py:130-138 | RSI, ATR, CCI and ADX of the candles with periods 14, 14, 20 and 14, all as long as the candles, RSI in [0, 100) |
| KnnBacktest.DistanceNonneg | backtester.py:20-27 | the Lorentzian distance, a sum of ln(1+\|a-b\|), is non-negative for a logarithm that is non-negative from 1 on |
| KnnBacktest.DistanceToSelfIsZero | backtester.py:20-27 | a bar's distance to itself is 0 |
| KnnBacktest.DistanceSymmetric | backtester.py:20-27 | the distance is symmetric |
| KnnBacktest.SortIsPermutation | backtester.py:38 | sorting the candidates by distance keeps exactly the same candidates |
| KnnBacktest.SortIsSorted | backtester.py:38 | the sorted candidates are in non-decreasing distance |
| KnnBacktest.SortIsStable | backtester.py:38 | the sort is stable: equal distances stay in ascending bar order |
| KnnBacktest.PyPrefix | backtester.py:41 | a slice `[:m]` is a prefix of length min(m, len) for m ≥ 0 |
| KnnBacktest.Backtester.constructor | backtester.py:11-18 | the backtester keeps the candles, indicators, k, lookback, stop multiple, risk and initial balance |
| KnnBacktest.Backtester.LorentzianDistance | backtester.py:20-27 | the loop computes the Lorentzian distance of the specification |
| KnnBacktest.Backtester.CandidatesAreWindow | backtester.py:34-37 | the candidates are the bars of the lookback window before idx, in ascending order, with their distances |
| KnnBacktest.Backtester.Label | backtester.py:42-49 | a neighbour votes the sign of the close four bars later minus its close, 0 when that bar does not exist |
| KnnBacktest.Backtester.NeighboursCount | backtester.py:41 | there are min(k, candidates) neighbours |
| KnnBacktest.Backtester.NeighboursNearestFirst | backtester.py:38-41 | the neighbours are the first k of the stable sort: sorted then by index, and none is farther than a left-out candidate |
| KnnBacktest.Backtester.PredictKnn | backtester.py:29-49 | the prediction is the classifier's, in {-1, 0, 1}, and 0 when the window is empty |
| KnnBacktest.Backtester.EntryWithinBalance | backtester.py:65-85 | an entry is at the close and never worth more than the balance |
| KnnBacktest.Backtester.SizeEntry | backtester.py:65-85 | the sizing code yields the entry of the specification, worth at most the balance |
| KnnBacktest.Backtester.CloseTrade | backtester.py:90-126 | closing sets the balance to qty·exit and appends one trade with profit qty·exit - qty·entry and that balance |
| KnnBacktest.Backtester.Run | backtester.py:51-146 | the run is the replay over all bars after warm-up, one equity point per bar, trades == wins + losses, wins counts the logged trades with profit >= 0, final balance is the last balance_after, profit is final - initial |
| KnnBacktest.Backtester.ReplayNext | backtester.py:59-127 | the replay up to hi+1 is one bar step after the replay up to hi |
| KnnBacktest.Backtester.VotesAt | backtester.py:62 | the vote used at bar i is the classifier's prediction for i |
| KnnBacktest.Backtester.StepKeepsConsistent | backtester.py:59-127 | one bar keeps the counters equal to the trade log (wins = trades with profit >= 0) and the balance equal to the last balance_after |
| KnnBacktest.Backtester.ReplayConsistent | backtester.py:59-146 | through the whole replay the counters match the log, wins = trades with profit >= 0, and the balance is the last balance_after |
| KnnBacktest.Backtester.ReplayEquity | backtester.py:127 | the replay has one equity point per processed bar, the last holding the balance |
| KnnBacktest.Backtester.EntryOnlyWhenFlatOnBuyVote | backtester.py:65-85 | a position appears only when flat and the vote is 1, sized by the entry rule and worth at most the balance |
| KnnBacktest.Backtester.ExitCompounds | backtester.py:88-126 | at most one trade per bar; a trade leaves the book flat, sets the balance to qty·exit, records profit qty·(exit-entry), is a stop-loss exactly when the close is at or below the stop, and is otherwise on a -1 vote |
| Strategy.Ema | strategy.py:6-13 | the loop yields the seeded EMA, None exactly when there are fewer values than the period |
| Strategy.SimpleAtr | strategy.py:15-24 | the loop yields the mean true range of the last `period` bars (14 at the call site), non-negative, 0 before `period` bars |
| Strategy.NoSignalWithoutHistory | strategy.py:26-34 | no signal before the 200-bar EMA exists |
| Strategy.SignalCharacterised | strategy.py:35-52 | buy exactly when EMA50 > EMA200 and SMA5 > SMA8, sell exactly when both are below, with the stop at close ∓ max(ATR, 0.3% of close) |
| Strategy.StopOnLosingSide | strategy.py:45-51 | for a positive close a buy's stop is below the close by at least ATR and 0.3%, a sell's above it |
| Strategy.ExitCharacterised | strategy.py:54-63 | after 12 bars the exit is "time"; before, the exit is "flip" exactly when an opposite signal appears |
| StrategyAggressive.Ema | strategy_aggressive.py:15-23 | the loop yields the seeded EMA, None exactly when there are fewer values than the period |
| StrategyAggressive.Atr | strategy_aggressive.py:25-34 | the loop yields the mean true range of the window, non-negative, 0 before `period` bars |
| StrategyAggressive.ComputePositionSize | strategy_aggressive.py:36-47 | size 0 at a zero stop distance, never more than risk/distance, and worth at most 50% of the balance for a positive price |
| StrategyAggressive.NoSignalWithoutHistory | strategy_aggressive.py:49-56 | no signal before the 200-bar EMA exists |
| StrategyAggressive.SignalBrackets | strategy_aggressive.py:61-71 | entry at the close, stop distance at least 0.2% of it, take at 2.8 times the stop distance on the other side, stop < entry < take for a buy |
| StrategyAggressive.SignalSideCharacterised | strategy_aggressive.py:57-72 | buy exactly when EMA50 > EMA200 and SMA5 > SMA8, sell exactly when both are below |
| StrategyAggressive.ExitPrecedence | strategy_aggressive.py:74-95 | no exit without a position; take-profit before stop, stop before the 24-bar time exit, time exit before flip |
| App.SafePositionSize | app.py:52-61 | size non-negative, 0 at zero stop distance or non-positive price, within risk/distance and worth at most max_position_pct of the balance |
| App.SizeWithinRisk | app.py:52-61 | with non-negative balance and risk the size never exceeds balance·risk/distance |
| App.PnlSign | app.py:111-115 | a long gains exactly when the exit is above entry, a short exactly when below, and breaks even exactly at the entry |
| App.RunBacktest | app.py:67-126 | the loop is the replay over all candles, end balance is start plus the sum of profits, each balance_after is the initial balance plus the profits so far |
| App.ExitBar | app.py:90-125 | the exit code is the bar's exit step of the specification |
| App.ReplayAdditive | app.py:67-126 | the replay keeps balance == initial + Σ profits and every balance_after equal to the running sum |
| App.EntryRules | app.py:75-89 | a position opens only on a signal, with the signal's side and stop and the safe size > 0; no signal or a zero size leaves the book unchanged |
| App.StopBeforeStrategy | app.py:95-109 | the stop is checked first, leaving at the stop price; otherwise the strategy's exit at the close |
| App.OneTradePerClose | app.py:90-125 | at most one trade per bar, which flattens the book and adds its PnL to the balance |
| TradeBot.EmaList | main.py:61-68 | the loop yields one EMA value per input, the specification's EMA series |
| TradeBot.EmaSeriesRecurrence | main.py:61-68 | the EMA series starts with the first value and satisfies the EMA recurrence with α = 2/(span+1) |
| TradeBot.EmaSeriesWithin | main.py:61-68 | for span ≥ 1 every EMA value lies within the bounds of the inputs |
| TradeBot.SmaList | main.py:70-80 | the sliding sum yields the means of all full windows, len - period + 1 of them |
| TradeBot.RsiList | main.py:82-96 | one RSI per close, each equal to the Wilder-smoothed RSI of the specification |
| TradeBot.RsiListInRange | main.py:82-96 | RSI lies in [0, 100), and is 50 on the first period+1 bars or when the series is too short |
| TradeBot.AtrList | main.py:98-109 | the loop yields the ATR series of the specification |
| TradeBot.AtrSeriesShape | main.py:98-109 | one non-negative ATR per close; with enough bars, entry i is the mean of the `period` true ranges from max(0, i-period) |
| TradeBot.AvgVolumes | main.py:122-125 | entry i is the mean volume of the up to 20 preceding bars, or the bar's own volume on the first bar |
| TradeBot.AvgVolumeWithin | main.py:122-125 | the average volume lies within the bounds of the volumes |
| TradeBot.CrossesExclusive | main.py:138-139 | a bar is never both a cross-up and a cross-down |
| TradeBot.EntryQty | main.py:145-150 | the quantity is at least 1e-8, and is either 1e-8 or the risk-based quantity |
| TradeBot.StopLossRisksRiskAmount | main.py:145-151 | when the risk-based size applies, losing entry - stop per unit loses exactly balance·risk |
| TradeBot.RunBacktest | main.py:111-180 | the run is the replay of the computed lines, trades == wins + losses, wins counts trades with profit ≥ 0, the final balance is the last balance_after (the initial balance with no trades), profit_usd is final - initial, win rate in [0, 100] and 0 with no trades |
| TradeBot.WinRateBounds | main.py:179 | wins/(wins+losses)·100 lies in [0, 100] |
| TradeBot.ReplayConsistent | main.py:133-176 | through the replay the counters match the trade log and the balance is the last balance_after |
| TradeBot.EntryRules | main.py:133-153 | warm-up bars change nothing; a flat book opens exactly on cross-up with volume and RSI confirmation, at the close, with qty ≥ 1e-8 and stop close·(1 - stop_loss_pct) |
| TradeBot.ExitRules | main.py:154-176 | the stop is checked before the cross-down; an exit sets the balance to the proceeds, logs one trade with profit proceeds - cost, and flattens the book |

## Left out

- HTTP routes, Flask, templates, the static JavaScript, the Binance kline download, CSV and debug logging, threads and the balance lock: I/O and concurrency, outside the computational core.
- Floating point: prices and amounts are mathematical reals, so rounding errors are not modelled. `round(x, 8)` and `round(x, 2)` in the statistics are not modelled; the stats hold the exact values.
- `math.log` in the Lorentzian distance is a parameter `ln`; its properties (ln(1) = 0, non-negative from 1) are assumed through a predicate on that parameter.
- Trade timestamps: `time_iso` strings are modelled as the candle's integer time.
- Nonpositive periods: the indicator methods (`Indicators.Sma`, `ComputeRsi`, `ComputeAtr`, `ComputeCci`, `ComputeAdx`, `TradeBot.SmaList`, `RsiList`, `AtrList`) require a positive period, and `Indicators.Ema` requires a period other than -1. The source's behaviour outside those ranges is not modelled. There, a zero period raises `ZeroDivisionError` once the input is long enough to reach a division. `ema` raises it for a period of -1 even on empty input (the factor is computed before the loop), while `ema_list` returns `[]` for empty input before computing its factor. With a negative period, `sma` returns all 0.0. `sma_list` indexes past the end of its input and raises `IndexError` on any non-empty input, and so does `atr_list` with two or more closes. `compute_rsi`, `compute_atr`, `compute_cci`, `compute_adx` and `rsi_list` compute a result from the negative period without raising.
- `NonzeroCloses`: both backtests require every close to be nonzero. This is stricter than the source, which divides by the close only on a bar where an entry is sized (backtester.py:69-77, main.py:147-149); a zero close on a warm-up bar or a bar with no entry runs fine there. Restricting the requirement to entry bars would make it depend on the replay path, so the model keeps the whole-series condition.
- Default arguments: `Backtester.__init__`'s defaults (k = 8, lookback = 200, stop_atr_mult = 1.0, risk_pct = 0.02, initial_balance = 10.0) and `run_backtest`'s defaults in app.py (initial_balance = 10.0, risk_per_trade = 0.01, stop_atr_mult = 1.0) are not modelled; the Dafny members take every value as an explicit parameter.
- Dictionary defaults `pos.get("entry_index", i)` and `signal.get("stop", entry*0.995)`: the keys are always present where the calls are made, so the defaults never apply and are not modelled.
- Exit reasons: the application copies the strategy's reason string, and the bot's cross-down reason "X" is modelled as `SignalExit`.
- `stop_atr_mult` of the application's `run_backtest` is accepted but unused, as in the source. `atr_vals` in the bot's `run_backtest` is computed but unused; `TradeBot.BuildLines` still computes it.
- The bot's configuration comes from environment variables; it is a `Config` parameter here.
- KnnBacktest.Backtester.PredictKnn: the classifier's features are taken from the indicator set as given; the model does not prove anything about feature values beyond their use in the distance.
