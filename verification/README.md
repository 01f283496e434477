# Backtest scripts: signal and accounting logic in Dafny

This project models the pure signal and accounting logic of four Python
backtest scripts. Prices are exact `real` sequences. A pandas column is a
`seq<Option<real>>`, with `None` standing for NaN. Comparisons against NaN
are false and arithmetic with NaN gives NaN, as in pandas.

- **`strategy1.py`**
  - `run_strategy`: the EMA/Donchian/RSI trend strategy's entries, exits and direction.
  - The split of entries into long and short.
  - The synthetic inverted close used to backtest shorts as longs.
  - The equity curve and drawdown of the report.
- **`kalman_strateji2.py`**
  - The scalar Kalman filter.
  - ATR.
  - The slope-versus-threshold signal in {-1, 0, 1}.
  - The forward-filled position.
  - Commission on every change of position.
  - The one-bar-lag net return.
- **`kalman_strateji.py`**
  - The same Kalman filter.
  - The residual of the close from its filtered line.
  - The z-score entry/exit rule.
  - The one-bar-lag strategy return.
- **`ilk_stratejim.py`**
  - The 20/50 SMA crossover.
  - Its lagged strategy returns.
  - The cumulative products.

The modules are:

- **`Series` and `Rolling`**: the pandas column operations the scripts use.
  - `shift`, `fillna`, `ffill`, `diff`, `pct_change`, `cumprod`, `expanding().max()`, element-wise arithmetic and comparisons, masked assignment.
  - Rolling mean, max and min with `min_periods` equal to the window.
- **`Kalman`**: the filter recurrence and the array loop both scripts run.
- **`Volatility`**: true range and ATR.
- **`Backtest`**: market returns, a position applied to the next bar's return, and compounding.
- **`StrategySignals`**: `run_strategy`.
- **`StrategyPortfolio`**: the entry split, the synthetic short close, and the equity and drawdown curves.
- **`KalmanTrend`**, **`KalmanReversion`** and **`SmaCrossover`**: one module for each of the other three scripts.

Each module mirrors the pandas statements one to one. Each also carries an
independent per-bar reading of what the statements compute, for example:

- `UpperBand`;
- `CrossesAbove`;
- `LongPath`;
- `Held`;
- `Compounded`;
- `Kalman.StateAt`.

The lemmas prove that the two readings agree, and then state the strategy's
properties in terms of the per-bar reading.

## Model

| member | source | states |
|---|---|---|
| Kalman.StateAt | kalman_strateji2.py:33-43 | The reference recurrence: the state after bar k, reached from (prices[0], 1) by k time-and-measurement updates; its error variance stays positive. `ConvexUpdate`, `EstimateWithin`, `ConstantPrices` and `NoLookahead` state its meaning. |
| Kalman.Estimates | kalman_strateji2.py:24-45 | The filtered price of every bar, as long as the input. It is what `Filter` computes, and it starts at the first price. |
| Kalman.Filter | kalman_strateji2.py:24-45 | The array loop. An empty price array has no first price and gives `None`; otherwise the output has the input's length, starts at the first price, and equals the recursive filter `Estimates`. `apply_kalman_filter` (kalman_strateji.py:18-53) is the same loop. |
| Kalman.GainBounded | kalman_strateji2.py:39-43 | With Q >= 0 and R > 0, every a priori variance P⁻ is positive, the gain K lies strictly in (0, 1), and P = (1 - K)·P⁻ is positive. |
| Kalman.ConvexUpdate | kalman_strateji2.py:41-42 | Each estimate after bar 0 is a blend of the previous estimate and the current price, with a weight strictly between 0 and 1. |
| Kalman.EstimateWithin | kalman_strateji.py:38-51 | If the prices of bars 0..k lie in [lo, hi], so does the estimate of bar k (by induction over the convex updates). |
| Kalman.EstimateInPriceRange | kalman_strateji2.py:36-43 | The estimate of bar k lies between the lowest and highest price of bars 0..k. |
| Kalman.ConstantPrices | kalman_strateji2.py:33-43 | A constant price series is its own filtered series. |
| Kalman.NoLookahead | kalman_strateji2.py:36-43 | The state and estimate of bar k depend only on the prices of bars 0..k. |
| Volatility.TrueRange | kalman_strateji2.py:49-53 | The pandas true range column, as long as the input. `TrueRangeIsBarRange` gives its meaning: defined on every bar and equal to the reference `BarRanges`. |
| Volatility.Atr | kalman_strateji2.py:48-54 | `true_range.rolling(period).mean()`, as long as the input. `AtrValue` and `AtrNonNegative` give its meaning. |
| Volatility.TrueRangeIsBarRange | kalman_strateji2.py:48-53 | The pandas true range is defined on every bar. It is max(high - low, \|high - prev close\|, \|low - prev close\|), and high - low on bar 0, where the NaN terms are skipped. The inline copy at strategy1.py:129-132 is the same. |
| Volatility.AtrValue | kalman_strateji2.py:48-54 | ATR is undefined for the first period - 1 bars and is then the mean of the last `period` true ranges. |
| Volatility.AtrNonNegative | kalman_strateji2.py:54 | ATR is never negative when the first bar's high is not below its low (from bar 1 on every true range dominates a distance). |
| KalmanTrend.KalmanLine | kalman_strateji2.py:57 | The Kalman line with Q = 0.01 and R = 0.5, one value per close. Its meaning comes from the `Kalman` lemmas. |
| KalmanTrend.Atr | kalman_strateji2.py:58 | `calculate_atr(data)` with the default period 14, one cell per close. `Volatility.AtrValue` gives its meaning, and `SignalAt` states when it is defined (from bar 13 on). |
| KalmanTrend.Slope | kalman_strateji2.py:64 | `Kalman.diff()`, one cell per bar. `TrendSignalAt` reads it as the rise of the Kalman line, undefined on bar 0. |
| KalmanTrend.Threshold | kalman_strateji2.py:68 | `ATR * 0.1`, one cell per bar. `TrendSignalAt` and `SignalAt` read it. |
| KalmanTrend.SlopeSignal | kalman_strateji2.py:70-76 | The two masked assignments, one signal per bar. `SlopeSignalAt`, `RulesDisjoint` and `SlopeSignalRange` give its meaning. |
| KalmanTrend.Signal | kalman_strateji2.py:57-76 | The script's signal column, one value per bar. `SignalAt` gives its meaning. |
| KalmanTrend.SlopeSignalAt | kalman_strateji2.py:70-76 | The signal is -1 iff slope < -threshold. It is 1 iff slope > threshold and the short rule does not fire. It is 0 otherwise, including wherever either column is NaN. It always lies in {-1, 0, 1}. |
| KalmanTrend.RulesDisjoint | kalman_strateji2.py:73-76 | With a non-negative threshold the long and short rules never fire on the same bar. |
| KalmanTrend.TrendSignalAt | kalman_strateji2.py:64-76 | For any filtered line and non-negative ATR, the signal is 0 on bar 0 and wherever ATR is undefined. Otherwise it is 1 iff the line rose by more than 0.1·ATR and -1 iff it fell by more than that. |
| KalmanTrend.SignalAt | kalman_strateji2.py:57-76 | The script's own signal, built with Q = 0.01, R = 0.5 and ATR(14). It lies in {-1, 0, 1}, is 0 through the ATR warm-up, and afterwards follows the rise of the Kalman line against 0.1·ATR. |
| KalmanTrend.Position | kalman_strateji2.py:79 | `Signal.replace(0, nan).ffill().fillna(0)`, one position per bar. `PositionIsHeld` equates it with the reference `Held`; `HeldInRange`, `HeldNeverFlattens` and `HeldFlatUntilFirstSignal` state its properties. |
| KalmanTrend.PositionIsHeld | kalman_strateji2.py:79 | `replace(0, nan).ffill().fillna(0)` is the latest non-zero signal so far, or 0 before the first one (the recursive `Held`). |
| KalmanTrend.HeldInRange | kalman_strateji2.py:79 | Signals in {-1, 0, 1} give a position in {-1, 0, 1}. |
| KalmanTrend.HeldNeverFlattens | kalman_strateji2.py:79 | Once the position is non-zero it never returns to 0. |
| KalmanTrend.HeldFlatUntilFirstSignal | kalman_strateji2.py:79 | The position is 0 exactly as long as every signal so far is 0. |
| KalmanTrend.UnitSignalPositions | kalman_strateji2.py:79 | Every cell of the position built from {-1, 0, 1} signals is -1.0, 0.0 or 1.0. |
| KalmanTrend.BacktestPositions | kalman_strateji2.py:70-79 | The script's signal only ever produces positions in {-1, 0, 1}. |
| KalmanTrend.Trades | kalman_strateji2.py:94 | `Position.diff().fillna(0).abs()`, one cell per bar. `TradesAt` and `ChangeSizes` give its meaning. |
| KalmanTrend.TransactionCosts | kalman_strateji2.py:95 | `trades * COMMISSION`, one cell per bar. `CostAt` gives its meaning. |
| KalmanTrend.NetReturns | kalman_strateji2.py:89-98 | Raw lagged return minus the transaction cost, one cell per bar. `NetReturnAt`, `FlatBarEarnsNothing` and `SignalNetReturn` give its meaning. |
| KalmanTrend.CumulativeStrategy | kalman_strateji2.py:102 | `(1 + Strategy_Net_Returns).cumprod()`, one cell per bar; it is the compounding of `NetReturns` on the market returns of the closes. `NetGrowthAt` gives its general meaning and `NeverHoldingStaysFlat` the flat case. |
| KalmanTrend.TradesAt | kalman_strateji2.py:94 | `diff().fillna(0).abs()` is defined on every bar: 0 on bar 0, and the absolute change of position after that. |
| KalmanTrend.ChangeSizes | kalman_strateji2.py:93-94 | Between unit positions a trade has size 0, 1 or 2. It has size 2 exactly on a flip between -1 and 1, and size 0 exactly where the position does not change. |
| KalmanTrend.CostAt | kalman_strateji2.py:94-95 | The cost is the trade size times COMMISSION = 0.001, and it is 0 exactly on bars where the position does not change. |
| KalmanTrend.NetReturnAt | kalman_strateji2.py:89-98 | The net return is undefined on bar 0 and wherever the market return is. Elsewhere it is the previous bar's position times the market return, less the commission of the bar. |
| KalmanTrend.FlatBarEarnsNothing | kalman_strateji2.py:89-98 | A bar that starts flat and does not trade has net return 0. |
| KalmanTrend.SignalNetReturn | kalman_strateji2.py:79-98 | For any signal column, the net return of bar k is earned by the held position of bar k-1, and pays commission on the move to the held position of bar k. |
| KalmanTrend.NetGrowthAt | kalman_strateji2.py:98-102 | For any market-return column, the compounded net return is defined exactly where the net return is. It is undefined on bar 0, equals 1 + net[1] on bar 1, and afterwards multiplies by 1 + net[k] between two bars with defined net returns. |
| KalmanTrend.NeverHoldingStaysFlat | kalman_strateji2.py:102 | A position that is always 0 keeps the cumulative strategy at 1 wherever it is defined. |
| Backtest.MarketReturns | kalman_strateji2.py:84 | `Close.pct_change()`, one cell per close. `MarketReturnAt` gives its meaning. The same statement is at kalman_strateji.py:84 and ilk_stratejim.py:27. |
| Backtest.LaggedReturns | kalman_strateji2.py:89 | `position.shift(1) * rets`, one cell per bar. `LaggedReturnAt` gives its meaning. |
| Backtest.SignalReturns | ilk_stratejim.py:30 | `Signal.shift(1) * Market_Returns`, one cell per close. `SignalReturnAt`, `NeverInvestedStaysFlat` and `AlwaysInvestedTracksMarket` give its meaning. The same holds at kalman_strateji.py:81-85. |
| Backtest.MarketReturnAt | kalman_strateji2.py:84 | `pct_change` is undefined on bar 0 and after a zero close, and is otherwise close[k]/close[k-1] - 1. |
| Backtest.LaggedReturnAt | kalman_strateji2.py:89 | `position.shift(1) * rets` is undefined on bar 0 and wherever the return is, and is otherwise position[k-1]·rets[k]. |
| Backtest.UnitSignalAt | kalman_strateji.py:81-85 | For any return column, a lagged 0/1 signal earns 0 after a 0 and exactly the return after a 1. |
| Backtest.SignalReturnAt | kalman_strateji.py:81-85 | `Signal.shift(1) * Market_Returns` is undefined on bar 0 and after a zero close. Otherwise it is 0 if the previous signal was 0 and the market return if it was 1. The same holds at ilk_stratejim.py:30. |
| Backtest.NeverInvestedStaysFlat | ilk_stratejim.py:30-34 | A signal that is always 0 keeps the cumulative strategy at 1 wherever it is defined. |
| Backtest.AlwaysInvestedTracksMarket | ilk_stratejim.py:30-34 | A signal that is always 1 compounds exactly like the market. |
| Backtest.MarketGrowthAt | ilk_stratejim.py:33 | For positive closes, `(1 + Market_Returns).cumprod()` is undefined on bar 0 and is close[k]/close[0] afterwards, i.e. buy-and-hold. The same holds at kalman_strateji2.py:101 and kalman_strateji.py:88. |
| KalmanReversion.KalmanLine | kalman_strateji.py:57-61 | The Kalman line with Q = 0.005 and R = 1.0, one value per close. Its meaning comes from the `Kalman` lemmas. |
| KalmanReversion.Residual | kalman_strateji.py:65 | `Close - Kalman`, one cell per close. `ResidualAt`, `ResidualBounded` and `ConstantCloseNoResidual` give its meaning. |
| KalmanReversion.ZScore | kalman_strateji.py:70 | `Residual / Std`, one cell per close. `ZScoreAt` gives its meaning. |
| KalmanReversion.Signal | kalman_strateji.py:75-77 | The masked assignments, one signal per cell of the z-score. `SignalAt`, `BacktestSignalAt` and `UndefinedZIsFlat` give its meaning. |
| KalmanReversion.ResidualAt | kalman_strateji.py:58-65 | The residual is defined on every bar, is close - Kalman, and is 0 on bar 0. |
| KalmanReversion.ResidualBounded | kalman_strateji.py:65 | The residual's size at bar k is at most the price range of bars 0..k. |
| KalmanReversion.ConstantCloseNoResidual | kalman_strateji.py:58-65 | A constant close has residual 0 on every bar. |
| KalmanReversion.ZScoreAt | kalman_strateji.py:70 | The z-score is residual/std where std is defined and non-zero, and undefined elsewhere. |
| KalmanReversion.SignalAt | kalman_strateji.py:75-77 | The signal is in {0, 1}. It is 1 iff the z-score is defined and below -1.5. The exit rule (z > 0.5) never clears an entry, since the two conditions are disjoint. |
| KalmanReversion.BacktestSignalAt | kalman_strateji.py:65-77 | The signal is 1 iff std is defined and non-zero and residual/std < -1.5. |
| KalmanReversion.UndefinedZIsFlat | kalman_strateji.py:75-77 | An undefined z-score gives signal 0. This covers the first 29 bars, before the 30-bar rolling std is defined. |
| SmaCrossover.SmaShort | ilk_stratejim.py:18 | `Close.rolling(20).mean()`, one cell per close. `SmaAt` gives its meaning. |
| SmaCrossover.SmaLong | ilk_stratejim.py:19 | `Close.rolling(50).mean()`, one cell per close. `SmaAt` gives its meaning. |
| SmaCrossover.Signal | ilk_stratejim.py:22-23 | The masked assignment, one signal per close. `SignalAt`, `SignalNoLookahead` and `ConstantPricesNoSignal` give its meaning. |
| SmaCrossover.SmaAt | ilk_stratejim.py:18-19 | Each SMA is defined iff its window has filled (k >= 19, k >= 49), and is then the mean of the last 20 or 50 closes. |
| SmaCrossover.SignalAt | ilk_stratejim.py:22-23 | The signal is in {0, 1}. It is 1 iff k >= 49 and the 20-bar mean exceeds the 50-bar mean, so it is 0 for every k < 49. |
| SmaCrossover.SignalNoLookahead | ilk_stratejim.py:18-23 | The signal of bar k depends only on the closes of bars 0..k. |
| SmaCrossover.ConstantPricesNoSignal | ilk_stratejim.py:18-23 | On a constant close both means equal the close, so the strict `>` keeps the signal at 0. |
| SmaCrossover.StrategyReturnAt | ilk_stratejim.py:27-30 | For k >= 1 after a non-zero close, the strategy return is the market return if the 20-bar mean was above the 50-bar mean on bar k-1, and 0 otherwise. |
| SmaCrossover.WarmUpEarnsNothing | ilk_stratejim.py:22-30 | Before both SMAs exist the strategy earns exactly 0. |
| SmaCrossover.ConstantPricesStayInCash | ilk_stratejim.py:18-34 | On a constant non-zero close the cumulative strategy stays at 1. |
| StrategySignals.RunStrategy | strategy1.py:109-236 | `run_strategy`: entries, exits and direction, all as long as the frame. Their per-bar meaning is in `RawLongEntryAt`, `RawShortEntryAt`, `RisingEdgeAt`, `LongExitAt`, `ShortExitAt` and `DirectionAt`; `SignalsNoLookahead` states that bar k uses rows 0..k only. |
| StrategySignals.TrendUp | strategy1.py:118 | `ema_fast > ema_slow`, one cell per bar. `LongPathAt` reads it in the trend-follow, simple and momentum long paths. |
| StrategySignals.TrendDown | strategy1.py:119 | `ema_fast < ema_slow`, one cell per bar. `ShortPathAt` reads it in the trend-follow, simple and momentum short paths. |
| StrategySignals.DonchianUpper | strategy1.py:125 | The upper band column, one value per bar. `DonchianUpperAt` equates it with the reference `UpperBand`. |
| StrategySignals.DonchianLower | strategy1.py:126 | The lower band column, one value per bar. `DonchianLowerAt` equates it with the reference `LowerBand`. |
| StrategySignals.DonchianUpperAt | strategy1.py:125 | The shifted, NaN-filled rolling max is the highest high of the 20 bars strictly before k, and the close during the first 20 bars. |
| StrategySignals.DonchianLowerAt | strategy1.py:126 | The same for the lowest low. |
| StrategySignals.DonchianUpperBounds | strategy1.py:125 | After warm-up the upper band is at least every high of bars k-20..k-1 and equals one of them. |
| StrategySignals.DonchianLowerBounds | strategy1.py:126 | After warm-up the lower band is at most every low of bars k-20..k-1 and equals one of them. |
| StrategySignals.DonchianIgnoresCurrentBar | strategy1.py:125-126 | Both bands at bar k are unchanged by bar k's own high and low. |
| StrategySignals.DonchianWarmupNoBreakout | strategy1.py:125-126 | During the first 20 bars both bands equal the close, so neither the breakout nor the breakdown path can fire. |
| StrategySignals.CrossUp | strategy1.py:136 | The golden-cross mask, one cell per bar. `CrossAt` equates it with the reference `CrossesAbove`. |
| StrategySignals.CrossDown | strategy1.py:137 | The death-cross mask, one cell per bar. `CrossAt` equates it with the reference `CrossesBelow`. |
| StrategySignals.CrossAt | strategy1.py:136-137 | Cross-up iff fast > slow now and fast <= slow on the previous bar; cross-down likewise. Neither can happen on bar 0, and never both on one bar. |
| StrategySignals.PriceMomentumUp | strategy1.py:163 | `(close > close.shift(1)) & (close.shift(1) > close.shift(2))`, one cell per bar. `MomentumAt` equates it with the reference `RisesTwice`. |
| StrategySignals.PriceMomentumDown | strategy1.py:198 | `(close < close.shift(1)) & (close.shift(1) < close.shift(2))`, one cell per bar. `MomentumAt` equates it with the reference `FallsTwice`. |
| StrategySignals.MomentumAt | strategy1.py:163 | Price momentum holds iff two strictly rising (or, at line 198, falling) closes end at k, so it is false on bars 0 and 1. |
| StrategySignals.LongPathMask | strategy1.py:141-168 | The five long path masks, one cell per bar. `LongPathAt` equates each with the reference `LongPath`. |
| StrategySignals.ShortPathMask | strategy1.py:176-203 | The five short path masks, one cell per bar. `ShortPathAt` equates each with the reference `ShortPath`. |
| StrategySignals.RawLongEntry | strategy1.py:171-172 | The OR of the long paths, one cell per bar. `RawLongEntryAt` gives its meaning. |
| StrategySignals.RawShortEntry | strategy1.py:206-207 | The OR of the short paths, one cell per bar. `RawShortEntryAt` gives its meaning. |
| StrategySignals.LongPathAt | strategy1.py:141-168 | Each of the five long path masks agrees with its per-bar condition. |
| StrategySignals.ShortPathAt | strategy1.py:176-203 | Each of the five short path masks agrees with its per-bar condition. |
| StrategySignals.RawLongEntryAt | strategy1.py:171-172 | The raw long entry holds iff some long path fires. |
| StrategySignals.RawShortEntryAt | strategy1.py:206-207 | The raw short entry holds iff some short path fires. |
| StrategySignals.RisingEdge | strategy1.py:211-212 | `m & ~m.shift(1).fillna(False)`, as long as m. `RisingEdgeAt`, `RisingEdgeNotTwiceInARow` and `RisingEdgeOncePerRun` give its meaning. |
| StrategySignals.LongEntry | strategy1.py:211 | The de-duplicated long entry, one cell per bar. `RisingEdgeAt` with `RawLongEntryAt` gives its meaning, and `DirectionAt` uses it. |
| StrategySignals.ShortEntry | strategy1.py:212 | The de-duplicated short entry, one cell per bar. `RisingEdgeAt` with `RawShortEntryAt` gives its meaning, and `DirectionAt` uses it. |
| StrategySignals.RisingEdgeAt | strategy1.py:211-212 | The de-duplicated entry holds iff the raw entry holds and did not hold on the previous bar. |
| StrategySignals.RisingEdgeNotTwiceInARow | strategy1.py:211-212 | De-duplicated entries never fall on two consecutive bars. |
| StrategySignals.RisingEdgeOncePerRun | strategy1.py:211-212 | A maximal run of consecutive raw entries fires exactly once, at its first bar. |
| StrategySignals.LongExit | strategy1.py:216-219 | The long exit mask, one cell per bar. `LongExitAt` gives its meaning. |
| StrategySignals.ShortExit | strategy1.py:222-225 | The short exit mask, one cell per bar. `ShortExitAt` gives its meaning. |
| StrategySignals.LongExitAt | strategy1.py:216-219 | A long exit is a death cross, or a close under the lower band with RSI < 40. |
| StrategySignals.ShortExitAt | strategy1.py:222-225 | A short exit is a golden cross, or a close over the upper band with RSI > 60. |
| StrategySignals.WarmupExits | strategy1.py:216-229 | During the channel warm-up only a crossover can cause an exit, and on bar 0 nothing can. |
| StrategySignals.Direction | strategy1.py:231-234 | `direction = 0; direction[long_entry] = 1; direction[short_entry] = -1`, one value per bar. `DirectionAt` gives its meaning. |
| StrategySignals.DirectionAt | strategy1.py:228-234 | Direction is -1 iff a short entry, 1 iff a long entry without a short entry, and 0 otherwise. It is non-zero exactly on entry bars. |
| StrategySignals.SignalsNoLookahead | strategy1.py:109-236 | Entries, exits and direction at bar k are the same for any two frames that agree on bars 0..k. |
| StrategyPortfolio.EntriesLong | strategy1.py:443 | `entries & (direction == 1)`, one cell per bar. `EntrySplit` gives its meaning. The same statement is at line 512. |
| StrategyPortfolio.EntriesShort | strategy1.py:444 | `entries & (direction == -1)`, one cell per bar. `EntrySplit` gives its meaning. The same statement is at line 513. |
| StrategyPortfolio.EntrySplit | strategy1.py:443-444 | The long and short entries are disjoint and their union is the entries. A bar with both conditions goes short. The same holds at lines 512-513. |
| StrategyPortfolio.ShortReturns | strategy1.py:464 | `-close.pct_change().fillna(0)`, one value per close. `ShortReturnsNegated` equates it with the reference `NegatedReturns`. |
| StrategyPortfolio.ShortClose | strategy1.py:464-465 | The synthetic inverted close, one cell per close. `ShortCloseIsShortPrices` equates it with the reference `ShortPrices`, whose behaviour `ShortPricesStep`, `ShortPricesReturn` and `ShortPricesCollapse` state. |
| StrategyPortfolio.ShortReturnsNegated | strategy1.py:464 | `-pct_change().fillna(0)` is the negated daily return, 0 where that is undefined. |
| StrategyPortfolio.ShortCloseIsShortPrices | strategy1.py:464-465 | The pandas synthetic close is defined on every bar and equals the first close compounded by the negated daily returns. |
| StrategyPortfolio.ShortPricesStep | strategy1.py:465 | The synthetic close starts at close[0]; each bar multiplies it by 1 minus the close's daily return. |
| StrategyPortfolio.ShortPricesReturn | strategy1.py:464-465 | Where the previous close and previous synthetic close are non-zero, the synthetic return is exactly minus the close's return. The same holds at lines 531-532. |
| StrategyPortfolio.ShortPricesCollapse | strategy1.py:464-465 | A bar on which the close at least doubles takes a positive synthetic close to zero or below. |
| StrategyPortfolio.PortfolioValue | strategy1.py:268-269 | The equity curve, one value per return. `PortfolioValueIsCompounded` equates it with the reference `Compounded`. |
| StrategyPortfolio.BenchmarkValue | strategy1.py:270 | The benchmark curve, one value per close. `BenchmarkTracksClose` gives its meaning. |
| StrategyPortfolio.PortfolioValueIsCompounded | strategy1.py:268-269 | The equity curve needs no NaN fallback: it is init_cash compounded by the returns. |
| StrategyPortfolio.CompoundedPositive | strategy1.py:268 | Positive initial cash and returns above -100% keep the equity curve positive. |
| StrategyPortfolio.BenchmarkTracksClose | strategy1.py:270 | For positive closes the benchmark is init_cash·close[k]/close[0], i.e. buy-and-hold. |
| StrategyPortfolio.RunningMax | strategy1.py:272 | `expanding().max()`, one value per bar. `RunningMaxBounds` gives its meaning. |
| StrategyPortfolio.Drawdown | strategy1.py:273 | `(value - running_max) / running_max`, one cell per bar. `DrawdownBounds` gives its meaning. |
| StrategyPortfolio.RunningMaxBounds | strategy1.py:272 | The expanding max bounds every value so far and is one of them. |
| StrategyPortfolio.DrawdownBounds | strategy1.py:272-273 | For a positive equity curve the drawdown is defined and lies in (-1, 0]. It is 0 exactly where the value equals the running maximum, i.e. is not below any earlier value. |

## Left out

- Market data acquisition: `fetch_data`, the `yf.download` calls and the MultiIndex clean-up. These are network I/O; the models take the close, high and low series as inputs.
- Plotting, report printing, `print_stats`, the Sharpe ratio and the `__main__` orchestration. These are output only.
- `hybrid_strategy.py`. It is a thin wrapper around a portfolio simulator whose semantics are not visible.
- `vbt.Portfolio.from_signals`: stop-loss, trailing stop, sizing and fees. This simulation lives inside vectorbt, so the model stops at the signals and price series handed to it.
- The library indicators. Pandas `ewm` EMAs and `vbt.RSI` (already NaN-filled with 50) are input sequences of the `StrategySignals.Frame`.
- The rolling standard deviation of the residual. It needs a square root, so `KalmanReversion.ZScore` takes the standard-deviation column as a parameter.
- ATR in `strategy1.py`. It is computed at lines 129-133 but never used by `run_strategy`'s outputs. The identical computation is `Volatility.Atr`.
- Date-range masking (`loc[mask]`). The entry split and synthetic close are modelled on the series they are given.
- `portfolio_value.reindex(df.index, method='ffill')` is a no-op on a series with the frame's own index, and is not modelled. The fallback `pct_change().fillna(0)` for the strategy's returns is modelled only through `StrategyPortfolio.PortfolioValue` taking any return sequence.
- IEEE floating point. All arithmetic is exact real arithmetic.
  - Where floating point would produce inf or NaN, the model gives `None` (undefined): `pct_change` after a zero close, a z-score over a zero standard deviation, a drawdown over a zero running maximum.
  - Downstream of those cells the model and pandas part ways in two places. Both need a zero close or a zero standard deviation, which real price data does not produce.
    - After a zero close, `fillna(0)` in `DailyReturns`, `ShortReturns` and `BenchmarkValue` turns the model's `None` into a 0 return. When the next close is non-zero, pandas keeps an infinite return there, and the curves compounded from it become infinite or NaN.
    - A negative residual over a zero standard deviation is -inf in pandas. That meets `Z_Score < -1.5`, so pandas sets the signal to 1 where the model's undefined z-score gives 0.
- Kalman.Filter: stated for Q >= 0 and R > 0. That holds for the default arguments (1e-5/0.01) and at both call sites (0.01/0.5 and 0.005/1.0). Outside it, Q < 0, R < 0, or Q = R = 0 can divide by zero or give a negative variance. R = 0 with Q > 0 is well defined (the gain is 1 and the filter returns the prices), but it is not covered by the model.
- StrategyPortfolio.ShortPricesReturn: needs a non-zero previous synthetic close. ShortPricesCollapse shows the synthetic close can reach zero or below when the close doubles in one bar, and after that the negated-return identity no longer holds.
- Backtest.MarketGrowthAt: stated for positive closes only. After a zero close `pct_change` is infinite or NaN, and the buy-and-hold ratio is not defined.
- KalmanTrend.SignalAt: needs the first bar's high to be at least its low. This is what makes ATR non-negative, and so makes the threshold non-negative and the long and short rules disjoint.

## Notes on the source

- The direction series of `run_strategy` (strategy1.py:232-234) is not forward-filled. It is non-zero only on entry bars, and `DirectionAt` states exactly that.
- The Donchian bands fill their warm-up with the current close (strategy1.py:125-126). Because of that, the breakout and breakdown paths cannot fire in the first 20 bars (`DonchianWarmupNoBreakout`).
