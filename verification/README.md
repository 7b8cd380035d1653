# Weekly-trend advisors for funds and stocks, in Dafny

This project models the decision logic of two investment advisors that read
weekly price series.

- **Fund advisor** (`advisor_fund.py`). It reads a fund's weekly NAV and a
  benchmark index.
  - It classifies the fund into a trend stage with a confidence: 0 (too
    little data), 1 basing, 2 advancing, 3 topping or 4 declining.
  - It measures relative strength over 12-, 26- and 52-week windows.
  - It assesses risk: the maximum drawdown from the running peak, plus a
    Sharpe-like ratio.
  - It combines these into an action, a position suggestion, a score and a
    confidence.
- **Stock advisor** (`advisor_stock.py`). It reads a stock's weekly closes.
  - It derives a 30-week average, weekly returns, and a 20-week support and
    resistance.
  - It classifies the stage from the latest close, the 30-week average and
    the slope of that average.
  - It compares the stock's mean weekly return with the benchmark's.
  - It tests for a breakout above the trailing 12-week high.
  - It gives a graded advice with a fixed score, a volume confirmation and a
    stop-loss price.

Weekly series are sequences of already-normalised records. Dates are day
numbers. Values are exact `real`s, so no rounding is modelled.

Statistics that need a square root, a logarithm or a regression library are
parameters of the operations that read them:
- the least-squares slope and correlation of a moving-average window;
- the rolling standard deviation column `vol` and the log returns;
- the standard deviation of excess log returns;
- the downside volatility;
- the annualised volatility.

The modules are:
- `Wrappers`: the `Option` and `Result` types.
- `SeriesMath`: column projection, sums, means, trailing windows, maxima
  and minima, the non-null filter, and the inner join on dates.
- `FundStage`: the fund's stage classifier.
- `FundStrength`: the fund's relative strength. Its one imperative loop fills
  the per-window score and win-rate maps.
- `FundRisk`: the fund's risk assessment.
- `FundAdvice`: the fund's advice, and the whole fund analysis.
- `StockSeries`: the stock's derived weekly columns.
- `StockAdvisor`: the stock advisor.

Two short-data results of the fund advisor lack keys that the advice step
then reads. They are modelled as datatype variants without those fields:
- the short relative-strength result has no `latest_rs`;
- the short risk result has `sharpe` instead of `sharpe_ratio`.

The advice step returns `Failure` with the missing key, and so does the whole
fund analysis. One consequence is proved in `FundAdvice.AnalyzeFund`: every
successful analysis has at least 52 weeks, so its stage is never 0.

The fund position table is written as integer subtractions, so a range such
as `70-90` evaluates to -20. The model keeps those values.

## Model

| member | source | states |
|---|---|---|
| `SeriesMath.Present` | advisor_fund.py:118-121 | The non-null values of a column: never more than the column, each one a value of the column, the whole column in order when it has no gaps, and positive when the column's values are. |
| `SeriesMath.PresentCountsEntries` | advisor_fund.py:118 | There are exactly as many values as non-null entries, which is the count compared with the window. |
| `SeriesMath.PresentKeepsEveryValue` | advisor_fund.py:121 | Every non-null value of the column is among the kept values. |
| `SeriesMath.PresentOfConcat` | advisor_fund.py:121 | Filtering a concatenation gives the filtered parts in their order, so the kept values keep the column's order. |
| `SeriesMath.InnerJoin` | advisor_fund.py:226 | The join is no longer than the left series; each pair's left row comes from the left series, and its right row is the first right row with the same date. |
| `SeriesMath.JoinKeepsMatchedRows` | advisor_fund.py:226 | Every left row whose date occurs on the right is in the join, paired with the first right row of that date. |
| `SeriesMath.JoinKeepsDateOrder` | advisor_fund.py:226 | When the left dates strictly increase, so do the dates of the joined pairs: the join keeps the left order. |
| `SeriesMath.JoinKeepsCoveredRows` | advisor_fund.py:226 | When every left date occurs on the right, the join keeps every left row. |
| `SeriesMath.MaxOf` | advisor_stock.py:161 | The column maximum bounds every element and is attained. |
| `SeriesMath.MinOf` | advisor_fund.py:275 | The column minimum is below every element and is attained. |
| `SeriesMath.SumOfDifference` | advisor_stock.py:152-154 | The sum of element-wise differences is the difference of the sums. |
| `SeriesMath.MeanOfDifference` | advisor_stock.py:152-154 | The mean of element-wise differences is the difference of the means. |
| `SeriesMath.MeanOfPositives` | advisor_fund.py:129 | A mean of positive values is positive, so normalising a slope by the window mean is defined. |
| `FundStage.MaSlope` | advisor_fund.py:113-131 | With fewer than `window` non-null values the result is (0, 0). Otherwise R² is the squared correlation, and the normalised slope has the sign of the raw slope. R² is never negative, and it is at most 1 when the supplied correlation lies in [-1, 1]. |
| `FundStage.SquareOfCorrelation` | advisor_fund.py:131 | The square of a correlation coefficient lies in [0, 1]. |
| `FundStage.DiffPct` | advisor_fund.py:155-158 | The percent distance from a moving average is positive, negative or zero exactly as the close is above, below or at it, and the average scaled by 1 + d/100 gives back the close. |
| `FundStage.DiffPctThreshold` | advisor_fund.py:172-187 | A threshold t on the percent distance is the price threshold (1 + t/100) times the average, in both directions. |
| `FundStage.Arrangement` | advisor_fund.py:161 | The result is 1 iff ma10 > ma20 > ma30, -1 iff ma10 < ma20 < ma30, and 0 otherwise. |
| `FundStage.VolRatio` | advisor_fund.py:164 | The ratio is 1 when the average volatility is not positive. Otherwise it times the average gives back the latest volatility. |
| `FundStage.Derive` | advisor_fund.py:142-164 | The signals come from the latest row and the fit: diff30 and diff10 are the percent distances of the latest close from ma30 and ma10; slope30 has the sign of the fitted slope; R² is the squared correlation; the arrangement follows the ordering of the averages; the volume ratio is the ratio of the latest `vol` to the mean of the last 20; R² and the ratio are not negative. |
| `FundStage.RuleGuardsExclusive` | advisor_fund.py:172-198 | No two of the declining, advancing, topping and basing guards hold together. |
| `FundStage.Classify` | advisor_fund.py:171-203 | The stage is in 1..4. Stages 4, 2 and 3 hold iff their guard holds; basing signals iff the basing guard holds; the fallback iff no guard holds, with stage 1 and confidence 0.3. Stage 2 confidence is exactly 0.9 and stage 3 exactly 0.8; stages 4 and 1 are capped at 0.9 and 0.8. |
| `FundStage.NegativeConfidenceReachable` | advisor_fund.py:175 | Witnesses show a negative confidence for stage 4 and for the basing rule, because there is no lower clamp. |
| `FundStage.JudgeStageEnhanced` | advisor_fund.py:133-216 | Stage 0 with confidence 0 iff fewer than 30 rows; otherwise a stage in 1..4 with key metrics. Stage 4 implies close < ma30, a bearish stack and a falling close. Stage 2 implies the mirror image. Stage 3 implies close > ma30. Basing signals imply ma10 < close < ma30. With 30 rows or more, stage 4, 2 and 3 hold iff the declining, advancing and topping rules hold on the derived metrics. The basing reason holds iff the basing rule does. The confidence is the rule chain's. The key metrics are the derived diff30 (`DiffPct` of close and ma30), slope, r² (the squared correlation), volume ratio and arrangement. |
| `FundStage.StageThresholdsOnPrices` | advisor_fund.py:172-190 | A declining fund closes more than 3% under its 30-week average, an advancing one more than 1% over it, and a topping one within 2% of its 10-week average. |
| `FundStage.ClassifyThresholdsOnPrices` | advisor_fund.py:172-190 | The same price levels, for metrics whose distances are those of a close from its averages. |
| `FundStrength.Align` | advisor_fund.py:226 | The aligned series is no longer than the fund series. |
| `FundStrength.AlignedWeeksComeFromBoth` | advisor_fund.py:226 | Each aligned week has a fund week and an index week of its own date, and takes `ret`/`log_ret` from the first and `ret_index`/`log_ret_index` from the second. |
| `FundStrength.AlignKeepsMatchedWeeks` | advisor_fund.py:226 | Every fund week whose date the index has is aligned, with its own return. |
| `FundStrength.AlignKeepsDateOrder` | advisor_fund.py:226 | Fund weeks in date order give aligned weeks in date order. |
| `FundStrength.MaxLookbackIsUpperBound` | advisor_fund.py:227 | Every lookback is at most `max(lookback_periods)`. |
| `FundStrength.RiskAdjustedRs` | advisor_fund.py:251-253 | The value is 0 unless the supplied deviation is positive. Otherwise its sign is the sign of the mean excess log return over the last 52 aligned weeks (or all of them when fewer). |
| `FundStrength.RelativeStrengthEnhanced` | advisor_fund.py:218-260 | The result is short iff the aligned length is below the largest lookback; the short form has empty scores and zeros. Otherwise the score and win-rate maps are keyed exactly by the lookbacks. Each entry is the compounded excess return and the strict win fraction of its window. `latest_rs` is the 12-week score, or 0 when 12 is not a lookback. |
| `FundStrength.DefaultWindowsScored` | advisor_fund.py:218-259 | With the default lookbacks, a full result's score and win-rate maps are keyed by exactly 12, 26 and 52, and `latest_rs` is the 12-week score. |
| `FundStrength.FullPathScoresEveryWindow` | advisor_fund.py:233-248 | On the full path every lookback window is complete, so the in-loop short-window branch never applies. |
| `FundStrength.WinRateInUnitInterval` | advisor_fund.py:246-248 | A win rate lies in [0, 1]. |
| `FundStrength.NoWinsOnTies` | advisor_fund.py:247 | A week whose fund return equals the index return is not a win. |
| `FundStrength.IdenticalReturnsNeutral` | advisor_fund.py:239-248 | A fund matching its index week by week scores 0 and has win rate 0. |
| `FundStrength.SelfJoinAlignsIdentically` | advisor_fund.py:226 | A fund joined with itself as benchmark keeps every week and pairs equal returns. |
| `FundStrength.SelfJoinKeepsEveryWeek` | advisor_fund.py:226 | Joining a fund with itself keeps every week. |
| `FundStrength.SelfJoinPairsSameWeek` | advisor_fund.py:226 | With distinct dates, each self-joined week pairs a return with itself. |
| `FundStrength.CompoundEqual` | advisor_fund.py:239-241 | Weeks with equal fund and index returns give equal return columns, so equal compounded returns. |
| `FundRisk.RunningMax` | advisor_fund.py:273 | The running peak of each week is at least every close up to and including that week. |
| `FundRisk.RunningMaxIsAttained` | advisor_fund.py:273 | The running peak of each week is one of the closes up to that week. |
| `FundRisk.Drawdowns` | advisor_fund.py:274 | Each week's drawdown lies in (-100, 0] and is measured against its running peak. |
| `FundRisk.MaxDrawdown` | advisor_fund.py:274-275 | The maximum drawdown lies in (-100, 0], is at most every week's drawdown and equals one of them. |
| `FundRisk.RunningMaxOfNonDecreasing` | advisor_fund.py:273 | For closes that never fall, the running peak is the current close. |
| `FundRisk.NoDrawdownWhenNonDecreasing` | advisor_fund.py:272-275 | A series whose closes never fall has a maximum drawdown of 0. |
| `FundRisk.Sharpe` | advisor_fund.py:283-285 | The ratio is 0 without positive volatility. Otherwise it is positive or negative exactly as the annualised mean return is above or below 2%. |
| `FundRisk.RiskAssessment` | advisor_fund.py:262-291 | The result is short, all zeros under the keys `downside_vol`/`sharpe`, iff there are fewer than 20 rows. Otherwise the drawdown is the maximum drawdown of the closes, in (-100, 0] and 0 for non-decreasing closes; the downside volatility is the supplied one; the ratio is 0 without volatility and otherwise positive or negative exactly as the annualised mean return is above or below 2%. |
| `FundAdvice.BaseFor` | advisor_fund.py:306-314 | Base scores lie in [0, 80]. The stages map to 等待/0, 观望/50, 买入/80, 减仓/40 and 卖出/20 for stages 0 to 4. Any stage outside 0..4 gets 观望/30. |
| `FundAdvice.PositionFor` | advisor_fund.py:355-365 | Positions are never positive. 卖出, 止损卖出, 观望 and the unlisted 等待 give 0; the range entries give their integer differences (-20, or -10 for 轻仓布局). |
| `FundAdvice.RsFactor` | advisor_fund.py:318 | The factor lies in [0, 1]; it is 0 iff rs ≤ -0.1 and 1 iff rs ≥ 0.9. |
| `FundAdvice.RiskFactor` | advisor_fund.py:319 | The factor lies in [0.5, 1]; it is 1 iff sharpe ≥ 0 and 0.5 iff sharpe ≤ -1. |
| `FundAdvice.Scale` | advisor_fund.py:322 | Scaling a non-negative value by a factor in [0, 1] keeps it in [0, value]. A zero factor gives 0. |
| `FundAdvice.ScaledScore` | advisor_fund.py:322 | The final score is base × confidence × rs factor × risk factor. With the confidence in [0, 1] it lies in [0, base score]. A zero confidence gives 0. |
| `FundAdvice.GenerateAdviceEnhanced` | advisor_fund.py:293-373 | A short relative-strength result fails on `latest_rs`, and otherwise a short risk result fails on `sharpe_ratio`. Success iff both results are full. Stage 2 is 重仓买入 iff rs > 0.05 ∧ sharpe > 1, stays 买入 iff not that ∧ rs > 0 ∧ sharpe > 0, and is 轻仓买入 otherwise. Stage 1 is 轻仓布局 iff rs > 0 ∧ max_dd > -10; stage 3 is 部分止盈 iff rs > 0 ∧ confidence < 0.5; stage 4 is 止损卖出 iff max_dd < -20 ∧ sharpe < 0. The position is looked up by action. The score is `ScaledScore` of the stage's base score, the confidence, `RsFactor(latest_rs)` and `RiskFactor(sharpe)`, which is their product. Stage 0 gives score 0. |
| `FundAdvice.Refine` | advisor_fund.py:324-352 | Stage 2 becomes 重仓买入 when rs > 0.05 and sharpe > 1, keeps its base action when rs > 0 and sharpe > 0, and is 轻仓买入 otherwise. Stage 1 becomes 轻仓布局 iff rs > 0 and max_dd > -10. Stage 3 becomes 部分止盈 iff rs > 0 and confidence < 0.5. Stage 4 becomes 止损卖出 iff max_dd < -20 and sharpe < 0. Other stages keep the base entry, and the note always starts with the base note. |
| `FundAdvice.AnalyzeFund` | advisor_fund.py:376-419 | An empty fund series or an empty benchmark series is an error. With both non-empty, fewer than 52 aligned weeks fail on `latest_rs` and at least 52 succeed. A success has at least 52 weeks, a stage in 1..4, and the advice of its stage, strength and risk. Its strength is full and keyed by 12, 26 and 52 weeks. Each entry is `ScoreFor` and `WinRateFor` of the aligned series at that lookback, and `latest_rs` is the 12-week score. A topping stage always advises 减仓, never 部分止盈. |
| `StockSeries.Support` | advisor_stock.py:79 | The 20-week support is at most every close of its window, and equals one of them. |
| `StockSeries.Resistance` | advisor_stock.py:80 | The 20-week resistance is at least every close of its window, and equals one of them. |
| `StockSeries.MovingAverage` | advisor_stock.py:77 | The 30-week average is the mean of the window's closes, and is positive for positive closes. |
| `StockSeries.WeekReturn` | advisor_stock.py:78 | The weekly change of positive closes is above -1. |
| `StockSeries.DeriveRow` | advisor_stock.py:77-80 | Support and resistance bound every close of the 20-week window. ma30 is the mean of the last 30 closes and is positive. ret is the week-over-week change. |
| `StockSeries.WeeklyRows` | advisor_stock.py:77-81 | Rows before the 30th week are dropped; each kept row is the derived row of its week, with that week's date and close, a positive ma30, and a close between its support and resistance. |
| `StockSeries.DerivedRowsFacts` | advisor_stock.py:77-81 | Derived rows keep their week's date and close, lie between support and resistance, and have a positive ma30. |
| `StockAdvisor.Diff` | advisor_stock.py:137 | The gap is 0 when the average is 0. Otherwise the average scaled by 1 + gap gives back the close, and for a positive average the gap's sign follows close against average. |
| `StockAdvisor.JudgeStage` | advisor_stock.py:132-144 | The stage is in 1..4. It is 4 iff close < ma ∧ slope < 0 ∧ diff < -0.03. Above the average it is 2 iff slope > 0 and 3 iff slope ≤ 0. At the average it is 1. |
| `StockAdvisor.ShortHistoryHasNoTrend` | advisor_stock.py:122-144 | With fewer than 10 weeks the slope of the average is 0, so the stage is 3 above the average and 1 otherwise. |
| `StockAdvisor.StageFourNeedsPositiveAverage` | advisor_stock.py:137-139 | An average that is not positive never gives stage 4: at 0 the gap is 0, and below 0 a close under the average has a positive gap. |
| `StockAdvisor.DecliningClosesUnderAverage` | advisor_stock.py:137-139 | Stage 4 means the latest close is more than 3% under its 30-week average. |
| `StockAdvisor.AlignStock` | advisor_stock.py:148 | Aligned pairs take a stock week and a benchmark week of the same date, and there are no more of them than stock weeks. |
| `StockAdvisor.AlignStockKeepsMatchedWeeks` | advisor_stock.py:148 | Every stock week whose date the benchmark has is aligned. |
| `StockAdvisor.AlignStockKeepsDateOrder` | advisor_stock.py:148 | Stock weeks in date order give aligned pairs in date order. |
| `StockAdvisor.RelativeStrength` | advisor_stock.py:147-154 | The value is 0 with fewer than `lookback` aligned weeks. Otherwise it is the mean weekly excess return over the last `lookback` aligned weeks. Equal stock and benchmark returns give 0; beating the benchmark in every week of the window gives a positive value. |
| `StockAdvisor.WindowStrength` | advisor_stock.py:151-154 | The stock's mean return less the benchmark's over a full window is the mean excess return; it is 0 for equal returns and positive when the stock wins every week. |
| `StockAdvisor.ExcessWindowMean` | advisor_stock.py:151-154 | The difference of the two mean returns equals the mean of the weekly differences. |
| `StockAdvisor.DetectBreakout` | advisor_stock.py:157-163 | The result is false with fewer than `lookback + 1` weeks, or with an empty window. |
| `StockAdvisor.BreakoutBeatsEveryPriorClose` | advisor_stock.py:157-163 | For 1 + threshold ≥ 0, a breakout holds iff the latest close strictly beats each of the previous `lookback` closes scaled by 1 + threshold. |
| `StockAdvisor.TrailingHigh` | advisor_stock.py:160-161 | The trailing high bounds each of the previous `lookback` closes, excluding the latest one, and equals one of them. |
| `StockAdvisor.BeatsAllBelowHigh` | advisor_stock.py:161-163 | A close beats a non-negatively scaled high iff it beats every prior close under the same scale. |
| `StockAdvisor.ExactMatchIsNoBreakout` | advisor_stock.py:163 | A latest close exactly equal to the scaled trailing high is no breakout. |
| `StockAdvisor.GenerateAdvice` | advisor_stock.py:166-259 | Every score is in {85,70,65,60,55,50,45,40,25,15}. 买入 iff stage 2 ∧ rs > threshold ∧ breakout ∧ volume_ok, and exactly then the score is 85. Stage 2 without the volume gives 观望/70, without a breakout 观望/65, and otherwise 60 or 55. Stage 1 always gives 观望/60. Stage 3 gives 减仓 with 45 or 40. Stage 4 gives 止损/25 without a breakout and 清仓/15 with one. Any other stage gives 观望/50. |
| `StockAdvisor.VolumeConfirmed` | advisor_stock.py:274-276 | Volume is confirmed iff the latest volume exceeds 1.5 times the mean of the 12 weeks before it. Then it exceeds 1.5 times at least one of them; exceeding 1.5 times each of them confirms; a steady non-negative volume never confirms. |
| `SeriesMath.MeanBelow` | advisor_stock.py:275-276 | A mean of values all below a bound is below it. |
| `SeriesMath.MeanAtLeast` | advisor_stock.py:275-276 | A mean of values all at least a bound is at least it. |
| `StockAdvisor.StopLossPrice` | advisor_stock.py:283-284 | Both branches give floor(support) − 0.05, which lies strictly between support − 1.05 and support. |
| `StockAdvisor.AnalyzeStock` | advisor_stock.py:262-306 | An empty series fails. The relative strength is 0 without benchmark data. A false volume_ok implies a breakout and a volume column; when both hold it is the volume confirmation. The advice uses threshold 0.005. The stop-loss is floor(support) − 0.05, below the support, and below the latest close when the close is at or above the support. |
| `StockAdvisor.DerivedSeriesStopsBelowClose` | advisor_stock.py:79-284 | For a series derived from at least 30 positive closes (lines 77-84), the analysis succeeds, the latest close lies between support and resistance, and the stop-loss of lines 281-284 is below it. |

## Behaviour of the code that differs from its description

- **Win rate of identical series.** The win count uses a strict `>`. A fund
  that tracks its benchmark exactly therefore has win rate 0, not one half.
- **Confidence can be negative.** The declining and basing confidences are
  capped above but have no lower clamp.
  - `FundStage.NegativeConfidenceReachable` exhibits negative values.
  - The score bound in `FundAdvice.GenerateAdviceEnhanced` is stated only
    for confidences in [0, 1].
- **Position table.** It evaluates its ranges as integer subtractions, so no
  suggested position is positive.
- **Missing keys.** The short relative-strength and risk results lack
  `latest_rs` and `sharpe_ratio`, and the advice step reads both. So a fund
  with fewer than 52 aligned weeks is never advised:
  - the stage-0 (等待) entry of the base table cannot be reached from
    `analyze_fund_enhanced`;
  - neither can the fund with 20 to 51 weeks.
- **Partial profit-taking is unreachable.** The advice step turns a topping
  stage into 部分止盈 only when the stage confidence is below 0.5. The
  topping rule always sets confidence 0.8 (its `min(0.8, …)` term is at
  least 0.8 whenever the rule applies), so a full fund analysis of a topping
  fund always advises 减仓. `FundAdvice.AnalyzeFund` states this.
- **Risk-free rate.** The fund's ratio uses a hard-coded rate of 0.02. A
  configured rate of 0.03 exists but is not read.
- **Unused values.** The fund classifier computes the 20-week slope, its R²
  and `diff20`, and never uses them. They are not modelled.

## Left out

- Fetching data (`fetch_*` in both files): network calls, date parsing and weekly calendar resampling. Weekly series are inputs.
- `fetch_fund_info` and `fetch_stock_info`: they only feed labels into reports.
- The user interface, the app launcher and the configuration module: they hold no advice logic.
- `round(...)` of confidences, scores, rates and drawdowns: values are exact reals.
- Formatted note texts: notes are tags naming the branch taken.
- Floating-point behaviour: NaN propagation, infinities and division by a zero close.
- The regression, square-root and logarithm statistics: they are inputs.
  - The fit slope and correlation, `vol` and the log returns.
  - The standard deviation of excess log returns, the downside volatility and the annualised volatility.
- Timestamps, and the exception-to-error-record wrapper of `analyze_stock`: the model reports an empty stock series as a `Failure`, and a missing key in the fund analysis likewise.
- Duplicate dates in the inner join: the join pairs a row with the first benchmark row of its date, which matches the source only for unique dates.
- `FundStrength.RelativeStrengthEnhanced`: requires a non-empty list of positive lookbacks; `max` of an empty list raises an error in the source, and no caller passes one. The source's `iloc[-0:]` would take the whole series for a lookback of 0, which no caller passes.
- `FundStage.MaSlope`: requires a positive window, because the source only ever passes 10.
- `StockAdvisor.MaSlope`: requires a positive window, for the same reason.
- `StockAdvisor.RelativeStrength`: requires a positive lookback, because the source only ever passes 12.
- `StockAdvisor.DetectBreakout`: its own contract states only the cases that are false; the comparison itself is stated by `StockAdvisor.BreakoutBeatsEveryPriorClose` for a non-negative scale.
- `FundStrength.MaxLookback`: carries no contract of its own; `FundStrength.MaxLookbackIsUpperBound` states its bound.
- `FundAdvice.AnalyzeFund`: takes the fund's and benchmark's series as already fetched. It does not model the report's formatted date or the fund-information record.
- `StockSeries.WeeklyRows`: requires positive closes, so that weekly returns are defined. Rows with a missing close or volume are assumed already removed.
