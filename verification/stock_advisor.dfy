/**
 * The stock advisor (advisor_stock.py): a four-way stage classifier on the
 * 30-week average, relative strength against a benchmark, a breakout test
 * against the trailing high, a branch tree of advice with fixed scores, and
 * the volume confirmation and stop-loss of a single analysis.
 */
module StockAdvisor {
  import opened Wrappers
  import opened SeriesMath
  import opened StockSeries

  /** A week of the benchmark index's weekly series. */
  datatype IndexWeek = IndexWeek(date: int, close: real, ret: real)

  /** A stock's weekly series, and whether its source reported volumes. */
  datatype StockWeekly = StockWeekly(rows: seq<StockWeek>, hasVolume: bool)

  /**
   * `compute_ma_slope`: 0 when fewer than `window` values exist, otherwise
   * the least-squares slope `fitSlope` of the last `window` values (the
   * regression itself is supplied).
   */
  function MaSlope(ma: seq<real>, window: nat, fitSlope: real): (slope: real)
    requires window > 0
    ensures |ma| < window ==> slope == 0.0
    ensures |ma| >= window ==> slope == fitSlope
  {
    if |ma| < window then 0.0 else fitSlope
  }

  /** Weeks of the moving average the slope is fitted over. */
  const SlopeWindow: nat := 10

  /** Percent gap of the close from its average, as a fraction; 0 when the average is 0. */
  function Diff(close: real, ma: real): (d: real)
    ensures ma == 0.0 ==> d == 0.0
    ensures ma > 0.0 ==> (d < 0.0 <==> close < ma) && (d > 0.0 <==> close > ma)
    ensures ma != 0.0 ==> ma * (1.0 + d) == close
  {
    if ma != 0.0 then close / ma - 1.0 else 0.0
  }

  /**
   * `judge_stage` on the latest week: stage 4 (declining) needs the close
   * more than 3% under a falling average; above the average the stage is 2
   * or 3 by the sign of the slope; everything else is stage 1.
   */
  function JudgeStage(w: seq<StockWeek>, fitSlope: real): (stage: int)
    requires |w| > 0
    ensures 1 <= stage <= 4
    ensures var last := w[|w| - 1]; var slope := MaSlope(Column(w, Ma30Of), SlopeWindow, fitSlope);
            && (stage == 4 <==> last.close < last.ma30 && slope < 0.0 && Diff(last.close, last.ma30) < -0.03)
            && (last.close > last.ma30 ==> (stage == 2 <==> slope > 0.0) && (stage == 3 <==> slope <= 0.0))
            && (last.close == last.ma30 ==> stage == 1)
            && (last.close < last.ma30 ==> stage == 1 || stage == 4)
  {
    var last := w[|w| - 1];
    var slope := MaSlope(Column(w, Ma30Of), SlopeWindow, fitSlope);
    var diff := Diff(last.close, last.ma30);
    if last.close < last.ma30 && slope < 0.0 && diff < -0.03 then 4
    else if last.close > last.ma30 && slope > 0.0 then 2
    else if last.close > last.ma30 && slope <= 0.0 then 3
    else 1
  }

  /** With fewer weeks than the slope window the slope is 0, so only stages 1 and 3 occur. */
  lemma ShortHistoryHasNoTrend(w: seq<StockWeek>, fitSlope: real)
    requires 0 < |w| < SlopeWindow
    ensures JudgeStage(w, fitSlope) == (if w[|w| - 1].close > w[|w| - 1].ma30 then 3 else 1)
  {
    assert MaSlope(Column(w, Ma30Of), SlopeWindow, fitSlope) == 0.0;
  }

  /**
   * An average that is not positive (which a series of positive closes never
   * has) never gives stage 4: at 0 the gap is 0, and below 0 a close under
   * the average lies above it in ratio, so the gap is positive.
   */
  lemma StageFourNeedsPositiveAverage(w: seq<StockWeek>, fitSlope: real)
    requires |w| > 0 && w[|w| - 1].ma30 <= 0.0
    ensures JudgeStage(w, fitSlope) != 4
  {
    var last := w[|w| - 1];
    if last.close < last.ma30 < 0.0 {
      assert last.close / last.ma30 > 1.0;
    }
  }

  /** Stage 4 reads the -3% gap as a price level: the close is more than 3% under the average. */
  lemma DecliningClosesUnderAverage(w: seq<StockWeek>, fitSlope: real)
    requires |w| > 0
    ensures JudgeStage(w, fitSlope) == 4 ==> w[|w| - 1].close < 0.97 * w[|w| - 1].ma30
  {
    var last := w[|w| - 1];
    if JudgeStage(w, fitSlope) == 4 {
      var d := Diff(last.close, last.ma30);
      assert d < -0.03;
      if last.ma30 > 0.0 {
        RatioBelow(last.close, last.ma30, 0.97);
      } else {
        StageFourNeedsPositiveAverage(w, fitSlope);
      }
    }
  }

  /** A ratio to a positive average below `f` puts the close below `f` times the average. */
  lemma RatioBelow(close: real, ma: real, f: real)
    requires ma > 0.0 && close / ma < f
    ensures close < f * ma
  {
    MulMonotoneStrict(close / ma, f, ma);
    assert close / ma * ma == close;
  }

  lemma MulMonotoneStrict(x: real, y: real, m: real)
    requires x < y && m > 0.0
    ensures x * m < y * m
  {
  }

  function StockDate(s: StockWeek): int { s.date }

  function IndexDate(x: IndexWeek): int { x.date }

  /** The stock's weeks paired with the benchmark week of the same date, in the stock's order. */
  function AlignStock(stock: seq<StockWeek>, index: seq<IndexWeek>): (a: seq<(StockWeek, IndexWeek)>)
    ensures |a| <= |stock|
    ensures forall k :: 0 <= k < |a| ==> a[k].0 in stock && a[k].1 in index && a[k].0.date == a[k].1.date
  {
    InnerJoin(stock, index, StockDate, IndexDate)
  }

  /** Every stock week whose date the benchmark also has is aligned. */
  lemma AlignStockKeepsMatchedWeeks(stock: seq<StockWeek>, index: seq<IndexWeek>)
    ensures var a := AlignStock(stock, index);
            forall i :: 0 <= i < |stock| && (exists q :: 0 <= q < |index| && index[q].date == stock[i].date) ==>
              exists k :: 0 <= k < |a| && a[k].0 == stock[i]
  {
    var a := AlignStock(stock, index);
    JoinKeepsMatchedRows(stock, index, StockDate, IndexDate);
    forall i | 0 <= i < |stock| && (exists q :: 0 <= q < |index| && index[q].date == stock[i].date)
      ensures exists k :: 0 <= k < |a| && a[k].0 == stock[i]
    {
      var q :| 0 <= q < |index| && index[q].date == stock[i].date;
      assert IndexDate(index[q]) == StockDate(stock[i]);
      var x := FindDate(index, IndexDate, StockDate(stock[i])).value;
      var k :| 0 <= k < |a| && a[k] == (stock[i], x);
    }
  }

  /** A stock series in date order gives aligned weeks in date order. */
  lemma AlignStockKeepsDateOrder(stock: seq<StockWeek>, index: seq<IndexWeek>)
    requires forall i, i' :: 0 <= i < i' < |stock| ==> stock[i].date < stock[i'].date
    ensures var a := AlignStock(stock, index);
            forall k, k' :: 0 <= k < k' < |a| ==> a[k].0.date < a[k'].0.date
  {
    assert DatesIncrease(stock, StockDate);
    JoinKeepsDateOrder(stock, index, StockDate, IndexDate);
  }

  function StockRetOf(p: (StockWeek, IndexWeek)): real { p.0.ret }

  function BenchRetOf(p: (StockWeek, IndexWeek)): real { p.1.ret }

  function ExcessRetOf(p: (StockWeek, IndexWeek)): real { p.0.ret - p.1.ret }

  /**
   * `relative_strength`: 0 when fewer than `lookback` weeks align; otherwise
   * the stock's mean weekly return minus the benchmark's over the last
   * `lookback` aligned weeks, which is the mean weekly excess return.  A
   * stock that matches the benchmark every aligned week has strength 0, and
   * one that beats it every week of the window has positive strength.
   */
  function RelativeStrength(stock: seq<StockWeek>, index: seq<IndexWeek>, lookback: nat): (rs: real)
    requires lookback > 0
    ensures |AlignStock(stock, index)| < lookback ==> rs == 0.0
    ensures |AlignStock(stock, index)| >= lookback ==>
              rs == Mean(Tail(Column(AlignStock(stock, index), ExcessRetOf), lookback))
    ensures Column(AlignStock(stock, index), StockRetOf) == Column(AlignStock(stock, index), BenchRetOf) ==> rs == 0.0
    ensures var a := AlignStock(stock, index);
            |a| >= lookback && (forall k :: |a| - lookback <= k < |a| ==> a[k].0.ret > a[k].1.ret) ==> rs > 0.0
  {
    var a := AlignStock(stock, index);
    if |a| < lookback then 0.0
    else
      var rs := WindowStrength(a, lookback);
      rs
  }

  /**
   * The mean return of the stock over the last `lookback` aligned weeks less
   * the benchmark's: the mean excess return of those weeks.
   */
  function WindowStrength(a: seq<(StockWeek, IndexWeek)>, lookback: nat): (rs: real)
    requires 0 < lookback <= |a|
    ensures rs == Mean(Tail(Column(a, ExcessRetOf), lookback))
    ensures (forall k :: 0 <= k < |a| ==> a[k].0.ret == a[k].1.ret) ==> rs == 0.0
    ensures (forall k :: |a| - lookback <= k < |a| ==> a[k].0.ret > a[k].1.ret) ==> rs > 0.0
  {
    ExcessWindowMean(a, lookback);
    EqualWindowMeans(a, lookback);
    BeatenWindowPositive(a, lookback);
    Mean(Tail(Column(a, StockRetOf), lookback)) - Mean(Tail(Column(a, BenchRetOf), lookback))
  }

  /** Over a full window, the difference of mean returns is the mean excess return. */
  lemma ExcessWindowMean(a: seq<(StockWeek, IndexWeek)>, lookback: nat)
    requires 0 < lookback <= |a|
    ensures Mean(Tail(Column(a, StockRetOf), lookback)) - Mean(Tail(Column(a, BenchRetOf), lookback))
            == Mean(Tail(Column(a, ExcessRetOf), lookback))
  {
    var cs := Column(a, StockRetOf);
    var cb := Column(a, BenchRetOf);
    var cd := Column(a, ExcessRetOf);
    assert forall k :: 0 <= k < |a| ==> cd[k] == cs[k] - cb[k];
    var lo := |a| - lookback;
    var s, b, d := cs[lo..], cb[lo..], cd[lo..];
    assert forall k :: 0 <= k < |d| ==> d[k] == s[k] - b[k];
    MeanOfDifference(s, b, d);
  }

  /** Equal returns in every aligned week give equal mean returns over the window. */
  lemma EqualWindowMeans(a: seq<(StockWeek, IndexWeek)>, lookback: nat)
    requires 0 < lookback <= |a|
    ensures (forall k :: 0 <= k < |a| ==> a[k].0.ret == a[k].1.ret) ==>
              Mean(Tail(Column(a, StockRetOf), lookback)) == Mean(Tail(Column(a, BenchRetOf), lookback))
  {
    if forall k :: 0 <= k < |a| ==> a[k].0.ret == a[k].1.ret {
      assert Column(a, StockRetOf) == Column(a, BenchRetOf);
    }
  }

  /** Beating the benchmark every week of the window gives a positive mean excess return. */
  lemma BeatenWindowPositive(a: seq<(StockWeek, IndexWeek)>, lookback: nat)
    requires 0 < lookback <= |a|
    ensures (forall k :: |a| - lookback <= k < |a| ==> a[k].0.ret > a[k].1.ret) ==>
              Mean(Tail(Column(a, ExcessRetOf), lookback)) > 0.0
  {
    if forall k :: |a| - lookback <= k < |a| ==> a[k].0.ret > a[k].1.ret {
      var d := Tail(Column(a, ExcessRetOf), lookback);
      assert forall k :: 0 <= k < |d| ==> d[k] == a[|a| - lookback + k].0.ret - a[|a| - lookback + k].1.ret;
      MeanOfPositives(d);
    }
  }

  /** The highest close of the `lookback` weeks before the latest one: a bound that is attained. */
  function TrailingHigh(w: seq<StockWeek>, lookback: nat): (h: real)
    requires 0 < lookback < |w|
    ensures forall j :: |w| - 1 - lookback <= j < |w| - 1 ==> w[j].close <= h
    ensures exists j :: |w| - 1 - lookback <= j < |w| - 1 && w[j].close == h
  {
    var lo := |w| - 1 - lookback;
    var prev := Column(w, CloseOf)[lo..|w| - 1];
    assert forall j :: lo <= j < |w| - 1 ==> w[j].close == prev[j - lo];
    var k :| 0 <= k < |prev| && prev[k] == MaxOf(prev);
    assert w[lo + k].close == MaxOf(prev);
    MaxOf(prev)
  }

  /**
   * `detect_breakout`: false with fewer than `lookback + 1` weeks, and false
   * when the window of earlier weeks is empty (its maximum is undefined, so
   * the comparison fails); otherwise whether the latest close is strictly
   * above the highest of the previous `lookback` closes scaled by
   * `1 + threshold`.
   */
  function DetectBreakout(w: seq<StockWeek>, lookback: nat, threshold: real): (bo: bool)
    ensures |w| < lookback + 1 || lookback == 0 ==> !bo
  {
    if |w| < lookback + 1 || lookback == 0 then false
    else w[|w| - 1].close > TrailingHigh(w, lookback) * (1.0 + threshold)
  }

  /** The latest close beats each of the previous `lookback` closes scaled by `f`. */
  predicate BeatsPriorCloses(w: seq<StockWeek>, lookback: nat, f: real)
    requires |w| >= lookback + 1
  {
    forall j :: |w| - 1 - lookback <= j < |w| - 1 ==> w[|w| - 1].close > w[j].close * f
  }

  /**
   * For a non-negative scale, a breakout means exactly that the latest close
   * beats every one of the previous `lookback` closes, each scaled.
   */
  lemma BreakoutBeatsEveryPriorClose(w: seq<StockWeek>, lookback: nat, threshold: real)
    requires lookback > 0 && |w| >= lookback + 1
    requires 1.0 + threshold >= 0.0
    ensures DetectBreakout(w, lookback, threshold) <==> BeatsPriorCloses(w, lookback, 1.0 + threshold)
  {
    var h := TrailingHigh(w, lookback);
    var f := 1.0 + threshold;
    assert DetectBreakout(w, lookback, threshold) <==> w[|w| - 1].close > h * f;
    BeatsAllBelowHigh(w, lookback, h, f);
  }

  /** Beating a scaled high `h` that bounds the prior closes and is attained is beating each of them. */
  lemma BeatsAllBelowHigh(w: seq<StockWeek>, lookback: nat, h: real, f: real)
    requires 0 < lookback < |w| && f >= 0.0
    requires forall j :: |w| - 1 - lookback <= j < |w| - 1 ==> w[j].close <= h
    requires exists j :: |w| - 1 - lookback <= j < |w| - 1 && w[j].close == h
    ensures w[|w| - 1].close > h * f <==> BeatsPriorCloses(w, lookback, f)
  {
    var x := w[|w| - 1].close;
    if x > h * f {
      forall j | |w| - 1 - lookback <= j < |w| - 1
        ensures x > w[j].close * f
      {
        MulMonotone(w[j].close, h, f);
      }
    } else {
      var j :| |w| - 1 - lookback <= j < |w| - 1 && w[j].close == h;
      assert !(x > w[j].close * f);
    }
  }

  lemma MulMonotone(x: real, y: real, f: real)
    requires x <= y && f >= 0.0
    ensures x * f <= y * f
  {
    assert y * f - x * f == (y - x) * f;
  }

  /** A latest close exactly at the scaled trailing high is not a breakout. */
  lemma ExactMatchIsNoBreakout(w: seq<StockWeek>, lookback: nat, threshold: real)
    requires lookback > 0 && |w| >= lookback + 1
    requires w[|w| - 1].close == TrailingHigh(w, lookback) * (1.0 + threshold)
    ensures !DetectBreakout(w, lookback, threshold)
  {
  }

  /** 买入, 观望, 减仓, 止损, 清仓. */
  datatype StockAction = Buy | Hold | Reduce | StopLoss | Liquidate

  /** Which branch of the advice tree was taken. */
  datatype StockNote =
    | ConfirmedBreakout | BreakoutWithoutVolume | OutperformingNoBreakout
    | NeutralStrengthBreakout | Underperforming
    | Basing
    | ToppingOutperforming | ToppingUnderperforming
    | DecliningAboveSupport | DecliningBrokeSupport
    | UnknownStage

  datatype StockAdvice = StockAdvice(action: StockAction, note: StockNote, score: int)

  /** Every score the advice tree can give. */
  const StockScores: set<int> := {85, 70, 65, 60, 55, 50, 45, 40, 25, 15}

  /** Default threshold separating weak positive from weak negative relative strength. */
  const DefaultRsThreshold: real := 0.005

  /**
   * `generate_advice`: buying needs an advancing stage, relative strength
   * above the threshold, a breakout and confirming volume; a basing stock is
   * held; a topping one is reduced; a declining one is stopped out, or
   * liquidated once it has broken out; any other stage is held.
   */
  function GenerateAdvice(stage: int, rs: real, breakout: bool, volumeOk: bool, rsThreshold: real): (a: StockAdvice)
    ensures a.score in StockScores
    ensures a.action == Buy <==> stage == 2 && rs > rsThreshold && breakout && volumeOk
    ensures a.action == Buy ==> a.score == 85
    ensures a.score == 85 ==> a.action == Buy
    ensures stage == 2 ==> a.action in {Buy, Hold} && a.score >= 55
    ensures stage == 2 && rs > rsThreshold && breakout && !volumeOk ==> a == StockAdvice(Hold, BreakoutWithoutVolume, 70)
    ensures stage == 2 && rs > rsThreshold && !breakout ==> a == StockAdvice(Hold, OutperformingNoBreakout, 65)
    ensures stage == 2 && rs <= rsThreshold ==>
              a.action == Hold && a.score == (if -rsThreshold <= rs && breakout then 60 else 55)
    ensures stage == 1 ==> a == StockAdvice(Hold, Basing, 60)
    ensures stage == 3 ==> a.action == Reduce && a.score == (if rs > rsThreshold then 45 else 40)
    ensures stage == 4 ==> a == (if breakout then StockAdvice(Liquidate, DecliningBrokeSupport, 15)
                                 else StockAdvice(StopLoss, DecliningAboveSupport, 25))
    ensures !(1 <= stage <= 4) ==> a == StockAdvice(Hold, UnknownStage, 50)
  {
    if stage == 2 then
      if rs > rsThreshold && breakout && volumeOk then StockAdvice(Buy, ConfirmedBreakout, 85)
      else if rs > rsThreshold && breakout && !volumeOk then StockAdvice(Hold, BreakoutWithoutVolume, 70)
      else if rs > rsThreshold && !breakout then StockAdvice(Hold, OutperformingNoBreakout, 65)
      else if Abs(rs) <= rsThreshold && breakout then StockAdvice(Hold, NeutralStrengthBreakout, 60)
      else StockAdvice(Hold, Underperforming, 55)
    else if stage == 1 then StockAdvice(Hold, Basing, 60)
    else if stage == 3 then
      if rs > rsThreshold then StockAdvice(Reduce, ToppingOutperforming, 45)
      else StockAdvice(Reduce, ToppingUnderperforming, 40)
    else if stage == 4 then
      if !breakout then StockAdvice(StopLoss, DecliningAboveSupport, 25)
      else StockAdvice(Liquidate, DecliningBrokeSupport, 15)
    else StockAdvice(Hold, UnknownStage, 50)
  }

  /** Weeks of volume the latest week is compared with. */
  const VolumeWindow: nat := 12

  /**
   * The latest volume exceeds 1.5 times the mean volume of the 12 weeks
   * before it.  So a confirmed week beats 1.5 times some earlier week's
   * volume, beating 1.5 times every earlier week's volume confirms it, and
   * a steady non-negative volume is never confirmed.
   */
  function VolumeConfirmed(w: seq<StockWeek>): (ok: bool)
    requires |w| >= VolumeWindow + 1
    ensures ok <==> w[|w| - 1].volume > 1.5 * Mean(Column(w, VolumeOf)[|w| - 1 - VolumeWindow..|w| - 1])
    ensures ok ==> exists j :: |w| - 1 - VolumeWindow <= j < |w| - 1 && w[|w| - 1].volume > 1.5 * w[j].volume
    ensures (forall j :: |w| - 1 - VolumeWindow <= j < |w| - 1 ==> w[|w| - 1].volume > 1.5 * w[j].volume) ==> ok
    ensures (w[|w| - 1].volume >= 0.0 &&
             forall j :: |w| - 1 - VolumeWindow <= j < |w| - 1 ==> w[j].volume == w[|w| - 1].volume) ==> !ok
  {
    var last := w[|w| - 1].volume;
    var lo := |w| - 1 - VolumeWindow;
    var prior := Column(w, VolumeOf)[lo..|w| - 1];
    assert forall k :: 0 <= k < |prior| ==> prior[k] == w[lo + k].volume;
    assert (forall j :: lo <= j < |w| - 1 ==> last > 1.5 * w[j].volume) ==> Mean(prior) < last / 1.5 by {
      if forall j :: lo <= j < |w| - 1 ==> last > 1.5 * w[j].volume {
        MeanBelow(prior, last / 1.5);
      }
    }
    assert (forall j :: lo <= j < |w| - 1 ==> last <= 1.5 * w[j].volume) ==> last / 1.5 <= Mean(prior) by {
      if forall j :: lo <= j < |w| - 1 ==> last <= 1.5 * w[j].volume {
        MeanAtLeast(prior, last / 1.5);
      }
    }
    last > Mean(prior) * 1.5
  }

  /**
   * The stop-loss suggestion: a cent band under the whole-number floor of the
   * support.  Both branches of the source give `floor(support) - 0.05`.
   */
  function StopLossPrice(support: real): (p: real)
    ensures p == support.Floor as real - 0.05
    ensures support - 1.05 < p < support
  {
    var whole := support.Floor as real;
    if support > whole then whole - 0.05 else support - 0.05
  }

  /** Why a stock analysis produced no report. */
  datatype StockError = NoWeeklyData

  datatype StockReport = StockReport(
    latestClose: real, latestMa30: real, stage: int, rs: real,
    breakout: bool, volumeOk: bool, support: real, resistance: real,
    stopLoss: real, advice: StockAdvice)

  /** Lookback of the relative strength and the breakout test. */
  const AnalysisLookback: nat := 12

  /** Breakout margin over the trailing high. */
  const BreakoutThreshold: real := 0.01

  /**
   * `analyze_stock` on an already normalised weekly series: an empty series
   * fails; relative strength is 0 without benchmark data; volume counts as
   * confirmed unless the series has volumes and a breakout is to be
   * confirmed; the stop-loss sits under the latest support.  The regression
   * slope of the 30-week average is supplied.
   */
  function AnalyzeStock(sw: StockWeekly, index: seq<IndexWeek>, fitSlope: real): (r: Result<StockReport, StockError>)
    ensures r.Failure? <==> |sw.rows| == 0
    ensures r.Success? ==>
              var w := sw.rows; var last := w[|w| - 1]; var rep := r.value;
              && rep.stage == JudgeStage(w, fitSlope)
              && rep.rs == (if |index| > 0 then RelativeStrength(w, index, AnalysisLookback) else 0.0)
              && rep.breakout == DetectBreakout(w, AnalysisLookback, BreakoutThreshold)
              && (!rep.volumeOk ==> rep.breakout && sw.hasVolume)
              && (rep.breakout && sw.hasVolume ==> rep.volumeOk == VolumeConfirmed(w))
              && rep.advice == GenerateAdvice(rep.stage, rep.rs, rep.breakout, rep.volumeOk, DefaultRsThreshold)
              && rep.latestClose == last.close && rep.latestMa30 == last.ma30
              && rep.support == last.support && rep.resistance == last.resistance
              && rep.stopLoss == last.support.Floor as real - 0.05
              && rep.stopLoss < rep.support
              && (last.support <= last.close ==> rep.stopLoss < rep.latestClose)
  {
    if |sw.rows| == 0 then Failure(NoWeeklyData)
    else
      var w := sw.rows;
      var last := w[|w| - 1];
      var stage := JudgeStage(w, fitSlope);
      var rs := if |index| > 0 then RelativeStrength(w, index, AnalysisLookback) else 0.0;
      var bo := DetectBreakout(w, AnalysisLookback, BreakoutThreshold);
      var volumeOk := if sw.hasVolume && bo then VolumeConfirmed(w) else true;
      var advice := GenerateAdvice(stage, rs, bo, volumeOk, DefaultRsThreshold);
      Success(StockReport(last.close, last.ma30, stage, rs, bo, volumeOk,
                          last.support, last.resistance, StopLossPrice(last.support), advice))
  }

  /**
   * For a series derived from positive closes, the latest close lies between
   * support and resistance, so the stop-loss is under the latest close.
   */
  lemma DerivedSeriesStopsBelowClose(raw: seq<RawWeek>, hasVolume: bool, index: seq<IndexWeek>, fitSlope: real)
    requires PositiveCloses(raw) && |raw| >= MaWindow
    ensures var r := AnalyzeStock(StockWeekly(WeeklyRows(raw), hasVolume), index, fitSlope);
            r.Success? && r.value.support <= r.value.latestClose <= r.value.resistance
            && r.value.stopLoss < r.value.latestClose
  {
  }
}
