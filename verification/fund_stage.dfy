/**
 * Trend-stage classification of a fund's weekly NAV series
 * (`compute_ma_slope` and `judge_stage_enhanced` of advisor_fund.py).
 *
 * Stages: 0 insufficient data, 1 basing, 2 advancing, 3 topping,
 * 4 declining.  The ordinary least-squares fit of the moving-average window
 * is a library call; its slope and correlation coefficient are inputs here.
 */
module FundStage {
  import opened Wrappers
  import opened SeriesMath

  /** One retained weekly row; every derived column is defined. */
  datatype FundWeek = FundWeek(
    date: int,     // week-ending date as a day number
    close: real,   // unit NAV
    ma10: real,
    ma20: real,
    ma30: real,
    ret: real,     // simple return against the previous week
    logRet: real,  // natural-log return against the previous week
    vol: real)     // 20-week rolling standard deviation of `ret`

  /** Prices and moving averages of prices are positive; a standard deviation is not negative. */
  predicate WellFormed(w: seq<FundWeek>)
  {
    forall i :: 0 <= i < |w| ==>
      w[i].close > 0.0 && w[i].ma10 > 0.0 && w[i].ma20 > 0.0 && w[i].ma30 > 0.0 && w[i].vol >= 0.0
  }

  /** Raw output of the linear regression over the window: slope and correlation coefficient. */
  datatype LinFit = LinFit(slope: real, rValue: real)

  /** Slope as percent of the window's mean level per week, and R². */
  datatype SlopeFit = SlopeFit(slopePct: real, r2: real)

  /**
   * `compute_ma_slope`: fewer than `window` non-null values give (0, 0);
   * otherwise the regression slope over the last `window` values is divided
   * by their mean and scaled to percent, and R² is the squared correlation.
   */
  function MaSlope(ma: seq<Option<real>>, window: nat, fit: LinFit): (r: SlopeFit)
    requires window > 0
    requires forall i :: 0 <= i < |ma| && ma[i].Some? ==> ma[i].value > 0.0
    ensures |Present(ma)| < window ==> r == SlopeFit(0.0, 0.0)
    ensures |Present(ma)| >= window ==>
              && r.r2 == fit.rValue * fit.rValue
              && (r.slopePct > 0.0 <==> fit.slope > 0.0)
              && (r.slopePct < 0.0 <==> fit.slope < 0.0)
    ensures r.r2 >= 0.0
    ensures -1.0 <= fit.rValue <= 1.0 ==> r.r2 <= 1.0
  {
    var values := Present(ma);
    if |values| < window then SlopeFit(0.0, 0.0)
    else
      var recent := Tail(values, window);
      MeanOfPositives(recent);
      var level := Mean(recent);
      SquareOfCorrelation(fit.rValue);
      SlopeFit(fit.slope / level * 100.0, fit.rValue * fit.rValue)
  }

  /** The square of a correlation coefficient lies in [0, 1]. */
  lemma SquareOfCorrelation(x: real)
    ensures x * x >= 0.0
    ensures -1.0 <= x <= 1.0 ==> x * x <= 1.0
  {
    if 0.0 <= x <= 1.0 {
      assert x * x <= x * 1.0;
    } else if -1.0 <= x < 0.0 {
      assert x * x <= (-x) * 1.0;
    }
  }

  /** Distance of the close from a moving average, in percent. */
  function DiffPct(close: real, ma: real): (d: real)
    requires ma > 0.0
    ensures d > 0.0 <==> close > ma
    ensures d < 0.0 <==> close < ma
    ensures d == 0.0 <==> close == ma
    ensures ma * (1.0 + d / 100.0) == close
  {
    (close / ma - 1.0) * 100.0
  }

  /** A percent threshold on the distance is a threshold on the close, scaled from the average. */
  lemma DiffPctThreshold(close: real, ma: real, t: real, f: real)
    requires ma > 0.0 && f == 1.0 + t / 100.0
    ensures DiffPct(close, ma) < t <==> close < f * ma
    ensures DiffPct(close, ma) > t <==> close > f * ma
  {
    var d := DiffPct(close, ma);
    assert close - f * ma == ma * ((d - t) / 100.0);
  }

  /** Moving-average ordering: +1 for the bullish stack, -1 for the bearish stack, 0 otherwise. */
  function Arrangement(ma10: real, ma20: real, ma30: real): (a: int)
    ensures a == 1 <==> ma10 > ma20 > ma30
    ensures a == -1 <==> ma10 < ma20 < ma30
    ensures a == 0 <==> !(ma10 > ma20 > ma30) && !(ma10 < ma20 < ma30)
  {
    if ma10 > ma20 > ma30 then 1 else if ma10 < ma20 < ma30 then -1 else 0
  }

  /** Latest volatility relative to its 20-week average; 1 when that average is not positive. */
  function VolRatio(vol: real, avgVol: real): (v: real)
    ensures avgVol <= 0.0 ==> v == 1.0
    ensures avgVol > 0.0 ==> v * avgVol == vol
    ensures vol >= 0.0 ==> v >= 0.0
  {
    if avgVol > 0.0 then vol / avgVol else 1.0
  }

  /** The signals the rule chain reads, derived from the two latest rows. */
  datatype Metrics = Metrics(
    close: real, prevClose: real, ma10: real,
    diff10: real, diff30: real,
    slope30: real, r2: real,
    arrangement: int, volRatio: real)

  /** What the result reports beside the stage. */
  datatype KeyMetrics = KeyMetrics(diff30: real, slope30: real, r2: real, volRatio: real, arrangement: int)

  datatype Reason = InsufficientData | DecliningTrend | AdvancingTrend | ToppingRange | BasingSignals | NoClearTrend

  datatype StageInfo = StageInfo(stage: int, confidence: real, reason: Reason, keyMetrics: Option<KeyMetrics>)

  datatype Verdict = Verdict(stage: int, confidence: real, reason: Reason)

  function CloseOf(r: FundWeek): real { r.close }

  function RetOf(r: FundWeek): real { r.ret }

  function VolOf(r: FundWeek): real { r.vol }

  function Ma30Of(r: FundWeek): real { r.ma30 }

  function NonNull(c: seq<real>): (o: seq<Option<real>>)
    ensures |o| == |c|
    ensures forall i :: 0 <= i < |c| ==> o[i] == Some(c[i])
  {
    seq(|c|, i requires 0 <= i < |c| => Some(c[i]))
  }

  /**
   * The signals of `judge_stage_enhanced` for a series of at least 30 rows:
   * the positions of the latest close against its averages, the fitted trend
   * of the 30-week average over its last 10 values, the ordering of the
   * averages, and the latest volatility against the mean of the last 20.
   */
  function Derive(w: seq<FundWeek>, fit30: LinFit): (m: Metrics)
    requires |w| >= 30 && WellFormed(w)
    ensures m.close == w[|w| - 1].close && m.prevClose == w[|w| - 2].close && m.ma10 == w[|w| - 1].ma10
    ensures m.diff30 == DiffPct(w[|w| - 1].close, w[|w| - 1].ma30)
    ensures m.diff10 == DiffPct(w[|w| - 1].close, w[|w| - 1].ma10)
    ensures m.diff30 < 0.0 <==> w[|w| - 1].close < w[|w| - 1].ma30
    ensures m.diff30 > 0.0 <==> w[|w| - 1].close > w[|w| - 1].ma30
    ensures m.diff10 < 0.0 <==> w[|w| - 1].close < w[|w| - 1].ma10
    ensures m.diff10 > 0.0 <==> w[|w| - 1].close > w[|w| - 1].ma10
    ensures m.slope30 > 0.0 <==> fit30.slope > 0.0
    ensures m.slope30 < 0.0 <==> fit30.slope < 0.0
    ensures m.r2 == fit30.rValue * fit30.rValue
    ensures m.arrangement == 1 <==> w[|w| - 1].ma10 > w[|w| - 1].ma20 > w[|w| - 1].ma30
    ensures m.arrangement == -1 <==> w[|w| - 1].ma10 < w[|w| - 1].ma20 < w[|w| - 1].ma30
    ensures m.volRatio == VolRatio(w[|w| - 1].vol, Mean(Column(w[|w| - 20..], VolOf)))
    ensures m.r2 >= 0.0 && m.volRatio >= 0.0
  {
    var latest := w[|w| - 1];
    var avgVol := Mean(Tail(Column(w, VolOf), 20));
    assert Tail(Column(w, VolOf), 20) == Column(w[|w| - 20..], VolOf);
    var s30 := MaSlope(NonNull(Column(w, Ma30Of)), 10, fit30);
    Metrics(
      latest.close, w[|w| - 2].close, latest.ma10,
      DiffPct(latest.close, latest.ma10), DiffPct(latest.close, latest.ma30),
      s30.slopePct, s30.r2,
      Arrangement(latest.ma10, latest.ma20, latest.ma30),
      VolRatio(latest.vol, avgVol))
  }

  predicate DecliningRule(m: Metrics)
  {
    m.diff30 < -3.0 && m.slope30 < -0.1 && m.r2 > 0.7 && m.arrangement == -1 && m.close < m.prevClose
  }

  predicate AdvancingRule(m: Metrics)
  {
    m.diff30 > 1.0 && m.slope30 > 0.1 && m.r2 > 0.7 && m.arrangement == 1 &&
    m.close > m.prevClose && m.volRatio > 0.8
  }

  predicate ToppingRule(m: Metrics)
  {
    m.diff30 > 0.0 && m.slope30 < 0.1 && m.r2 < 0.5 && Abs(m.diff10) < 2.0 && m.volRatio > 1.2
  }

  predicate BasingRule(m: Metrics)
  {
    m.diff30 < 0.0 && m.slope30 > -0.1 && m.r2 < 0.5 && m.volRatio < 0.8 && m.close > m.ma10
  }

  /** No two of the four rule guards can hold together, so their order does not decide the stage. */
  lemma RuleGuardsExclusive(m: Metrics)
    ensures !(DecliningRule(m) && AdvancingRule(m))
    ensures !(DecliningRule(m) && ToppingRule(m))
    ensures !(DecliningRule(m) && BasingRule(m))
    ensures !(AdvancingRule(m) && ToppingRule(m))
    ensures !(AdvancingRule(m) && BasingRule(m))
    ensures !(ToppingRule(m) && BasingRule(m))
  {
  }

  /**
   * The rule chain, first match wins: declining, advancing, topping, basing,
   * and a fallback that classifies as basing with confidence 0.3.  Each
   * matched rule's confidence is a weighted sum capped above only.
   */
  function Classify(m: Metrics): (v: Verdict)
    requires m.r2 >= 0.0
    ensures 1 <= v.stage <= 4
    ensures v.stage == 4 <==> DecliningRule(m)
    ensures v.stage == 2 <==> AdvancingRule(m)
    ensures v.stage == 3 <==> ToppingRule(m)
    ensures v.reason == BasingSignals <==> BasingRule(m)
    ensures v.reason == NoClearTrend <==>
              !DecliningRule(m) && !AdvancingRule(m) && !ToppingRule(m) && !BasingRule(m)
    ensures v.reason == NoClearTrend ==> v.stage == 1 && v.confidence == 0.3
    ensures v.stage == 2 ==> v.confidence == 0.9
    ensures v.stage == 3 ==> v.confidence == 0.8
    ensures v.stage == 4 ==> v.confidence <= 0.9
    ensures v.stage == 1 ==> v.confidence <= 0.8
  {
    RuleGuardsExclusive(m);
    if DecliningRule(m) then
      Verdict(4, Min(0.9, Abs(m.slope30) / 1.0 + Abs(m.diff30) / 5.0 + (1.0 - m.volRatio / 2.0)), DecliningTrend)
    else if AdvancingRule(m) then
      Verdict(2, Min(0.9, m.slope30 / 1.0 + m.diff30 / 10.0 + m.r2), AdvancingTrend)
    else if ToppingRule(m) then
      Verdict(3, Min(0.8, Abs(m.diff10) / 2.0 + m.volRatio / 2.0 + (1.0 - m.r2)), ToppingRange)
    else if BasingRule(m) then
      Verdict(1, Min(0.8, (1.0 - Abs(m.diff30) / 5.0) + (1.0 - m.volRatio) + m.r2), BasingSignals)
    else
      Verdict(1, 0.3, NoClearTrend)
  }

  /** The declining and basing rules have no lower clamp: their confidence can be negative. */
  lemma NegativeConfidenceReachable()
    ensures exists m: Metrics :: m.r2 >= 0.0 && Classify(m).stage == 4 && Classify(m).confidence < 0.0
    ensures exists m: Metrics :: m.r2 >= 0.0 && Classify(m).reason == BasingSignals && Classify(m).confidence < 0.0
  {
    var declining := Metrics(1.0, 2.0, 1.0, 0.0, -4.0, -0.2, 0.8, -1, 10.0);
    assert DecliningRule(declining);
    assert Classify(declining).confidence == -3.0;
    var basing := Metrics(1.0, 1.0, 0.5, 100.0, -20.0, 0.0, 0.0, 0, 0.5);
    assert BasingRule(basing) && !DecliningRule(basing) && !ToppingRule(basing);
    assert Classify(basing).confidence == -2.5;
  }

  /**
   * `judge_stage_enhanced`: fewer than 30 rows give stage 0 with confidence 0;
   * otherwise the rule chain decides a stage in 1..4 and the key metrics are reported.
   */
  function JudgeStageEnhanced(w: seq<FundWeek>, fit30: LinFit): (s: StageInfo)
    requires WellFormed(w)
    ensures s.stage == 0 <==> |w| < 30
    ensures s.stage == 0 ==> s.confidence == 0.0 && s.reason == InsufficientData && s.keyMetrics.None?
    ensures |w| >= 30 ==> 1 <= s.stage <= 4 && s.keyMetrics.Some?
    ensures s.stage == 2 ==> s.confidence == 0.9
    ensures s.stage == 3 ==> s.confidence == 0.8
    ensures s.confidence <= 0.9
    ensures s.reason == NoClearTrend ==> s.stage == 1 && s.confidence == 0.3
    ensures s.stage == 4 ==>
              var last := w[|w| - 1];
              last.close < last.ma30 && last.ma10 < last.ma20 < last.ma30 && last.close < w[|w| - 2].close
    ensures s.stage == 2 ==>
              var last := w[|w| - 1];
              last.close > last.ma30 && last.ma10 > last.ma20 > last.ma30 && last.close > w[|w| - 2].close
    ensures s.stage == 3 ==> w[|w| - 1].close > w[|w| - 1].ma30
    ensures s.reason == BasingSignals ==> w[|w| - 1].ma10 < w[|w| - 1].close < w[|w| - 1].ma30
    ensures |w| >= 30 ==>
              (s.stage == 4 <==> DecliningRule(Derive(w, fit30))) &&
              (s.stage == 2 <==> AdvancingRule(Derive(w, fit30))) &&
              (s.stage == 3 <==> ToppingRule(Derive(w, fit30))) &&
              (s.reason == BasingSignals <==> BasingRule(Derive(w, fit30))) &&
              s.confidence == Classify(Derive(w, fit30)).confidence
    ensures |w| >= 30 ==>
              s.keyMetrics == Some(KeyMetrics(DiffPct(w[|w| - 1].close, w[|w| - 1].ma30), Derive(w, fit30).slope30,
                                              fit30.rValue * fit30.rValue, Derive(w, fit30).volRatio,
                                              Derive(w, fit30).arrangement))
  {
    if |w| < 30 then StageInfo(0, 0.0, InsufficientData, None)
    else
      var m := Derive(w, fit30);
      var v := Classify(m);
      StageInfo(v.stage, v.confidence, v.reason,
                Some(KeyMetrics(m.diff30, m.slope30, m.r2, m.volRatio, m.arrangement)))
  }

  /**
   * The rules' percent thresholds read as price levels: a declining fund
   * closes more than 3% under its 30-week average, an advancing one more
   * than 1% over it, and a topping one within 2% of its 10-week average.
   */
  lemma StageThresholdsOnPrices(w: seq<FundWeek>, fit30: LinFit)
    requires WellFormed(w) && |w| >= 30
    ensures JudgeStageEnhanced(w, fit30).stage == 4 ==> w[|w| - 1].close < 0.97 * w[|w| - 1].ma30
    ensures JudgeStageEnhanced(w, fit30).stage == 2 ==> w[|w| - 1].close > 1.01 * w[|w| - 1].ma30
    ensures JudgeStageEnhanced(w, fit30).stage == 3 ==>
              0.98 * w[|w| - 1].ma10 < w[|w| - 1].close < 1.02 * w[|w| - 1].ma10
  {
    var m := Derive(w, fit30);
    var last := w[|w| - 1];
    assert JudgeStageEnhanced(w, fit30).stage == Classify(m).stage;
    ClassifyThresholdsOnPrices(m, last.close, last.ma30, last.ma10);
  }

  /** The price levels behind the declining, advancing and topping guards. */
  lemma ClassifyThresholdsOnPrices(m: Metrics, close: real, ma30: real, ma10: real)
    requires m.r2 >= 0.0 && ma30 > 0.0 && ma10 > 0.0
    requires m.diff30 == DiffPct(close, ma30) && m.diff10 == DiffPct(close, ma10)
    ensures Classify(m).stage == 4 ==> close < 0.97 * ma30
    ensures Classify(m).stage == 2 ==> close > 1.01 * ma30
    ensures Classify(m).stage == 3 ==> 0.98 * ma10 < close < 1.02 * ma10
  {
    var stage := Classify(m).stage;
    if stage == 4 {
      DiffPctThreshold(close, ma30, -3.0, 0.97);
    } else if stage == 2 {
      DiffPctThreshold(close, ma30, 1.0, 1.01);
    } else if stage == 3 {
      DiffPctThreshold(close, ma10, -2.0, 0.98);
      DiffPctThreshold(close, ma10, 2.0, 1.02);
    }
  }
}
