/**
 * Advice for a fund (`generate_advice_enhanced` and `analyze_fund_enhanced`
 * of advisor_fund.py): a base action and score per stage, a score scaled by
 * confidence, relative-strength and risk factors, per-stage refinements of
 * the action, and a position suggestion looked up by action.
 */
module FundAdvice {
  import opened Wrappers
  import opened SeriesMath
  import opened FundStage
  import opened FundStrength
  import opened FundRisk

  /** 等待, 观望, 买入, 减仓, 卖出, 重仓买入, 轻仓买入, 轻仓布局, 部分止盈, 止损卖出. */
  datatype FundAction =
    | Wait | Hold | Buy | Reduce | Sell
    | StrongBuy | LightBuy | LightPosition | PartialProfit | StopLossSell

  /** The base note chosen by stage. */
  datatype BaseNote = NoData | AwaitBreakout | TrendClear | TrendWeakening | HighRisk | NoClearJudgement

  /** The clause a refinement appends to the base note. */
  datatype Detail =
    | StrongRelative | GoodRelative | WeakRelative
    | PositiveRelativeLowDrawdown | StillPositiveRelative | StopLossNow

  datatype Note = Note(base: BaseNote, detail: Option<Detail>)

  datatype BaseEntry = BaseEntry(action: FundAction, note: BaseNote, score: real)

  /** A dictionary key the advice reads that an upstream result lacks. */
  datatype MissingKey = LatestRs | SharpeRatio

  datatype FundAdvice = FundAdvice(action: FundAction, position: int, note: Note, score: real, confidencePct: real)

  const BaseTable: map<int, BaseEntry> := map[
    0 := BaseEntry(Wait, NoData, 0.0),
    1 := BaseEntry(Hold, AwaitBreakout, 50.0),
    2 := BaseEntry(Buy, TrendClear, 80.0),
    3 := BaseEntry(Reduce, TrendWeakening, 40.0),
    4 := BaseEntry(Sell, HighRisk, 20.0)]

  /** The entry for a stage the table does not list. */
  const UnknownStageEntry: BaseEntry := BaseEntry(Hold, NoClearJudgement, 30.0)

  /**
   * The suggested position by action.  The ranges are written as integer
   * subtractions, so `70-90` is the integer -20; an action the table does
   * not list (等待) gets 0.
   */
  const PositionTable: map<FundAction, int> := map[
    StrongBuy := 70-90,
    Buy := 40-60,
    LightBuy := 10-30,
    LightPosition := 5-15,
    PartialProfit := 20-40,
    Reduce := 0-20,
    Sell := 0,
    StopLossSell := 0,
    Hold := 0]

  /** The base (action, note, score) for a stage, with the fallback entry for any other stage. */
  function BaseFor(stage: int): (b: BaseEntry)
    ensures 0.0 <= b.score <= 80.0
    ensures stage == 0 ==> b.action == Wait && b.score == 0.0
    ensures stage == 1 ==> b.action == Hold && b.score == 50.0
    ensures stage == 2 ==> b.action == Buy && b.score == 80.0
    ensures stage == 3 ==> b.action == Reduce && b.score == 40.0
    ensures stage == 4 ==> b.action == Sell && b.score == 20.0
    ensures !(0 <= stage <= 4) ==> b == UnknownStageEntry
  {
    if stage in BaseTable then BaseTable[stage] else UnknownStageEntry
  }

  /** The position looked up for an action: never positive, because the ranges are differences. */
  function PositionFor(action: FundAction): (p: int)
    ensures p <= 0
    ensures action in {Sell, StopLossSell, Hold, Wait} ==> p == 0
    ensures action in {StrongBuy, Buy, LightBuy, PartialProfit, Reduce} ==> p == -20
    ensures action == LightPosition ==> p == -10
  {
    if action in PositionTable then PositionTable[action] else 0
  }

  /** min(1, max(0, latest_rs + 0.1)). */
  function RsFactor(latestRs: real): (f: real)
    ensures 0.0 <= f <= 1.0
    ensures f == 0.0 <==> latestRs <= -0.1
    ensures f == 1.0 <==> latestRs >= 0.9
  {
    Min(1.0, Max(0.0, latestRs + 0.1))
  }

  /** min(1, max(0.5, 1 + sharpe / 2)). */
  function RiskFactor(sharpe: real): (f: real)
    ensures 0.5 <= f <= 1.0
    ensures f == 1.0 <==> sharpe >= 0.0
    ensures f == 0.5 <==> sharpe <= -1.0
  {
    Min(1.0, Max(0.5, 1.0 + sharpe / 2.0))
  }

  /** A value times a factor; a factor in [0, 1] keeps a non-negative value within [0, that value]. */
  function Scale(x: real, f: real): (y: real)
    ensures x >= 0.0 && 0.0 <= f <= 1.0 ==> 0.0 <= y <= x
    ensures f == 0.0 ==> y == 0.0
  {
    assert x >= 0.0 && 0.0 <= f <= 1.0 ==> x * f <= x by {
      if x >= 0.0 && 0.0 <= f <= 1.0 {
        assert x - x * f == x * (1.0 - f);
      }
    }
    x * f
  }

  /**
   * The base score scaled by confidence and the two factors, in the order
   * the source multiplies them; with all three in [0, 1] it stays within
   * [0, base].
   */
  function ScaledScore(base: real, conf: real, rsF: real, riskF: real): (s: real)
    requires base >= 0.0 && 0.0 <= rsF <= 1.0 && 0.0 <= riskF <= 1.0
    ensures 0.0 <= conf <= 1.0 ==> 0.0 <= s <= base
    ensures conf == 0.0 ==> s == 0.0
    ensures s == base * conf * rsF * riskF
  {
    Scale(Scale(Scale(base, conf), rsF), riskF)
  }

  /** The per-stage refinement of the base action and note. */
  function Refine(stage: int, base: BaseEntry, conf: real, latestRs: real, maxDd: real, sharpe: real): (an: (FundAction, Note))
    ensures stage == 2 ==>
              an.0 == (if latestRs > 0.05 && sharpe > 1.0 then StrongBuy
                       else if latestRs > 0.0 && sharpe > 0.0 then base.action
                       else LightBuy)
    ensures stage == 1 ==> an.0 == (if latestRs > 0.0 && maxDd > -10.0 then LightPosition else base.action)
    ensures stage == 3 ==> an.0 == (if latestRs > 0.0 && conf < 0.5 then PartialProfit else base.action)
    ensures stage == 4 ==> an.0 == (if maxDd < -20.0 && sharpe < 0.0 then StopLossSell else base.action)
    ensures !(1 <= stage <= 4) ==> an == (base.action, Note(base.note, None))
    ensures an.1.base == base.note
  {
    if stage == 2 then
      if latestRs > 0.05 && sharpe > 1.0 then (StrongBuy, Note(base.note, Some(StrongRelative)))
      else if latestRs > 0.0 && sharpe > 0.0 then (base.action, Note(base.note, Some(GoodRelative)))
      else (LightBuy, Note(base.note, Some(WeakRelative)))
    else if stage == 1 then
      if latestRs > 0.0 && maxDd > -10.0 then (LightPosition, Note(base.note, Some(PositiveRelativeLowDrawdown)))
      else (base.action, Note(base.note, None))
    else if stage == 3 then
      if latestRs > 0.0 && conf < 0.5 then (PartialProfit, Note(base.note, Some(StillPositiveRelative)))
      else (base.action, Note(base.note, None))
    else if stage == 4 then
      if maxDd < -20.0 && sharpe < 0.0 then (StopLossSell, Note(base.note, Some(StopLossNow)))
      else (base.action, Note(base.note, None))
    else (base.action, Note(base.note, None))
  }

  /**
   * `generate_advice_enhanced`.  Reading `latest_rs` from a short
   * relative-strength result, or `sharpe_ratio` from a short risk result,
   * fails with the missing key (in that order).  Otherwise the action is
   * refined by stage, the position is looked up by action, and the score is
   * the base score scaled by confidence, relative-strength and risk factors.
   */
  function GenerateAdviceEnhanced(st: StageInfo, rs: RsInfo, risk: RiskInfo): (r: Result<FundAdvice, MissingKey>)
    ensures rs.RsShort? ==> r == Failure(LatestRs)
    ensures rs.RsFull? && risk.RiskShort? ==> r == Failure(SharpeRatio)
    ensures r.Success? <==> rs.RsFull? && risk.RiskFull?
    ensures r.Success? ==> r.value.position == PositionFor(r.value.action) && r.value.position <= 0
    ensures r.Success? ==> r.value.confidencePct == st.confidence * 100.0
    ensures r.Success? && 0.0 <= st.confidence <= 1.0 ==> 0.0 <= r.value.score <= BaseFor(st.stage).score
    ensures r.Success? && st.stage == 0 ==> r.value.action == Wait && r.value.score == 0.0 && r.value.position == 0
    ensures r.Success? && st.stage == 2 ==>
              (r.value.action == StrongBuy <==> rs.latestRs > 0.05 && risk.sharpeRatio > 1.0) &&
              (r.value.action == Buy <==>
                 !(rs.latestRs > 0.05 && risk.sharpeRatio > 1.0) && rs.latestRs > 0.0 && risk.sharpeRatio > 0.0) &&
              (r.value.action == LightBuy <==>
                 !(rs.latestRs > 0.05 && risk.sharpeRatio > 1.0) && !(rs.latestRs > 0.0 && risk.sharpeRatio > 0.0))
    ensures r.Success? && st.stage == 1 ==>
              r.value.action == (if rs.latestRs > 0.0 && risk.maxDrawdown > -10.0 then LightPosition else Hold)
    ensures r.Success? && st.stage == 3 ==>
              r.value.action == (if rs.latestRs > 0.0 && st.confidence < 0.5 then PartialProfit else Reduce)
    ensures r.Success? && st.stage == 4 ==>
              (r.value.action == StopLossSell <==> risk.maxDrawdown < -20.0 && risk.sharpeRatio < 0.0) &&
              (r.value.action == Sell <==> !(risk.maxDrawdown < -20.0 && risk.sharpeRatio < 0.0)) &&
              r.value.position == 0
    ensures r.Success? && !(0 <= st.stage <= 4) ==> r.value.action == Hold && r.value.position == 0
    ensures r.Success? ==>
              r.value.score == ScaledScore(BaseFor(st.stage).score, st.confidence, RsFactor(rs.latestRs), RiskFactor(risk.sharpeRatio))
  {
    if rs.RsShort? then Failure(LatestRs)
    else if risk.RiskShort? then Failure(SharpeRatio)
    else
      var base := BaseFor(st.stage);
      var rsF := RsFactor(rs.latestRs);
      var riskF := RiskFactor(risk.sharpeRatio);
      var score := ScaledScore(base.score, st.confidence, rsF, riskF);
      var refined := Refine(st.stage, base, st.confidence, rs.latestRs, risk.maxDrawdown, risk.sharpeRatio);
      Success(FundAdvice(refined.0, PositionFor(refined.0), refined.1, score, st.confidence * 100.0))
  }

  /** Why a fund analysis produced no report. */
  datatype FundError = NavUnavailable | BenchmarkUnavailable | KeyMissing(key: MissingKey)

  datatype FundReport = FundReport(
    latestClose: real, latestMa30: real,
    stage: StageInfo, rs: RsInfo, risk: RiskInfo, advice: FundAdvice)

  /**
   * `analyze_fund_enhanced` on already normalised series: an empty fund or
   * benchmark series is reported as unavailable data; otherwise stage,
   * relative strength (default lookbacks 12/26/52) and risk feed the
   * advice, whose missing-key failure ends the analysis.  A topping stage
   * always has confidence 0.8, so its advice is always 减仓: the 部分止盈
   * refinement, which needs a confidence under 0.5, never applies here.  The
   * regression of the 30-week average and the standard deviations are supplied.
   */
  method AnalyzeFund(fund: seq<FundWeek>, index: seq<IndexWeek>, fit30: LinFit,
                     excessStd: real, downsideVolPct: real, annualVol: real)
    returns (r: Result<FundReport, FundError>)
    requires WellFormed(fund)
    ensures |fund| == 0 ==> r == Failure(NavUnavailable)
    ensures |fund| > 0 && |index| == 0 ==> r == Failure(BenchmarkUnavailable)
    ensures |fund| > 0 && |index| > 0 && |Align(fund, index)| < 52 ==> r == Failure(KeyMissing(LatestRs))
    ensures |fund| > 0 && |index| > 0 && |Align(fund, index)| >= 52 ==> r.Success?
    ensures r.Success? ==>
              && |fund| >= 52
              && r.value.stage == JudgeStageEnhanced(fund, fit30)
              && 1 <= r.value.stage.stage <= 4
              && r.value.risk == RiskAssessment(fund, downsideVolPct, annualVol)
              && r.value.rs.RsFull?
              && GenerateAdviceEnhanced(r.value.stage, r.value.rs, r.value.risk) == Success(r.value.advice)
              && r.value.latestClose == fund[|fund| - 1].close
              && r.value.latestMa30 == fund[|fund| - 1].ma30
    ensures r.Success? ==>
              && r.value.rs.RsFull?
              && r.value.rs.rsScores.Keys == {12, 26, 52}
              && r.value.rs.winRates.Keys == {12, 26, 52}
              && r.value.rs.latestRs == ScoreFor(Align(fund, index), 12)
              && r.value.rs.riskAdjustedRs == RiskAdjustedRs(Align(fund, index), excessStd)
    ensures r.Success? && r.value.rs.RsFull? ==>
              forall lb :: lb in r.value.rs.rsScores ==>
                lb > 0 && lb in r.value.rs.winRates &&
                r.value.rs.rsScores[lb] == ScoreFor(Align(fund, index), lb) &&
                r.value.rs.winRates[lb] == WinRateFor(Align(fund, index), lb)
    ensures r.Success? && r.value.stage.stage == 3 ==> r.value.advice.action == Reduce
  {
    if |fund| == 0 {
      return Failure(NavUnavailable);
    }
    if |index| == 0 {
      return Failure(BenchmarkUnavailable);
    }
    assert MaxLookback(DefaultLookbacks) == 52;
    var stage := JudgeStageEnhanced(fund, fit30);
    var rs := RelativeStrengthEnhanced(fund, index, DefaultLookbacks, excessStd);
    assert rs.RsShort? <==> |Align(fund, index)| < 52;
    var risk := RiskAssessment(fund, downsideVolPct, annualVol);
    var advice := GenerateAdviceEnhanced(stage, rs, risk);
    if advice.Failure? {
      return Failure(KeyMissing(advice.error));
    }
    assert |fund| >= |Align(fund, index)| >= 52;
    assert 1 <= stage.stage <= 4;
    DefaultWindowsScored(rs, Align(fund, index));
    var last := fund[|fund| - 1];
    r := Success(FundReport(last.close, last.ma30, stage, rs, risk, advice.value));
  }
}
