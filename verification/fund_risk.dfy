/**
 * Risk assessment of a fund's weekly series (`risk_assessment` of
 * advisor_fund.py): maximum drawdown from the running peak, a supplied
 * downside volatility, and a Sharpe-like ratio with a 2% annual risk-free rate.
 */
module FundRisk {
  import opened SeriesMath
  import opened FundStage

  /**
   * The short-data result uses the keys `downside_vol` and `sharpe`; the full
   * result uses `downside_vol_pct` and `sharpe_ratio`.
   */
  datatype RiskInfo =
    | RiskShort(maxDrawdown: real, downsideVol: real, sharpe: real)
    | RiskFull(maxDrawdown: real, downsideVolPct: real, sharpeRatio: real)

  /** Fewest rows for which risk is assessed. */
  const MinRiskRows: nat := 20

  /** Annual risk-free rate used by the Sharpe-like ratio. */
  const RiskFreeRate: real := 0.02

  /** Weeks per year used to annualise weekly returns. */
  const WeeksPerYear: real := 52.0

  /** Running maximum of the closes, each week's own close included. */
  function RunningMax(c: seq<real>): (r: seq<real>)
    ensures |r| == |c|
    ensures forall i, j :: 0 <= j <= i < |c| ==> c[j] <= r[i]
  {
    if c == [] then []
    else
      var p := RunningMax(c[..|c| - 1]);
      var last := c[|c| - 1];
      var peak := if p == [] then last else Max(p[|p| - 1], last);
      assert forall j :: 0 <= j < |c| - 1 ==> c[..|c| - 1][j] == c[j];
      p + [peak]
  }

  /** Each running peak is one of the closes so far, so it is the highest of them. */
  lemma {:induction false} RunningMaxIsAttained(c: seq<real>)
    ensures forall i :: 0 <= i < |c| ==> exists j :: 0 <= j <= i && RunningMax(c)[i] == c[j]
  {
    if c != [] {
      var init := c[..|c| - 1];
      var p := RunningMax(init);
      RunningMaxIsAttained(init);
      var peak := if p == [] then c[|c| - 1] else Max(p[|p| - 1], c[|c| - 1]);
      var r := RunningMax(c);
      assert r == p + [peak];
      forall i | 0 <= i < |c|
        ensures exists j :: 0 <= j <= i && r[i] == c[j]
      {
        if i < |c| - 1 {
          var j :| 0 <= j <= i && p[i] == init[j];
          assert r[i] == p[i] && init[j] == c[j];
        } else if peak == c[i] {
          assert r[i] == c[i];
        } else {
          var j :| 0 <= j <= i - 1 && p[i - 1] == init[j];
          assert r[i] == p[i - 1] && init[j] == c[j];
        }
      }
    }
  }

  /** Percent distance of each close below its running peak. */
  function Drawdowns(c: seq<real>): (d: seq<real>)
    requires forall i :: 0 <= i < |c| ==> c[i] > 0.0
    ensures |d| == |c|
    ensures forall i :: 0 <= i < |c| ==> -100.0 < d[i] <= 0.0
    ensures forall i :: 0 <= i < |c| ==> d[i] == DrawdownPct(c[i], RunningMax(c)[i])
  {
    var peaks := RunningMax(c);
    seq(|c|, i requires 0 <= i < |c| => DrawdownPct(c[i], peaks[i]))
  }

  /** Percent distance of a close below a peak at least as high. */
  function DrawdownPct(close: real, peak: real): (d: real)
    requires 0.0 < close <= peak
    ensures -100.0 < d <= 0.0
  {
    assert close / peak <= 1.0;
    (close / peak - 1.0) * 100.0
  }

  lemma NoDrawdownAtPeak(x: real)
    requires x > 0.0
    ensures DrawdownPct(x, x) == 0.0
  {
    assert x / x == 1.0;
  }

  /** Most negative drawdown over the series: no week's drawdown is deeper, and some week's equals it. */
  function MaxDrawdown(c: seq<real>): (m: real)
    requires |c| > 0
    requires forall i :: 0 <= i < |c| ==> c[i] > 0.0
    ensures -100.0 < m <= 0.0
    ensures forall i :: 0 <= i < |c| ==> m <= Drawdowns(c)[i]
    ensures exists i :: 0 <= i < |c| && m == Drawdowns(c)[i]
  {
    MinOf(Drawdowns(c))
  }

  predicate NonDecreasing(c: seq<real>)
  {
    forall i, j :: 0 <= i <= j < |c| ==> c[i] <= c[j]
  }

  /** For closes that never fall, the running peak is the current close. */
  lemma {:induction false} RunningMaxOfNonDecreasing(c: seq<real>)
    requires NonDecreasing(c)
    ensures forall i :: 0 <= i < |c| ==> RunningMax(c)[i] == c[i]
  {
    if c != [] {
      var init := c[..|c| - 1];
      assert NonDecreasing(init);
      RunningMaxOfNonDecreasing(init);
      if |init| > 0 {
        assert RunningMax(init)[|init| - 1] == c[|c| - 2] <= c[|c| - 1];
      }
    }
  }

  /** A series whose closes never fall has no drawdown. */
  lemma NoDrawdownWhenNonDecreasing(c: seq<real>)
    requires |c| > 0
    requires forall i :: 0 <= i < |c| ==> c[i] > 0.0
    ensures NonDecreasing(c) ==> MaxDrawdown(c) == 0.0
  {
    if NonDecreasing(c) {
      RunningMaxOfNonDecreasing(c);
      AtPeakEveryWeek(c);
    }
  }

  /** When every close is its own running peak, every drawdown is 0. */
  lemma AtPeakEveryWeek(c: seq<real>)
    requires |c| > 0
    requires forall i :: 0 <= i < |c| ==> c[i] > 0.0
    requires forall i :: 0 <= i < |c| ==> RunningMax(c)[i] == c[i]
    ensures MaxDrawdown(c) == 0.0
  {
    var d := Drawdowns(c);
    forall i | 0 <= i < |c|
      ensures d[i] == 0.0
    {
      assert d[i] == DrawdownPct(c[i], c[i]);
      NoDrawdownAtPeak(c[i]);
    }
    var m := MinOf(d);
    var k :| 0 <= k < |d| && d[k] == m;
  }

  /** (annual return − 2%) ÷ annual volatility, or 0 when that volatility is not positive. */
  function Sharpe(rets: seq<real>, annualVol: real): (s: real)
    requires |rets| > 0
    ensures annualVol <= 0.0 ==> s == 0.0
    ensures annualVol > 0.0 ==> (s > 0.0 <==> Mean(rets) * WeeksPerYear > RiskFreeRate)
    ensures annualVol > 0.0 ==> (s < 0.0 <==> Mean(rets) * WeeksPerYear < RiskFreeRate)
  {
    var annualRet := Mean(rets) * WeeksPerYear;
    if annualVol > 0.0 then (annualRet - RiskFreeRate) / annualVol else 0.0
  }

  /**
   * `risk_assessment`: fewer than 20 rows give the all-zero short form;
   * otherwise the maximum drawdown lies in (-100, 0], is 0 for closes that
   * never fall, and the ratio's sign follows the annual return against 2%.
   * `downsideVolPct` and `annualVol` (standard deviations) are supplied.
   */
  function RiskAssessment(w: seq<FundWeek>, downsideVolPct: real, annualVol: real): (r: RiskInfo)
    requires WellFormed(w)
    ensures r.RiskShort? <==> |w| < MinRiskRows
    ensures r.RiskShort? ==> r == RiskShort(0.0, 0.0, 0.0)
    ensures r.RiskFull? ==> r.maxDrawdown == MaxDrawdown(Column(w, CloseOf))
    ensures r.RiskFull? ==> -100.0 < r.maxDrawdown <= 0.0
    ensures r.RiskFull? && NonDecreasing(Column(w, CloseOf)) ==> r.maxDrawdown == 0.0
    ensures r.RiskFull? ==> r.downsideVolPct == downsideVolPct
    ensures r.RiskFull? && annualVol <= 0.0 ==> r.sharpeRatio == 0.0
    ensures r.RiskFull? && annualVol > 0.0 ==> (r.sharpeRatio > 0.0 <==> Mean(Column(w, RetOf)) * WeeksPerYear > RiskFreeRate)
    ensures r.RiskFull? && annualVol > 0.0 ==> (r.sharpeRatio < 0.0 <==> Mean(Column(w, RetOf)) * WeeksPerYear < RiskFreeRate)
  {
    if |w| < MinRiskRows then RiskShort(0.0, 0.0, 0.0)
    else
      var closes := Column(w, CloseOf);
      NoDrawdownWhenNonDecreasing(closes);
      RiskFull(MaxDrawdown(closes), downsideVolPct, Sharpe(Column(w, RetOf), annualVol))
  }
}
