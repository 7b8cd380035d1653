/**
 * Relative strength of a fund against its benchmark index
 * (`relative_strength_enhanced` of advisor_fund.py): per lookback window,
 * the compounded excess return and the share of weeks the fund beat the
 * index, plus one volatility-normalised excess-return statistic.
 */
module FundStrength {
  import opened Wrappers
  import opened SeriesMath
  import opened FundStage

  /** One weekly row of the benchmark index. */
  datatype IndexWeek = IndexWeek(date: int, close: real, ret: real, logRet: real)

  /** One week present in both series. */
  datatype AlignedWeek = AlignedWeek(date: int, ret: real, retIndex: real, logRet: real, logRetIndex: real)

  /**
   * The short-data result carries no per-window win rates and no `latest_rs`
   * (only a single `win_rate` of 0); the full result carries both.
   */
  datatype RsInfo =
    | RsShort(rsScores: map<nat, real>, winRate: real, riskAdjustedRs: real)
    | RsFull(rsScores: map<nat, real>, winRates: map<nat, real>, riskAdjustedRs: real, latestRs: real)

  /** The default lookback windows, in weeks. */
  const DefaultLookbacks: seq<nat> := [12, 26, 52]

  /** The window whose score is reported as the latest relative strength. */
  const LatestWindow: nat := 12

  function FundDate(f: FundWeek): int { f.date }

  function IndexDate(x: IndexWeek): int { x.date }

  /** A fund week and the index week of the same date, as one aligned week. */
  function Paired(p: (FundWeek, IndexWeek)): AlignedWeek
  {
    AlignedWeek(p.0.date, p.0.ret, p.1.ret, p.0.logRet, p.1.logRet)
  }

  /** The fund's weeks joined with the index's weeks on their dates, in the fund's order. */
  function Align(fund: seq<FundWeek>, index: seq<IndexWeek>): (a: seq<AlignedWeek>)
    ensures |a| <= |fund|
  {
    var j := InnerJoin(fund, index, FundDate, IndexDate);
    seq(|j|, k requires 0 <= k < |j| => Paired(j[k]))
  }

  /** Each aligned week takes its returns from a fund week and an index week of its own date. */
  lemma AlignedWeeksComeFromBoth(fund: seq<FundWeek>, index: seq<IndexWeek>)
    ensures var a := Align(fund, index);
            forall k :: 0 <= k < |a| ==>
              && (exists i :: 0 <= i < |fund| && fund[i].date == a[k].date && fund[i].ret == a[k].ret && fund[i].logRet == a[k].logRet)
              && (exists q :: 0 <= q < |index| && index[q].date == a[k].date && index[q].ret == a[k].retIndex && index[q].logRet == a[k].logRetIndex)
  {
    var j := InnerJoin(fund, index, FundDate, IndexDate);
    var a := Align(fund, index);
    forall k | 0 <= k < |a|
      ensures exists i :: 0 <= i < |fund| && fund[i].date == a[k].date && fund[i].ret == a[k].ret && fund[i].logRet == a[k].logRet
      ensures exists q :: 0 <= q < |index| && index[q].date == a[k].date && index[q].ret == a[k].retIndex && index[q].logRet == a[k].logRetIndex
    {
      assert a[k] == Paired(j[k]);
      var i :| 0 <= i < |fund| && fund[i] == j[k].0;
      assert FindDate(index, IndexDate, FundDate(j[k].0)) == Some(j[k].1);
      var q :| 0 <= q < |index| && index[q] == j[k].1;
    }
  }

  /** Every fund week whose date the index also has is kept, with its own return. */
  lemma AlignKeepsMatchedWeeks(fund: seq<FundWeek>, index: seq<IndexWeek>)
    ensures var a := Align(fund, index);
            forall i :: 0 <= i < |fund| && (exists q :: 0 <= q < |index| && index[q].date == fund[i].date) ==>
              exists k :: 0 <= k < |a| && a[k].date == fund[i].date && a[k].ret == fund[i].ret
  {
    var j := InnerJoin(fund, index, FundDate, IndexDate);
    var a := Align(fund, index);
    JoinKeepsMatchedRows(fund, index, FundDate, IndexDate);
    forall i | 0 <= i < |fund| && (exists q :: 0 <= q < |index| && index[q].date == fund[i].date)
      ensures exists k :: 0 <= k < |a| && a[k].date == fund[i].date && a[k].ret == fund[i].ret
    {
      var q :| 0 <= q < |index| && index[q].date == fund[i].date;
      assert IndexDate(index[q]) == FundDate(fund[i]);
      var x := FindDate(index, IndexDate, FundDate(fund[i])).value;
      var k :| 0 <= k < |j| && j[k] == (fund[i], x);
      assert a[k] == Paired(j[k]);
    }
  }

  /** A fund series in date order gives aligned weeks in date order. */
  lemma AlignKeepsDateOrder(fund: seq<FundWeek>, index: seq<IndexWeek>)
    requires forall i, i' :: 0 <= i < i' < |fund| ==> fund[i].date < fund[i'].date
    ensures var a := Align(fund, index);
            forall k, k' :: 0 <= k < k' < |a| ==> a[k].date < a[k'].date
  {
    var j := InnerJoin(fund, index, FundDate, IndexDate);
    var a := Align(fund, index);
    assert DatesIncrease(fund, FundDate);
    JoinKeepsDateOrder(fund, index, FundDate, IndexDate);
    forall k, k' | 0 <= k < k' < |a|
      ensures a[k].date < a[k'].date
    {
      assert a[k] == Paired(j[k]) && a[k'] == Paired(j[k']);
      assert FundDate(j[k].0) < FundDate(j[k'].0);
    }
  }

  /** Largest lookback (`max(lookback_periods)`). */
  function MaxLookback(lookbacks: seq<nat>): nat
    requires |lookbacks| > 0
  {
    if |lookbacks| == 1 then lookbacks[0]
    else
      var rest := MaxLookback(lookbacks[1..]);
      if lookbacks[0] >= rest then lookbacks[0] else rest
  }

  lemma {:induction false} MaxLookbackIsUpperBound(lookbacks: seq<nat>, i: nat)
    requires 0 <= i < |lookbacks|
    ensures lookbacks[i] <= MaxLookback(lookbacks)
  {
    if i > 0 {
      MaxLookbackIsUpperBound(lookbacks[1..], i - 1);
    }
  }

  function FundRetOf(x: AlignedWeek): real { x.ret }

  function IndexRetOf(x: AlignedWeek): real { x.retIndex }

  function ExcessLogRetOf(x: AlignedWeek): real { x.logRet - x.logRetIndex }

  /** Growth factor of compounding the weekly returns: the product of (1 + r). */
  function Compound(rets: seq<real>): real
  {
    if rets == [] then 1.0 else (1.0 + rets[0]) * Compound(rets[1..])
  }

  /** Compounded fund return minus compounded index return over a window. */
  function ExcessReturn(win: seq<AlignedWeek>): real
  {
    (Compound(Column(win, FundRetOf)) - 1.0) - (Compound(Column(win, IndexRetOf)) - 1.0)
  }

  /** Number of weeks in which the fund's return is strictly above the index's. */
  function Wins(win: seq<AlignedWeek>): (n: nat)
    ensures n <= |win|
  {
    if win == [] then 0
    else (if win[0].ret > win[0].retIndex then 1 else 0) + Wins(win[1..])
  }

  function WinRate(win: seq<AlignedWeek>): real
    requires |win| > 0
  {
    (Wins(win) as real) / (|win| as real)
  }

  /** Score recorded for one lookback: 0 when the aligned series is shorter than it. */
  function ScoreFor(a: seq<AlignedWeek>, lookback: nat): real
    requires lookback > 0
  {
    if |a| < lookback then 0.0 else ExcessReturn(Tail(a, lookback))
  }

  /** Win rate recorded for one lookback: 0 when the aligned series is shorter than it. */
  function WinRateFor(a: seq<AlignedWeek>, lookback: nat): real
    requires lookback > 0
  {
    if |a| < lookback then 0.0 else WinRate(Tail(a, lookback))
  }

  /**
   * Mean excess log return over the last 52 aligned weeks (all of them when
   * fewer) divided by its standard deviation `excessStd`; 0 unless that
   * deviation is positive.  The deviation is supplied (it needs a square
   * root); an empty window has no defined deviation and gives 0.
   */
  function RiskAdjustedRs(a: seq<AlignedWeek>, excessStd: real): (r: real)
    ensures excessStd <= 0.0 || |a| == 0 ==> r == 0.0
    ensures excessStd > 0.0 && |a| > 0 ==>
              var full := if |a| >= 52 then a[|a| - 52..] else a;
              (r > 0.0 <==> Mean(Column(full, ExcessLogRetOf)) > 0.0) && (r < 0.0 <==> Mean(Column(full, ExcessLogRetOf)) < 0.0)
  {
    var full := if |a| >= 52 then a[|a| - 52..] else a;
    if |full| > 0 && excessStd > 0.0 then Mean(Column(full, ExcessLogRetOf)) / excessStd else 0.0
  }

  /**
   * `relative_strength_enhanced`: joins the two series on their dates; when
   * the join is shorter than the largest lookback the result is the short
   * form; otherwise one score and one win rate per lookback, keyed by the
   * lookback, and `latest_rs` is the 12-week score (0 when 12 is not a
   * lookback).
   */
  method RelativeStrengthEnhanced(fund: seq<FundWeek>, index: seq<IndexWeek>, lookbacks: seq<nat>, excessStd: real)
    returns (info: RsInfo)
    requires |lookbacks| > 0
    requires forall i :: 0 <= i < |lookbacks| ==> lookbacks[i] > 0
    ensures info.RsShort? <==> |Align(fund, index)| < MaxLookback(lookbacks)
    ensures info.RsShort? ==> info == RsShort(map[], 0.0, 0.0)
    ensures info.RsFull? ==>
              && info.rsScores.Keys == (set i | 0 <= i < |lookbacks| :: lookbacks[i])
              && info.winRates.Keys == info.rsScores.Keys
    ensures info.RsFull? ==>
              forall lb :: lb in info.rsScores ==>
                lb > 0 && lb in info.winRates &&
                info.rsScores[lb] == ScoreFor(Align(fund, index), lb) &&
                info.winRates[lb] == WinRateFor(Align(fund, index), lb)
    ensures info.RsFull? ==>
              info.latestRs == (if LatestWindow in info.rsScores then info.rsScores[LatestWindow] else 0.0)
    ensures info.RsFull? ==> info.riskAdjustedRs == RiskAdjustedRs(Align(fund, index), excessStd)
  {
    var aligned := Align(fund, index);
    if |aligned| < MaxLookback(lookbacks) {
      return RsShort(map[], 0.0, 0.0);
    }
    var scores: map<nat, real> := map[];
    var rates: map<nat, real> := map[];
    for k := 0 to |lookbacks|
      invariant scores.Keys == (set i | 0 <= i < k :: lookbacks[i])
      invariant rates.Keys == scores.Keys
      invariant forall lb :: lb in scores ==>
                  lb > 0 && scores[lb] == ScoreFor(aligned, lb) && rates[lb] == WinRateFor(aligned, lb)
    {
      var lookback := lookbacks[k];
      if |aligned| < lookback {
        scores := scores[lookback := 0.0];
        rates := rates[lookback := 0.0];
        continue;
      }
      var window := Tail(aligned, lookback);
      scores := scores[lookback := ExcessReturn(window)];
      rates := rates[lookback := WinRate(window)];
    }
    var latest := if LatestWindow in scores then scores[LatestWindow] else 0.0;
    info := RsFull(scores, rates, RiskAdjustedRs(aligned, excessStd), latest);
  }

  /** On the full path no lookback exceeds the aligned length, so every window is scored. */
  lemma FullPathScoresEveryWindow(a: seq<AlignedWeek>, lookbacks: seq<nat>, i: nat)
    requires |lookbacks| > 0 && i < |lookbacks| && lookbacks[i] > 0
    requires |a| >= MaxLookback(lookbacks)
    ensures |Tail(a, lookbacks[i])| == lookbacks[i]
    ensures ScoreFor(a, lookbacks[i]) == ExcessReturn(Tail(a, lookbacks[i]))
    ensures WinRateFor(a, lookbacks[i]) == WinRate(Tail(a, lookbacks[i]))
  {
    MaxLookbackIsUpperBound(lookbacks, i);
  }

  /** With the default lookbacks the scored windows are 12, 26 and 52 weeks, and the latest score is the 12-week one. */
  lemma DefaultWindowsScored(info: RsInfo, a: seq<AlignedWeek>)
    requires info.RsFull?
    requires info.rsScores.Keys == (set i | 0 <= i < |DefaultLookbacks| :: DefaultLookbacks[i])
    requires info.winRates.Keys == info.rsScores.Keys
    requires forall lb :: lb in info.rsScores ==> info.rsScores[lb] == ScoreFor(a, lb)
    requires info.latestRs == (if LatestWindow in info.rsScores then info.rsScores[LatestWindow] else 0.0)
    ensures info.rsScores.Keys == {12, 26, 52} && info.winRates.Keys == {12, 26, 52}
    ensures info.latestRs == ScoreFor(a, 12)
  {
    assert DefaultLookbacks[0] == 12 && DefaultLookbacks[1] == 26 && DefaultLookbacks[2] == 52;
    assert (set i | 0 <= i < |DefaultLookbacks| :: DefaultLookbacks[i]) == {12, 26, 52};
  }

  /** A win rate is a fraction of weeks: it lies in [0, 1]. */
  lemma WinRateInUnitInterval(a: seq<AlignedWeek>, lookback: nat)
    requires lookback > 0
    ensures 0.0 <= WinRateFor(a, lookback) <= 1.0
  {
    if |a| >= lookback {
      var win := Tail(a, lookback);
      var n := |win| as real;
      var w := Wins(win) as real;
      assert w <= n;
      assert w / n <= n / n;
    }
  }

  /** Compounding equal return columns gives equal growth. */
  lemma {:induction false} CompoundEqual(win: seq<AlignedWeek>)
    requires forall i :: 0 <= i < |win| ==> win[i].ret == win[i].retIndex
    ensures Column(win, FundRetOf) == Column(win, IndexRetOf)
  {
  }

  /** Equal weeks are never wins: ties do not count. */
  lemma {:induction false} NoWinsOnTies(win: seq<AlignedWeek>)
    requires forall i :: 0 <= i < |win| ==> win[i].ret == win[i].retIndex
    ensures Wins(win) == 0
  {
    if win != [] {
      NoWinsOnTies(win[1..]);
    }
  }

  /** A fund that matches its index week by week scores 0 and wins no week. */
  lemma IdenticalReturnsNeutral(a: seq<AlignedWeek>, lookback: nat)
    requires lookback > 0
    requires forall i :: 0 <= i < |a| ==> a[i].ret == a[i].retIndex
    ensures ScoreFor(a, lookback) == 0.0
    ensures WinRateFor(a, lookback) == 0.0
  {
    if |a| >= lookback {
      var win := Tail(a, lookback);
      assert forall i :: 0 <= i < |win| ==> win[i] == a[|a| - |win| + i];
      CompoundEqual(win);
      NoWinsOnTies(win);
    }
  }

  /** The benchmark series a fund would have if it were its own benchmark. */
  function SelfIndex(fund: seq<FundWeek>): (index: seq<IndexWeek>)
    ensures |index| == |fund|
    ensures forall i :: 0 <= i < |fund| ==> index[i] == IndexWeek(fund[i].date, fund[i].close, fund[i].ret, fund[i].logRet)
  {
    seq(|fund|, i requires 0 <= i < |fund| => IndexWeek(fund[i].date, fund[i].close, fund[i].ret, fund[i].logRet))
  }

  /**
   * Joining a fund with itself as benchmark (distinct dates) keeps every week
   * and pairs each week with itself, so every aligned return equals its index return.
   */
  lemma SelfJoinAlignsIdentically(fund: seq<FundWeek>)
    requires forall i, j :: 0 <= i < j < |fund| ==> fund[i].date != fund[j].date
    ensures var a := Align(fund, SelfIndex(fund));
            |a| == |fund| && forall k :: 0 <= k < |a| ==> a[k].ret == a[k].retIndex
  {
    SelfJoinKeepsEveryWeek(fund);
    var a := Align(fund, SelfIndex(fund));
    forall k | 0 <= k < |a|
      ensures a[k].ret == a[k].retIndex
    {
      SelfJoinPairsSameWeek(fund, k);
    }
  }

  lemma SelfJoinKeepsEveryWeek(fund: seq<FundWeek>)
    ensures |InnerJoin(fund, SelfIndex(fund), FundDate, IndexDate)| == |fund|
  {
    var index := SelfIndex(fund);
    var dl: FundWeek -> int := FundDate;
    var dr: IndexWeek -> int := IndexDate;
    forall i | 0 <= i < |fund|
      ensures FindDate(index, dr, dl(fund[i])).Some?
    {
      assert dr(index[i]) == dl(fund[i]);
    }
    JoinKeepsCoveredRows(fund, index, dl, dr);
  }

  lemma SelfJoinPairsSameWeek(fund: seq<FundWeek>, k: nat)
    requires forall i, j :: 0 <= i < j < |fund| ==> fund[i].date != fund[j].date
    requires k < |Align(fund, SelfIndex(fund))|
    ensures Align(fund, SelfIndex(fund))[k].ret == Align(fund, SelfIndex(fund))[k].retIndex
  {
    var index := SelfIndex(fund);
    var j := InnerJoin(fund, index, FundDate, IndexDate);
    var f := j[k].0;
    var x := j[k].1;
    assert Align(fund, index)[k] == Paired(j[k]);
    var p :| 0 <= p < |fund| && fund[p] == f;
    assert FindDate(index, IndexDate, FundDate(f)) == Some(x);
    var q :| 0 <= q < |index| && index[q] == x;
    assert fund[q].date == fund[p].date;
  }
}
