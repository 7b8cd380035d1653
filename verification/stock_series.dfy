/**
 * The derived columns of a stock's weekly series (the tail of
 * `fetch_stock_weekly` in advisor_stock.py), applied to week-ending closes
 * that are already resampled: the 30-week moving average, the weekly return,
 * and the 20-week rolling minimum and maximum used as support and
 * resistance.  A row is kept only once every column is defined, i.e. from
 * the 30th week on.
 */
module StockSeries {
  import opened SeriesMath

  /** A resampled week before the derived columns are added. */
  datatype RawWeek = RawWeek(date: int, close: real, volume: real)

  /** A week of a stock's derived weekly series. */
  datatype StockWeek = StockWeek(
    date: int, close: real, volume: real,
    ma30: real, ret: real, support: real, resistance: real)

  /** Length of the moving-average window. */
  const MaWindow: nat := 30

  /** Length of the support/resistance window. */
  const BandWindow: nat := 20

  predicate PositiveCloses(raw: seq<RawWeek>)
  {
    forall i :: 0 <= i < |raw| ==> raw[i].close > 0.0
  }

  function RawCloseOf(r: RawWeek): real { r.close }

  function CloseOf(s: StockWeek): real { s.close }

  function Ma30Of(s: StockWeek): real { s.ma30 }

  function VolumeOf(s: StockWeek): real { s.volume }

  /** The week that closes the window `c[i-n+1..i+1]` is the last element of it. */
  function Window(c: seq<real>, i: nat, n: nat): (win: seq<real>)
    requires 0 < n <= i + 1 <= |c|
    ensures |win| == n && win[n - 1] == c[i]
    ensures forall k :: 0 <= k < n ==> win[k] == c[i - n + 1 + k]
  {
    c[i - n + 1..i + 1]
  }

  /** The lowest close of the 20 weeks ending at week `i`. */
  function Support(c: seq<real>, i: nat): (lo: real)
    requires BandWindow - 1 <= i < |c|
    ensures forall j :: i - (BandWindow - 1) <= j <= i ==> lo <= c[j]
    ensures exists j :: i - (BandWindow - 1) <= j <= i && lo == c[j]
  {
    var band := Window(c, i, BandWindow);
    var k :| 0 <= k < |band| && band[k] == MinOf(band);
    assert c[i - (BandWindow - 1) + k] == MinOf(band);
    MinOf(band)
  }

  /** The highest close of the 20 weeks ending at week `i`. */
  function Resistance(c: seq<real>, i: nat): (hi: real)
    requires BandWindow - 1 <= i < |c|
    ensures forall j :: i - (BandWindow - 1) <= j <= i ==> c[j] <= hi
    ensures exists j :: i - (BandWindow - 1) <= j <= i && hi == c[j]
  {
    var band := Window(c, i, BandWindow);
    var k :| 0 <= k < |band| && band[k] == MaxOf(band);
    assert c[i - (BandWindow - 1) + k] == MaxOf(band);
    MaxOf(band)
  }

  /** The mean of the 30 closes ending at week `i`; positive for positive closes. */
  function MovingAverage(c: seq<real>, i: nat): (ma: real)
    requires MaWindow - 1 <= i < |c|
    requires forall j :: 0 <= j < |c| ==> c[j] > 0.0
    ensures ma == Mean(c[i - (MaWindow - 1)..i + 1]) && ma > 0.0
  {
    var win := Window(c, i, MaWindow);
    MeanOfPositives(win);
    Mean(win)
  }

  /** The change of week `i`'s close over the previous week's; above -1 for positive closes. */
  function WeekReturn(c: seq<real>, i: nat): (r: real)
    requires 1 <= i < |c|
    requires c[i] > 0.0 && c[i - 1] > 0.0
    ensures r > -1.0
  {
    assert c[i] / c[i - 1] > 0.0;
    c[i] / c[i - 1] - 1.0
  }

  /** The derived row for week `i`, which has 29 weeks before it. */
  function DeriveRow(raw: seq<RawWeek>, i: nat): (row: StockWeek)
    requires PositiveCloses(raw)
    requires MaWindow - 1 <= i < |raw|
    ensures row.date == raw[i].date && row.close == raw[i].close && row.volume == raw[i].volume
    ensures row.support <= row.close <= row.resistance
    ensures forall j :: i - (BandWindow - 1) <= j <= i ==> row.support <= raw[j].close <= row.resistance
    ensures row.ma30 == Mean(Column(raw, RawCloseOf)[i - (MaWindow - 1)..i + 1]) && row.ma30 > 0.0
    ensures row.ret == raw[i].close / raw[i - 1].close - 1.0 && row.ret > -1.0
  {
    var c := Column(raw, RawCloseOf);
    StockWeek(raw[i].date, raw[i].close, raw[i].volume,
              MovingAverage(c, i), WeekReturn(c, i), Support(c, i), Resistance(c, i))
  }

  /**
   * The weekly series with its derived columns: the weeks before the 30th
   * are dropped because their moving average is undefined; every kept week
   * lies between its support and its resistance because the rolling window
   * includes the week itself.
   */
  function WeeklyRows(raw: seq<RawWeek>): (w: seq<StockWeek>)
    requires PositiveCloses(raw)
    ensures |w| == if |raw| < MaWindow then 0 else |raw| - (MaWindow - 1)
    ensures forall k :: 0 <= k < |w| ==> w[k] == DeriveRow(raw, k + MaWindow - 1)
    ensures forall k :: 0 <= k < |w| ==>
              w[k].date == raw[k + MaWindow - 1].date && w[k].close == raw[k + MaWindow - 1].close
    ensures forall k :: 0 <= k < |w| ==> w[k].support <= w[k].close <= w[k].resistance
    ensures forall k :: 0 <= k < |w| ==> w[k].ma30 > 0.0 && w[k].close > 0.0
  {
    if |raw| < MaWindow then []
    else
      var w := seq(|raw| - (MaWindow - 1), k requires 0 <= k < |raw| - (MaWindow - 1) => DeriveRow(raw, k + MaWindow - 1));
      DerivedRowsFacts(raw, w);
      w
  }

  /** What every derived row states about its week, for a whole series of them. */
  lemma DerivedRowsFacts(raw: seq<RawWeek>, w: seq<StockWeek>)
    requires PositiveCloses(raw)
    requires |raw| >= MaWindow && |w| == |raw| - (MaWindow - 1)
    requires forall k :: 0 <= k < |w| ==> w[k] == DeriveRow(raw, k + MaWindow - 1)
    ensures forall k :: 0 <= k < |w| ==>
              w[k].date == raw[k + MaWindow - 1].date && w[k].close == raw[k + MaWindow - 1].close
    ensures forall k :: 0 <= k < |w| ==> w[k].support <= w[k].close <= w[k].resistance
    ensures forall k :: 0 <= k < |w| ==> w[k].ma30 > 0.0 && w[k].close > 0.0
  {
    forall k | 0 <= k < |w|
      ensures w[k].date == raw[k + MaWindow - 1].date && w[k].close == raw[k + MaWindow - 1].close
      ensures w[k].support <= w[k].close <= w[k].resistance
      ensures w[k].ma30 > 0.0 && w[k].close > 0.0
    {
      var row := DeriveRow(raw, k + MaWindow - 1);
      assert w[k] == row;
    }
  }
}
