/**
  The chart handler: one chart point per row, support and resistance over the
  last 50 rows, and the change of the last close against the previous one.
*/
module Chart {
  import opened Wrappers
  import opened Series
  import Dates
  import Symbols
  import opened ApiErrors

  /** `hist.tail(50)`: the rows support and resistance are taken over. */
  const LevelWindow: nat := 50

  /** One entry of `chart_data`. */
  datatype ChartPoint = ChartPoint(date: string, open: real, high: real, low: real, close: real, volume: int)

  datatype ChartPayload = ChartPayload(
    symbol: string,
    currentPrice: real,
    priceChange: real,
    priceChangePercent: real,
    chartData: seq<ChartPoint>,
    supportLevel: real,
    resistanceLevel: real,
    volume: int,
    marketCap: string)

  /** One entry of `chart_data`: the row's prices and volume, under a date that reads back as the row's date. */
  function ToChartPoint(row: PricePoint): (p: ChartPoint)
    ensures Dates.ParseDate(p.date) == Some(row.date)
    ensures p.open == row.open && p.high == row.high && p.low == row.low && p.close == row.close
    ensures p.volume == row.volume
  {
    Dates.FormatDateRoundTrip(row.date);
    ChartPoint(Dates.FormatDate(row.date), row.open, row.high, row.low, row.close, row.volume)
  }

  /**
    The `for date, row in hist.iterrows()` loop: one point per row, in the
    rows' order, and the date of each point reads back as its row's date.
  */
  method BuildChartData(rows: seq<PricePoint>) returns (points: seq<ChartPoint>)
    ensures |points| == |rows|
    ensures forall i :: 0 <= i < |rows| ==> points[i] == ToChartPoint(rows[i])
    ensures forall i :: 0 <= i < |rows| ==> Dates.ParseDate(points[i].date) == Some(rows[i].date)
  {
    points := [];
    var i := 0;
    while i < |rows|
      invariant 0 <= i <= |rows|
      invariant |points| == i
      invariant forall k :: 0 <= k < i ==> points[k] == ToChartPoint(rows[k])
    {
      points := points + [ToChartPoint(rows[i])];
      i := i + 1;
    }
    forall k | 0 <= k < |rows|
      ensures Dates.ParseDate(points[k].date) == Some(rows[k].date)
    {
      Dates.FormatDateRoundTrip(rows[k].date);
    }
  }

  /** `.min()` of a non-empty column. */
  function MinOf(xs: seq<real>): (m: real)
    requires |xs| > 0
    ensures forall i :: 0 <= i < |xs| ==> m <= xs[i]
    ensures exists i :: 0 <= i < |xs| && xs[i] == m
  {
    if |xs| == 1 then xs[0]
    else
      var m := MinOf(xs[1..]);
      assert forall i :: 1 <= i < |xs| ==> xs[i] == xs[1..][i - 1];
      if xs[0] <= m then xs[0] else m
  }

  /** `.max()` of a non-empty column. */
  function MaxOf(xs: seq<real>): (m: real)
    requires |xs| > 0
    ensures forall i :: 0 <= i < |xs| ==> xs[i] <= m
    ensures exists i :: 0 <= i < |xs| && xs[i] == m
  {
    if |xs| == 1 then xs[0]
    else
      var m := MaxOf(xs[1..]);
      assert forall i :: 1 <= i < |xs| ==> xs[i] == xs[1..][i - 1];
      if xs[0] >= m then xs[0] else m
  }

  /** The number of rows `hist.tail(50)` keeps. */
  function RecentCount(rows: seq<PricePoint>): nat
  {
    Min(LevelWindow, |rows|)
  }

  /** `recent_data['Low'].min()`: the lowest low of the last 50 rows, or of all rows when there are fewer. */
  function Support(rows: seq<PricePoint>): (s: real)
    requires |rows| > 0
    ensures forall i :: |rows| - RecentCount(rows) <= i < |rows| ==> s <= rows[i].low
    ensures exists i :: |rows| - RecentCount(rows) <= i < |rows| && rows[i].low == s
  {
    var start := |rows| - RecentCount(rows);
    var lows := Lows(rows[start..]);
    var s := MinOf(lows);
    assert forall i :: start <= i < |rows| ==> rows[i].low == lows[i - start];
    var k :| 0 <= k < |lows| && lows[k] == s;
    assert rows[start + k].low == s;
    s
  }

  /** `recent_data['High'].max()`: the highest high of the last 50 rows, or of all rows when there are fewer. */
  function Resistance(rows: seq<PricePoint>): (r: real)
    requires |rows| > 0
    ensures forall i :: |rows| - RecentCount(rows) <= i < |rows| ==> rows[i].high <= r
    ensures exists i :: |rows| - RecentCount(rows) <= i < |rows| && rows[i].high == r
  {
    var start := |rows| - RecentCount(rows);
    var highs := Highs(rows[start..]);
    var r := MaxOf(highs);
    assert forall i :: start <= i < |rows| ==> rows[i].high == highs[i - start];
    var k :| 0 <= k < |highs| && highs[k] == r;
    assert rows[start + k].high == r;
    r
  }

  /** When every row has its low under its high, support lies under resistance. */
  lemma SupportBelowResistance(rows: seq<PricePoint>)
    requires |rows| > 0
    requires forall i :: 0 <= i < |rows| ==> rows[i].low <= rows[i].high
    ensures Support(rows) <= Resistance(rows)
  {
    var last := |rows| - 1;
    assert Support(rows) <= rows[last].low;
    assert rows[last].high <= Resistance(rows);
  }

  /** `prev_close`: the close before the last one, or the last close itself for a single row. */
  function PrevClose(rows: seq<PricePoint>): (p: real)
    requires |rows| > 0
    ensures |rows| == 1 ==> p == LastClose(rows)
    ensures |rows| > 1 ==> p == rows[|rows| - 2].close
  {
    if |rows| > 1 then rows[|rows| - 2].close else rows[|rows| - 1].close
  }

  /** `current_price - prev_close`. */
  function PriceChange(rows: seq<PricePoint>): (c: real)
    requires |rows| > 0
    ensures PrevClose(rows) + c == LastClose(rows)
  {
    LastClose(rows) - PrevClose(rows)
  }

  /** `(price_change / prev_close) * 100`, or 0 when the previous close is 0. */
  function PercentChange(rows: seq<PricePoint>): (pct: real)
    requires |rows| > 0
    ensures PrevClose(rows) == 0.0 ==> pct == 0.0
    ensures PriceChange(rows) == 0.0 ==> pct == 0.0
  {
    var prev := PrevClose(rows);
    if prev != 0.0 then (PriceChange(rows) / prev) * 100.0 else 0.0
  }

  /** A single row has nothing to compare with: no change, in price or in percent. */
  lemma SingleRowNoChange(rows: seq<PricePoint>)
    requires |rows| == 1
    ensures PriceChange(rows) == 0.0 && PercentChange(rows) == 0.0
  {
  }

  /** The percent change is the price change in hundredths of the previous close; a zero previous close gives 0. */
  lemma PercentChangeScales(rows: seq<PricePoint>)
    requires |rows| > 0
    ensures PrevClose(rows) != 0.0 ==> PercentChange(rows) * PrevClose(rows) == 100.0 * PriceChange(rows)
    ensures PrevClose(rows) == 0.0 ==> PercentChange(rows) == 0.0
  {
    var prev, change := PrevClose(rows), PriceChange(rows);
    if prev != 0.0 {
      var q := change / prev;
      assert q * prev == change;
      assert q * 100.0 * prev == 100.0 * (q * prev);
    }
  }

  /** Against a positive previous close, the percent change has the sign of the price change. */
  lemma PercentChangeSign(rows: seq<PricePoint>)
    requires |rows| > 0 && PrevClose(rows) > 0.0
    ensures PercentChange(rows) > 0.0 <==> PriceChange(rows) > 0.0
    ensures PercentChange(rows) < 0.0 <==> PriceChange(rows) < 0.0
  {
    PercentChangeScales(rows);
    var p, c := PercentChange(rows), PrevClose(rows);
    if p > 0.0 {
      assert p * c > 0.0;
    }
    if p < 0.0 {
      assert (-p) * c > 0.0;
    }
  }

  /**
    `get_stock_chart` on the provider's series. The 404 for an empty series is
    raised inside the handler's `try` and so reaches the caller re-wrapped as
    a 500.
  */
  method StockChart(symbol: string, rows: seq<PricePoint>) returns (r: Result<ChartPayload, HttpError>)
    ensures r.Failure? <==> |rows| == 0
    ensures r.Failure? ==> r.error == EmptySeriesError(ChartContext, symbol)
    ensures r.Success? ==>
      && r.value.symbol == Symbols.Upper(symbol)
      && |r.value.chartData| == |rows|
      && (forall i :: 0 <= i < |rows| ==> r.value.chartData[i] == ToChartPoint(rows[i]))
      && r.value.currentPrice == LastClose(rows)
      && r.value.priceChange == PriceChange(rows)
      && r.value.priceChangePercent == PercentChange(rows)
      && r.value.supportLevel == Support(rows)
      && r.value.resistanceLevel == Resistance(rows)
      && r.value.volume == rows[|rows| - 1].volume
      && r.value.marketCap == "N/A"
  {
    if |rows| == 0 {
      return Failure(EmptySeriesError(ChartContext, symbol));
    }
    var chartData := BuildChartData(rows);
    r := Success(ChartPayload(
      Symbols.Upper(symbol),
      LastClose(rows),
      PriceChange(rows),
      PercentChange(rows),
      chartData,
      Support(rows),
      Resistance(rows),
      rows[|rows| - 1].volume,
      "N/A"));
  }
}
