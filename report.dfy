/**
  The payload of the technical-indicators handler: the four indicator rows,
  the moving-average list, and the overall verdict from the "two of four"
  rule.
*/
module TechnicalReport {
  import opened Wrappers
  import opened Series
  import opened Signals
  import opened Indicators
  import opened ApiErrors

  /** `calculate_macd(hist['Close'])`: the MACD line and its signal line at the last close. */
  datatype Macd = Macd(line: real, signal: real)

  /**
    One entry of `indicators`. `wording` is the word or phrase the row's
    `description` is built around; the numbers formatted into it are left out.
  */
  datatype IndicatorRow = IndicatorRow(name: string, value: Option<real>, signal: Signal, color: Color, wording: string)

  /** One entry of `moving_averages`. */
  datatype MovingAverageRow = MovingAverageRow(period: string, value: Option<real>, position: Position, trend: Trend)

  datatype IndicatorReport = IndicatorReport(
    indicators: seq<IndicatorRow>,
    movingAverages: seq<MovingAverageRow>,
    overall: Signal,
    bullishCount: nat)

  function LowerBand(bands: Option<Bands>): Option<real>
  {
    if bands.Some? then Some(bands.value.lower) else None
  }

  function UpperBand(bands: Option<Bands>): Option<real>
  {
    if bands.Some? then Some(bands.value.upper) else None
  }

  function RsiWording(rsi: Option<real>): string
  {
    if Less(rsi, Some(30.0)) then "Oversold" else if Less(Some(70.0), rsi) then "Overbought" else "Neutral"
  }

  function MacdWording(macd: Macd): string
  {
    if macd.line > macd.signal then "above" else "below"
  }

  function BandWording(price: real, bands: Option<Bands>): string
  {
    if Less(Some(price), LowerBand(bands)) then "below lower"
    else if Less(UpperBand(bands), Some(price)) then "above upper"
    else "within"
  }

  /**
    `indicators_data`, assembled from the indicator values at the last close:
    the rows come in the handler's order, carry its values, and each is shown
    in its signal's colour.
  */
  function RowsOf(rsi: Option<real>, macd: Macd, price: real, bands: Option<Bands>, atr: Option<real>)
    : (r: seq<IndicatorRow>)
    ensures |r| == 4
    ensures r[0].name == "RSI (14)" && r[1].name == "MACD" && r[2].name == "Bollinger Bands" && r[3].name == "ATR (14)"
    ensures r[0].value == rsi && r[1].value == Some(macd.line) && r[2].value == Some(price) && r[3].value == atr
    ensures forall k :: 0 <= k < 4 ==> r[k].color == SignalColor(r[k].signal)
    ensures r[3].signal == Volatility
  {
    var rsiSignal := GetSignal(rsi, 30.0, 70.0);
    var macdSignal := MacdSignal(macd.line, macd.signal);
    var bandSignal := BandSignal(price, LowerBand(bands), UpperBand(bands));
    [ IndicatorRow("RSI (14)", rsi, rsiSignal.0, rsiSignal.1, RsiWording(rsi)),
      IndicatorRow("MACD", Some(macd.line), macdSignal.0, macdSignal.1, MacdWording(macd)),
      IndicatorRow("Bollinger Bands", Some(price), bandSignal.0, bandSignal.1, BandWording(price, bands)),
      IndicatorRow("ATR (14)", atr, Volatility, Blue, "") ]
  }

  /** `indicators_data`, for a non-empty series; `sigma` is a rolling standard deviation, so never negative. */
  function IndicatorRows(rows: seq<PricePoint>, macd: Macd, sigma: real): (r: seq<IndicatorRow>)
    requires |rows| > 0 && 0.0 <= sigma
    ensures |r| == 4
    ensures r[0].value.Some? ==> RsiWindow <= |rows| && 0.0 <= r[0].value.value <= 100.0
    ensures r[0].value.None? ==> r[0].signal == Neutral
    ensures r[1].value == Some(macd.line)
    ensures r[2].value == Some(LastClose(rows))
    ensures (r[2].signal == Oversold || r[2].signal == Overbought) ==> BollingerWindow <= |rows|
    ensures r[3].value.Some? <==> AtrWindow + 1 <= |rows|
    ensures r[3].value.Some? ==> 0.0 <= r[3].value.value
  {
    var closes := Closes(rows);
    RowsOf(Rsi(closes), macd, LastClose(rows), Bollinger(closes, sigma), Atr(rows))
  }

  /** The handler's four bullish conditions, for a non-empty series. */
  function Conditions(rows: seq<PricePoint>, macd: Macd, sigma: real): (cs: seq<bool>)
    requires |rows| > 0 && 0.0 <= sigma
    ensures |cs| == 4
    ensures cs[0] <==> Rsi(Closes(rows)).Some? && Rsi(Closes(rows)).value < 30.0
    ensures cs[1] <==> macd.line > macd.signal
    ensures cs[2] <==> Bollinger(Closes(rows), sigma).Some? && LastClose(rows) < Bollinger(Closes(rows), sigma).value.lower
    ensures cs[3] <==> Sma(Closes(rows), 20).Some? && Sma(Closes(rows), 20).value < LastClose(rows)
  {
    var closes := Closes(rows);
    BullishConditions(Rsi(closes), macd.line, macd.signal, LastClose(rows),
                      LowerBand(Bollinger(closes, sigma)), Sma(closes, 20))
  }

  /**
    The RSI row follows `get_signal` with thresholds 30 and 70, and its
    description's word agrees with its signal, although the handler computes
    the two separately.
  */
  lemma RsiRowFacts(rsi: Option<real>, macd: Macd, price: real, bands: Option<Bands>, atr: Option<real>)
    ensures var r := RowsOf(rsi, macd, price, bands, atr)[0];
      && (r.signal, r.color) == GetSignal(rsi, 30.0, 70.0)
      && (r.signal == Oversold <==> r.wording == "Oversold")
      && (r.signal == Overbought <==> r.wording == "Overbought")
      && (r.signal == Neutral <==> r.wording == "Neutral")
  {
  }

  /** The MACD row is BULLISH, and its description says "above", exactly when the line is above its signal line. */
  lemma MacdRowFacts(rsi: Option<real>, macd: Macd, price: real, bands: Option<Bands>, atr: Option<real>)
    ensures var r := RowsOf(rsi, macd, price, bands, atr)[1];
      && (r.signal == Bullish <==> macd.line > macd.signal)
      && (r.signal == Bullish <==> r.wording == "above")
      && (r.signal == Bearish <==> r.wording == "below")
  {
  }

  /**
    The Bollinger row is `get_signal` of the price against the two bands, and
    its description's phrase agrees with its signal.
  */
  lemma BollingerRowFacts(rsi: Option<real>, macd: Macd, price: real, bands: Option<Bands>, atr: Option<real>)
    ensures var r := RowsOf(rsi, macd, price, bands, atr)[2];
      && (r.signal == Oversold <==> r.wording == "below lower")
      && (r.signal == Overbought <==> r.wording == "above upper")
      && (r.signal == Neutral <==> r.wording == "within")
      && (bands.Some? ==> (r.signal, r.color) == GetSignal(Some(price), bands.value.lower, bands.value.upper))
      && (bands.None? ==> r.signal == Neutral)
  {
    if bands.Some? {
      BandSignalIsGetSignal(price, bands.value.lower, bands.value.upper);
    }
  }

  /** `ma_200`: Python's None below 200 rows, the 200-day average otherwise. */
  function Ma200(closes: seq<real>): (m: Option<real>)
    ensures m.Some? <==> 200 <= |closes|
    ensures m.Some? ==> m.value == Sum(closes[|closes| - 200..]) / 200.0
  {
    if |closes| >= 200 then Sma(closes, 200) else None
  }

  /** Python truthiness of `ma_200`: None and 0.0 are false. */
  predicate Truthy(x: Option<real>)
    ensures Truthy(x) <==> x != None && x != Some(0.0)
  {
    x.Some? && x.value != 0.0
  }

  function AverageRow(period: string, value: Option<real>, price: real): MovingAverageRow
  {
    var (position, trend) := PriceVersus(price, value);
    MovingAverageRow(period, value, position, trend)
  }

  /** `moving_averages_data` for the closes and the current price. */
  function MovingAverageRows(closes: seq<real>, price: real): (r: seq<MovingAverageRow>)
    ensures |r| == 2 || |r| == 3
    ensures r[0].period == "MA 20" && r[0].value == Sma(closes, 20)
    ensures r[1].period == "MA 50" && r[1].value == Sma(closes, 50)
    ensures |r| == 3 <==> 200 <= |closes| && Sma(closes, 200) != Some(0.0)
    ensures |r| == 3 ==> r[2].period == "MA 200" && r[2].value == Sma(closes, 200)
    ensures forall k :: 0 <= k < |r| ==>
      (r[k].position == Above <==> r[k].trend == BullishTrend) &&
      (r[k].position == Above <==> r[k].value.Some? && price > r[k].value.value)
  {
    var ma200 := Ma200(closes);
    [AverageRow("MA 20", Sma(closes, 20), price), AverageRow("MA 50", Sma(closes, 50), price)]
      + (if Truthy(ma200) then [AverageRow("MA 200", ma200, price)] else [])
  }

  /** Builds the list as the handler does: two rows, then the 200-day row appended when `ma_200` is truthy. */
  method BuildMovingAverages(closes: seq<real>, price: real) returns (rows: seq<MovingAverageRow>)
    ensures rows == MovingAverageRows(closes, price)
  {
    rows := [AverageRow("MA 20", Sma(closes, 20), price), AverageRow("MA 50", Sma(closes, 50), price)];
    var ma200 := Ma200(closes);
    if Truthy(ma200) {
      rows := rows + [AverageRow("MA 200", ma200, price)];
    }
  }

  /** Fewer than 200 rows: the 200-day row is omitted, not reported as missing. */
  lemma ShortSeriesOmitsMa200(closes: seq<real>, price: real)
    requires |closes| < 200
    ensures |MovingAverageRows(closes, price)| == 2
  {
  }

  /**
    `get_technical_indicators_data` on the provider's series. The 404 for an
    empty series is raised inside the handler's `try` and so reaches the caller
    re-wrapped as a 500.
  */
  method TechnicalIndicators(symbol: string, rows: seq<PricePoint>, macd: Macd, sigma: real)
    returns (r: Result<IndicatorReport, HttpError>)
    requires 0.0 <= sigma
    ensures r.Failure? <==> |rows| == 0
    ensures r.Failure? ==> r.error == EmptySeriesError(IndicatorsContext, symbol)
    ensures r.Success? ==>
      && r.value.indicators == IndicatorRows(rows, macd, sigma)
      && r.value.movingAverages == MovingAverageRows(Closes(rows), LastClose(rows))
      && r.value.bullishCount == CountTrue(Conditions(rows, macd, sigma))
      && r.value.bullishCount <= 4
      && (r.value.overall == Bullish <==> r.value.bullishCount >= 2)
      && (r.value.overall == Bearish <==> r.value.bullishCount < 2)
    ensures r.Success? && Bollinger(Closes(rows), sigma).Some? ==>
      Bollinger(Closes(rows), sigma).value.lower <= Bollinger(Closes(rows), sigma).value.upper
    ensures r.Success? && r.value.indicators[2].signal == Oversold ==>
      Sma(Closes(rows), BollingerWindow).Some? && LastClose(rows) < Sma(Closes(rows), BollingerWindow).value
    ensures r.Success? && r.value.indicators[2].signal == Overbought ==>
      Sma(Closes(rows), BollingerWindow).Some? && Sma(Closes(rows), BollingerWindow).value < LastClose(rows)
  {
    if |rows| == 0 {
      return Failure(EmptySeriesError(IndicatorsContext, symbol));
    }
    var closes := Closes(rows);
    var price := closes[|closes| - 1];
    var indicators := IndicatorRows(rows, macd, sigma);
    var bands := Bollinger(closes, sigma);
    BollingerRowFacts(Rsi(closes), macd, LastClose(rows), bands, Atr(rows));
    var bullish := CountTrue(Conditions(rows, macd, sigma));
    var overall := OverallSignal(bullish);
    var averages := BuildMovingAverages(closes, price);
    r := Success(IndicatorReport(indicators, averages, overall, bullish));
  }
}
