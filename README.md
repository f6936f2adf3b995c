# Technical indicators and chart summary of the TradingAgents API, in Dafny

This project models the logic inside the three data handlers of the
TradingAgents FastAPI backend (`tradingagents/api/main.py`), and proves
properties of that model:

- the chart handler (`get_stock_chart`): the chart points, the support and
  resistance levels, and the price change;
- the technical-indicators handler (`get_technical_indicators_data`): RSI,
  Bollinger bands, ATR, the moving averages, the signal and colour choices,
  and the "at least two of four bullish conditions" verdict;
- the trade-recommendations handler (`get_trade_recommendations_data`): the
  stop-loss, take-profit, percentage and colour that follow from the action.

The provider's price history is an input sequence of `Series.PricePoint`
rows, with prices as `real`. A value pandas would leave as NaN, such as a
rolling mean over too few rows, is `None`. Every ordering comparison (`<`,
`>`) against NaN is false in Python (`Signals.Less`), so a missing RSI is NEUTRAL, a missing
band is never crossed, and a missing average is never "Above".

Each handler raises its 404 ("no data") inside a `try` block whose
`except Exception` clause catches it and raises a 500 instead. So in the
model an empty series leads to an error of status 500 that wraps the 404
(`ApiErrors.EmptySeriesError`), never to a payload.

Modules, one per component:

| module | file | component |
|---|---|---|
| `Wrappers` | wrappers.dfy | `Option`, `Result` |
| `ApiErrors` | errors.dfy | the HTTP errors and their `try/except` nesting |
| `Dates` | dates.dfy | `strftime("%Y-%m-%d")` and reading it back |
| `Symbols` | symbols.dfy | `symbol.upper()` |
| `Series` | series.dfy | rows, sums, pandas rolling means, variance |
| `Signals` | signals.dfy | `get_signal`, MACD/Bollinger choices, MA tags, bullish count |
| `Indicators` | indicators.dfy | RSI, Bollinger bands, true range and ATR |
| `TechnicalReport` | report.dfy | indicator rows, moving-average list, the handler |
| `Chart` | chart.dfy | the chart handler |
| `Recommendations` | recommendations.dfy | the recommendation handler's deterministic part |

Two behaviours of the code differ from the textbook formulas. The model follows the code:

- **RSI needs 14 rows, not 15.** `delta.where(delta > 0, 0)` replaces every
  element where `delta > 0` is false with 0. That includes the NaN that
  `diff()` leaves in the first row, so the gains and losses series have no
  missing value. ATR is different: `np.maximum` propagates the NaN that
  `shift()` leaves in the first row, so ATR does need 15 rows.
- **A mean loss of 0 does not raise an error.** In floating point,
  `gain / 0` is infinite when the mean gain is positive, which gives an RSI
  of 100. When both means are 0, `0 / 0` is NaN, which gives a NaN RSI and
  a NEUTRAL signal. `Indicators.RsiFromMeans` models both cases.

## Model

| member | source | states |
|---|---|---|
| `ApiErrors.EmptySeriesError` | tradingagents/api/main.py:54-94 | the caller sees a 500 carrying the handler's context, caused by the 404 "no data" error raised inside the `try` |
| `Dates.FormatDate` | tradingagents/api/main.py:61 | the date text is ten characters, with dashes at positions 4 and 7 |
| `Dates.FormatDateRoundTrip` | tradingagents/api/main.py:61 | reading the formatted date back gives the row's date |
| `Dates.FormatDateInjective` | tradingagents/api/main.py:61 | two different dates never get the same text |
| `Symbols.Upper` | tradingagents/api/main.py:81 | keeps the length; maps each character through ASCII upper-casing |
| `Symbols.UpperIdempotent` | tradingagents/api/main.py:81 | upper-casing twice equals upper-casing once; the result has no lower-case letter |
| `Series.RollingMeanLast` | tradingagents/api/main.py:137-138 | the rolling mean exists iff the last `w` values all exist |
| `Series.RollingMeanAtLeast` | tradingagents/api/main.py:137-138 | the rolling mean is at least any lower bound of its window |
| `Series.RollingMeanAtMost` | tradingagents/api/main.py:137-138 | the rolling mean is at most any upper bound of its window |
| `Series.RollingMeanOfLift` | tradingagents/api/main.py:125 | with no missing values, the rolling mean is the sum of the last `w` values divided by `w` |
| `Series.SmaDefined` | tradingagents/api/main.py:137-138 | a `w`-day moving average exists iff the series has at least `w` closes |
| `Series.SmaOfFlat` | tradingagents/api/main.py:125 | the moving average of a constant price is that price |
| `Series.Sma` | tradingagents/api/main.py:125-138 | with at least `w` closes, the `w`-day moving average is the sum of the last `w` closes over `w`; `Series.SmaDefined` gives when it exists |
| `Series.RollingVariance` | tradingagents/api/main.py:126 | the ddof=1 sample variance of the last `w` closes, the square of `rolling(w).std()`; never negative |
| `Series.VarianceOfFlat` | tradingagents/api/main.py:126 | a constant price has rolling variance 0, so its standard deviation is 0 |
| `Signals.GetSignal` | tradingagents/api/main.py:151-159 | OVERSOLD/green iff value < lower; otherwise OVERBOUGHT/red iff value > upper; otherwise NEUTRAL/yellow |
| `Signals.MissingValueIsNeutral` | tradingagents/api/main.py:151-159 | a NaN value is classified NEUTRAL/yellow |
| `Signals.BandSignal` | tradingagents/api/main.py:166-171 | the Bollinger choice shows each signal in that signal's colour |
| `Signals.BandSignalIsGetSignal` | tradingagents/api/main.py:166-171 | the inline Bollinger choice is `get_signal` of the price against the lower and upper bands |
| `Signals.MacdSignal` | tradingagents/api/main.py:162-163 | BULLISH/green iff MACD line > signal line, otherwise BEARISH/red |
| `Signals.PriceVersus` | tradingagents/api/main.py:218-219 | "Above" iff "bullish" iff price > average; ties and a NaN average give "Below"/"bearish" |
| `Signals.CountTrue` | tradingagents/api/main.py:174-179 | the count of true conditions is between 0 and their number, and 0 iff none holds |
| `Signals.AtLeastTwoIff` | tradingagents/api/main.py:174-181 | the count is at least 2 iff two distinct conditions hold |
| `Signals.OverallSignal` | tradingagents/api/main.py:181 | the overall signal is BULLISH or BEARISH |
| `Signals.BullishConditions` | tradingagents/api/main.py:174-179 | there are exactly four conditions; `Signals.BullishCountIsSum` names each one |
| `Signals.BullishCountIsSum` | tradingagents/api/main.py:174-179 | the count is in 0..4 and equals the sum of the 0/1 values of RSI<30, MACD>signal, price<lower band, price>MA20 |
| `Signals.OverallBullishIff` | tradingagents/api/main.py:174-181 | BULLISH iff two distinct conditions of the four hold, otherwise BEARISH |
| `Indicators.GainOf` | tradingagents/api/main.py:110 | a gain is ≥ 0, and > 0 iff the delta exists and is positive |
| `Indicators.LossOf` | tradingagents/api/main.py:111 | a loss is ≥ 0, and > 0 iff the delta exists and is negative |
| `Indicators.GainLossSplit` | tradingagents/api/main.py:109-111 | at most one of gain and loss is non-zero; gain − loss is the delta; the first row gives 0 and 0 |
| `Indicators.Gains` | tradingagents/api/main.py:109-110 | one gain per close, 0 on the first row (its `diff()` NaN fails `> 0`); `Indicators.DiffStep` gives each later one |
| `Indicators.Losses` | tradingagents/api/main.py:109-111 | one loss per close, 0 on the first row; `Indicators.DiffStep` gives each later one |
| `Indicators.DiffStep` | tradingagents/api/main.py:109-111 | `diff()` has no delta on row 0 and leads from each previous close to the next after it; each later gain is max(rise, 0) and each loss max(fall, 0) |
| `Indicators.RsiFromMeans` | tradingagents/api/main.py:112-113 | RSI exists iff some movement exists; it lies in [0,100], and below 100 when the mean loss is > 0 |
| `Indicators.RsiIsGainShare` | tradingagents/api/main.py:112-113 | RSI·(gain+loss) = 100·gain, so RSI is the gains' share of all movement |
| `Indicators.Rsi` | tradingagents/api/main.py:108-114 | a defined RSI needs at least 14 closes and lies in [0,100] |
| `Indicators.StepMoved` | tradingagents/api/main.py:109-111 | a step has a non-zero gain or loss iff the price changed at that step |
| `Indicators.RsiFromSums` | tradingagents/api/main.py:108-114 | RSI follows from the sums of the last 14 gains and losses, both non-negative |
| `Indicators.WindowMovedIff` | tradingagents/api/main.py:109-111 | the last 14 gains or losses sum to more than 0 iff the price moved at some step of the last 14 |
| `Indicators.RsiDefinedIff` | tradingagents/api/main.py:108-114 | RSI exists iff there are ≥ 14 closes and the price moved among the last 14 |
| `Indicators.RsiOfFlat` | tradingagents/api/main.py:108-114 | a constant price has no RSI |
| `Indicators.RsiBelowHundred` | tradingagents/api/main.py:108-114 | a fall among the last 14 steps puts the RSI below 100 |
| `Indicators.Bollinger` | tradingagents/api/main.py:124-129 | bands exist iff there are ≥ 20 closes; middle = SMA20; the bands are symmetric at 2σ; for σ ≥ 0, lower ≤ middle ≤ upper |
| `Indicators.BollingerOfFlat` | tradingagents/api/main.py:124-129 | for a constant price, the variance is 0 and the bands collapse onto the price |
| `Indicators.TrueRange` | tradingagents/api/main.py:144-147 | the true range is ≥ each of its three candidates, equals one of them, and is ≥ 0 |
| `Indicators.TrueRangeIsSpan` | tradingagents/api/main.py:144-147 | when low ≤ high, the true range is max(high, prev close) − min(low, prev close) |
| `Indicators.TrueRanges` | tradingagents/api/main.py:144-147 | one true range per row; row 0 has none (`shift()` leaves NaN and `np.maximum` propagates it), every later one exists, is ≥ 0 and is ≥ that day's high − low |
| `Indicators.Atr` | tradingagents/api/main.py:148 | ATR exists iff there are ≥ 15 rows, and is then ≥ 0 |
| `Indicators.AtrAtLeastDailyRange` | tradingagents/api/main.py:144-148 | ATR is at least any lower bound on high − low over the last 14 days |
| `TechnicalReport.RowsOf` | tradingagents/api/main.py:183-212 | four rows in the handler's order, carrying its values, each shown in its signal's colour; ATR is VOLATILITY |
| `TechnicalReport.IndicatorRows` | tradingagents/api/main.py:183-212 | for a non-empty series and σ ≥ 0: four rows; a present RSI needs 14 closes and lies in [0, 100], a missing one is NEUTRAL; MACD and price values; a crossed band needs 20 closes; ATR exists iff there are 15 rows and is ≥ 0 |
| `TechnicalReport.Conditions` | tradingagents/api/main.py:174-179 | four conditions: RSI present and < 30; MACD line above its signal line; bands present and price below the lower band; 20-day average present and below the price |
| `TechnicalReport.RsiRowFacts` | tradingagents/api/main.py:159-190 | the RSI row is `get_signal(rsi, 30, 70)`, and its description word agrees with its signal |
| `TechnicalReport.MacdRowFacts` | tradingagents/api/main.py:191-197 | the MACD row is BULLISH iff line > signal, iff its description says "above" |
| `TechnicalReport.BollingerRowFacts` | tradingagents/api/main.py:198-204 | the Bollinger row is `get_signal` of the price against the bands; missing bands give NEUTRAL; the description phrase agrees |
| `TechnicalReport.MovingAverageRows` | tradingagents/api/main.py:214-235 | starts with MA 20 then MA 50; MA 200 is appended iff there are ≥ 200 rows and MA 200 ≠ 0; every row is "Above"/"bullish" iff price > value |
| `TechnicalReport.BuildMovingAverages` | tradingagents/api/main.py:214-235 | the list built by conditional append is that list |
| `TechnicalReport.Ma200` | tradingagents/api/main.py:139 | present iff there are at least 200 closes, and then the mean of the last 200 |
| `TechnicalReport.Truthy` | tradingagents/api/main.py:229 | Python truthiness of `ma_200`: false for None and for 0.0, true otherwise |
| `TechnicalReport.ShortSeriesOmitsMa200` | tradingagents/api/main.py:139 | with fewer than 200 rows, the list has only MA 20 and MA 50 |
| `TechnicalReport.TechnicalIndicators` | tradingagents/api/main.py:96-245 | for a non-negative σ (a standard deviation): an empty series gives the wrapped 500; otherwise the handler's rows and averages, a count ≤ 4, and BULLISH iff count ≥ 2; present bands are ordered lower ≤ upper; the Bollinger row is OVERSOLD only below the 20-day average and OVERBOUGHT only above it |
| `Chart.BuildChartData` | tradingagents/api/main.py:58-67 | one point per row, in row order, each the row's values, with a date that reads back as the row's date |
| `Chart.ToChartPoint` | tradingagents/api/main.py:60-67 | the row's prices and volume, under a date string that reads back as the row's date |
| `Chart.MinOf` | tradingagents/api/main.py:71 | the minimum is ≤ every element and is one of them |
| `Chart.MaxOf` | tradingagents/api/main.py:72 | the maximum is ≥ every element and is one of them |
| `Chart.Support` | tradingagents/api/main.py:70-71 | support is the lowest low over the last min(50, n) rows |
| `Chart.Resistance` | tradingagents/api/main.py:70-72 | resistance is the highest high over the last min(50, n) rows |
| `Chart.PrevClose` | tradingagents/api/main.py:76 | the close before the last one, or the last close itself for a single row |
| `Chart.PriceChange` | tradingagents/api/main.py:77 | the change that leads from the previous close to the current price |
| `Chart.PercentChange` | tradingagents/api/main.py:78 | `(change / prev) · 100`; 0 when the previous close is 0 (the `prev_close != 0` guard) or the price did not change; `Chart.PercentChangeScales` and `Chart.PercentChangeSign` give the rest |
| `Chart.SupportBelowResistance` | tradingagents/api/main.py:70-72 | when every row has low ≤ high, support ≤ resistance |
| `Chart.SingleRowNoChange` | tradingagents/api/main.py:75-78 | a single row gives a price change of 0 and a percent change of 0 |
| `Chart.PercentChangeScales` | tradingagents/api/main.py:78 | percent · previous close = 100 · change; a previous close of 0 gives 0 percent |
| `Chart.PercentChangeSign` | tradingagents/api/main.py:77-78 | against a positive previous close, the percent change has the sign of the price change |
| `Chart.StockChart` | tradingagents/api/main.py:44-94 | an empty series gives the wrapped 500; otherwise the upper-cased symbol, one point per row, last close, change, percent, support, resistance, last volume, "N/A" |
| `Recommendations.TradeColor` | tradingagents/api/main.py:296 | green iff BUY, red iff SELL, yellow iff HOLD |
| `Recommendations.UrgencyOf` | tradingagents/api/main.py:263-282 | HIGH for BUY, MEDIUM for SELL, LOW for HOLD, each exactly |
| `Recommendations.ScenariosDistinct` | tradingagents/api/main.py:263-282 | the three scenarios have distinct reasoning strings and distinct urgencies |
| `Recommendations.StopLoss` | tradingagents/api/main.py:301 | 5% below the price (×0.95) for BUY, 5% above it (×1.05) for SELL and HOLD; always 5% of the price away from it |
| `Recommendations.TakeProfit` | tradingagents/api/main.py:302 | 10% above the price (×1.10) for BUY, 10% below it (×0.90) for SELL and HOLD; always 10% of the price away from it |
| `Recommendations.Percentage` | tradingagents/api/main.py:292 | the percentage is absent iff the action is HOLD, and is the drawn value otherwise |
| `Recommendations.BracketOrder` | tradingagents/api/main.py:301-302 | for price > 0: BUY has stop < price < take; SELL and HOLD have take < price < stop |
| `Recommendations.RewardIsTwiceRisk` | tradingagents/api/main.py:301-308 | the take-profit is twice as far from the price as the stop-loss, matching "1:2.0" |
| `Recommendations.TradeRecommendations` | tradingagents/api/main.py:247-343 | an empty series gives the wrapped 500; otherwise one trade for the upper-cased symbol at the last close, with the action's reasoning, urgency and colour, the drawn percentage (none for HOLD), stop-loss and take-profit, "2-3% of portfolio" and "1:2.0", and a take-profit twice as far from the price as the stop-loss |

## Left out

- Fetching from the market-data provider (`yf.Ticker(...).history(...)`): network I/O. The series is an input, and the different look-back periods (1y, 3mo, 1mo) are the caller's choice of series.
- Exceptions other than the empty-series 404, such as a failed fetch: these come from code outside this model. The model covers only the 404 → 500 re-wrapping.
- MACD: pandas `ewm(span=...)` weighting is library floating point. The MACD line and its signal line are inputs (`TechnicalReport.Macd`). The histogram is computed in the handler but never shown, so it is left out.
- The rolling standard deviation of the Bollinger bands needs a square root. σ is an input, required to be non-negative as a standard deviation is; `Series.RollingVariance` states what its square is.
- `Indicators.Bollinger`: does not tie σ to `Series.RollingVariance`, because σ would have to be the square root of the variance, which is not modelled. `Indicators.BollingerOfFlat` proves that the variance is 0 and then takes σ = 0.
- `round(x, 2)`, `round(x, 4)`, the `:.1f`/`:.2f` number formatting in the descriptions, and `int(volume)`: float formatting. Values are kept unrounded, and the descriptions are reduced to their chosen words (`wording`).
- Floating-point rounding of the arithmetic itself: prices are exact reals.
- `datetime.now()` timestamps (`last_updated`, the health check): clock reads.
- The random scenario choice and the `random.uniform` confidence and percentage draws: the action and the drawn percentage are inputs, and the percentage is not constrained to the 10–25 range of `random.uniform(10, 25)`. The confidence is drawn but never placed in the response, so it is left out.
- `Symbols.Upper`: upper-cases ASCII letters only; Python's `str.upper` also maps non-ASCII letters.
- The constant mock trade history and the popular-stocks list: static data.
- The health endpoint, the FastAPI app, the CORS middleware, route decorators, uvicorn startup and print logging: framework plumbing.
- A NaN left in a payload (for example MA 50 on fewer than 50 rows) is refused later by the framework's JSON encoder, outside the handler's `try`. That is framework behaviour and is not modelled.
- The other files (`main.py`, `test_api.py`, `tests/`): configuration, network calls, subprocesses and environment checks, with no logic of this core.
