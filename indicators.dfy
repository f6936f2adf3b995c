/**
  The numeric indicators of the technical-indicators handler, as of the last
  row of the series: RSI, Bollinger bands and ATR.

  MACD is not computed here: its exponential moving averages follow pandas'
  `ewm` weighting, so the MACD line and its signal line are inputs of the
  report (see TechnicalReport). Likewise the rolling standard deviation of
  the Bollinger bands is an input `sigma`, the square root of
  `Series.RollingVariance`.
*/
module Indicators {
  import opened Wrappers
  import opened Series

  const RsiWindow: nat := 14
  const BollingerWindow: nat := 20
  const NumStd: real := 2.0
  const AtrWindow: nat := 14

  // ---------------------------------------------------------------- RSI

  /** `data.diff()`: the first close has no predecessor, so its delta is NaN. */
  function Deltas(closes: seq<real>): seq<Option<real>>
  {
    seq(|closes|, i requires 0 <= i < |closes| => if i == 0 then None else Some(closes[i] - closes[i - 1]))
  }

  /** One element of `delta.where(delta > 0, 0)`: NaN fails `delta > 0`, so it becomes 0 as well. */
  function GainOf(d: Option<real>): (g: real)
    ensures 0.0 <= g
    ensures g > 0.0 <==> d.Some? && d.value > 0.0
  {
    if d.Some? && d.value > 0.0 then d.value else 0.0
  }

  /** One element of `-delta.where(delta < 0, 0)`. */
  function LossOf(d: Option<real>): (l: real)
    ensures 0.0 <= l
    ensures l > 0.0 <==> d.Some? && d.value < 0.0
  {
    if d.Some? && d.value < 0.0 then -d.value else 0.0
  }

  /** At each step at most one of gain and loss is non-zero, and together they give back the delta. */
  lemma GainLossSplit(d: Option<real>)
    ensures GainOf(d) == 0.0 || LossOf(d) == 0.0
    ensures d.Some? ==> GainOf(d) - LossOf(d) == d.value
    ensures d.None? ==> GainOf(d) == 0.0 && LossOf(d) == 0.0
  {
  }

  /** The gains: the rise from the previous close where the price rose, 0 elsewhere and on the first row. */
  function Gains(closes: seq<real>): (g: seq<real>)
    ensures |g| == |closes|
    ensures |closes| > 0 ==> g[0] == 0.0
  {
    seq(|closes|, i requires 0 <= i < |closes| => GainOf(Deltas(closes)[i]))
  }

  /** The losses: the fall from the previous close where the price fell, 0 elsewhere and on the first row. */
  function Losses(closes: seq<real>): (l: seq<real>)
    ensures |l| == |closes|
    ensures |closes| > 0 ==> l[0] == 0.0
  {
    seq(|closes|, i requires 0 <= i < |closes| => LossOf(Deltas(closes)[i]))
  }

  /**
    `100 - 100 / (1 + gain / loss)` in floating point. With `loss == 0` the
    quotient is infinite when `gain > 0`, which makes the RSI 100, and NaN
    when `gain == 0`, which makes it NaN.
  */
  function RsiFromMeans(gain: real, loss: real): (r: Option<real>)
    requires 0.0 <= gain && 0.0 <= loss
    ensures r.Some? <==> gain > 0.0 || loss > 0.0
    ensures r.Some? ==> 0.0 <= r.value <= 100.0
    ensures r.Some? && loss > 0.0 ==> r.value < 100.0
  {
    if loss > 0.0 then
      var q := 1.0 + gain / loss;
      assert q >= 1.0;
      assert 0.0 < 100.0 / q <= 100.0 by {
        assert 100.0 / q * q == 100.0;
      }
      Some(100.0 - 100.0 / q)
    else if gain > 0.0 then Some(100.0)
    else None
  }

  /** RSI is the gains' share of all movement, in percent: `rsi * (gain + loss) == 100 * gain`. */
  lemma RsiIsGainShare(gain: real, loss: real)
    requires 0.0 <= gain && 0.0 <= loss && gain + loss > 0.0
    ensures RsiFromMeans(gain, loss).Some?
    ensures RsiFromMeans(gain, loss).value * (gain + loss) == 100.0 * gain
  {
    if loss > 0.0 {
      var t := gain / loss;
      assert t * loss == gain;
      var q := 1.0 + t;
      assert q * loss == gain + loss;
      var u := 100.0 / q;
      assert u * q == 100.0;
      assert u * (gain + loss) == 100.0 * loss by {
        assert u * (gain + loss) == u * (q * loss);
        assert u * (q * loss) == (u * q) * loss;
      }
      assert (100.0 - u) * (gain + loss) == 100.0 * (gain + loss) - u * (gain + loss);
    }
  }

  /** `calculate_rsi(hist['Close'])`: the 14-day RSI of the last close. */
  function Rsi(closes: seq<real>): (r: Option<real>)
    ensures r.Some? ==> RsiWindow <= |closes| && 0.0 <= r.value <= 100.0
  {
    var g := RollingMeanLast(Lift(Gains(closes)), RsiWindow);
    var l := RollingMeanLast(Lift(Losses(closes)), RsiWindow);
    if g.Some? && l.Some? then
      RollingMeanAtLeast(Lift(Gains(closes)), RsiWindow, 0.0);
      RollingMeanAtLeast(Lift(Losses(closes)), RsiWindow, 0.0);
      RsiFromMeans(g.value, l.value)
    else None
  }

  /** The last 14 closes hold a step that moved the price. */
  predicate MovedInRsiWindow(closes: seq<real>)
  {
    exists i :: |closes| - RsiWindow <= i < |closes| && 0 < i && closes[i] != closes[i - 1]
  }

  /** A step moved the price exactly when its gain or its loss is non-zero. */
  lemma StepMoved(closes: seq<real>, i: int)
    requires 0 <= i < |closes|
    ensures Gains(closes)[i] > 0.0 || Losses(closes)[i] > 0.0 <==> 0 < i && closes[i] != closes[i - 1]
  {
  }

  /**
    Each step of the closes, as `diff()` and the two `where` calls see it: the
    first row has no delta and neither gain nor loss; every later row's delta
    leads from the previous close to its own, and splits into the rise and the
    fall of the price.
  */
  lemma DiffStep(closes: seq<real>, i: int)
    requires 0 <= i < |closes|
    ensures i == 0 ==> Deltas(closes)[i].None? && Gains(closes)[i] == 0.0 && Losses(closes)[i] == 0.0
    ensures 0 < i ==> Deltas(closes)[i].Some? && closes[i - 1] + Deltas(closes)[i].value == closes[i]
    ensures 0 < i ==> Gains(closes)[i] == MaxReal(closes[i] - closes[i - 1], 0.0)
    ensures 0 < i ==> Losses(closes)[i] == MaxReal(closes[i - 1] - closes[i], 0.0)
  {
    GainLossSplit(Deltas(closes)[i]);
  }

  /** The RSI of a long enough series, in terms of the sums of the last 14 gains and losses. */
  lemma RsiFromSums(closes: seq<real>)
    requires RsiWindow <= |closes|
    ensures 0.0 <= Sum(Gains(closes)[|closes| - RsiWindow..])
    ensures 0.0 <= Sum(Losses(closes)[|closes| - RsiWindow..])
    ensures Rsi(closes) == RsiFromMeans(Sum(Gains(closes)[|closes| - RsiWindow..]) / RsiWindow as real,
                                        Sum(Losses(closes)[|closes| - RsiWindow..]) / RsiWindow as real)
  {
    var n := |closes|;
    RollingMeanOfLift(Gains(closes), RsiWindow);
    RollingMeanOfLift(Losses(closes), RsiWindow);
    SumZeroIff(Gains(closes)[n - RsiWindow..]);
    SumZeroIff(Losses(closes)[n - RsiWindow..]);
  }

  /**
    The RSI exists exactly when the series holds 14 closes and the price moved
    among the last 14 of them. Fourteen suffice, not fifteen: the leading NaN of
    `diff()` is replaced by 0 in both the gains and the losses.
  */
  lemma RsiDefinedIff(closes: seq<real>)
    ensures Rsi(closes).Some? <==> RsiWindow <= |closes| && MovedInRsiWindow(closes)
  {
    var n := |closes|;
    if n >= RsiWindow {
      RsiFromSums(closes);
      WindowMovedIff(closes);
    }
  }

  /** Some gain or loss in the last 14 is non-zero exactly when the price moved there. */
  lemma WindowMovedIff(closes: seq<real>)
    requires RsiWindow <= |closes|
    ensures var n := |closes|;
      Sum(Gains(closes)[n - RsiWindow..]) > 0.0 || Sum(Losses(closes)[n - RsiWindow..]) > 0.0
      <==> MovedInRsiWindow(closes)
  {
    var n := |closes|;
    var gw, lw := Gains(closes)[n - RsiWindow..], Losses(closes)[n - RsiWindow..];
    SumZeroIff(gw);
    SumZeroIff(lw);
    if MovedInRsiWindow(closes) {
      var i :| n - RsiWindow <= i < n && 0 < i && closes[i] != closes[i - 1];
      StepMoved(closes, i);
      assert gw[i - (n - RsiWindow)] > 0.0 || lw[i - (n - RsiWindow)] > 0.0;
    }
    if Sum(gw) > 0.0 || Sum(lw) > 0.0 {
      var k :| 0 <= k < RsiWindow && (gw[k] != 0.0 || lw[k] != 0.0);
      var i := n - RsiWindow + k;
      StepMoved(closes, i);
      assert 0 < i && closes[i] != closes[i - 1];
    }
  }

  /** A price that never moves has no RSI (0/0), so its RSI signal is NEUTRAL. */
  lemma RsiOfFlat(closes: seq<real>, c: real)
    requires forall i :: 0 <= i < |closes| ==> closes[i] == c
    ensures Rsi(closes) == None
  {
    RsiDefinedIff(closes);
  }

  /** If the price fell at some step of the last 14, the RSI is below 100. */
  lemma RsiBelowHundred(closes: seq<real>, i: int)
    requires RsiWindow <= |closes|
    requires |closes| - RsiWindow <= i < |closes| && 0 < i && closes[i] < closes[i - 1]
    ensures Rsi(closes).Some? && Rsi(closes).value < 100.0
  {
    var n := |closes|;
    var lw := Losses(closes)[n - RsiWindow..];
    RsiFromSums(closes);
    assert Losses(closes)[i] > 0.0 by {
      assert Deltas(closes)[i] == Some(closes[i] - closes[i - 1]);
    }
    assert lw[i - (n - RsiWindow)] > 0.0;
    SumZeroIff(lw);
    assert Sum(lw) / RsiWindow as real > 0.0;
  }

  // ---------------------------------------------------------------- Bollinger bands

  datatype Bands = Bands(upper: real, middle: real, lower: real)

  /** `calculate_bollinger_bands(hist['Close'])`, given the rolling standard deviation `sigma`. */
  function Bollinger(closes: seq<real>, sigma: real): (r: Option<Bands>)
    ensures r.Some? <==> BollingerWindow <= |closes|
    ensures r.Some? ==> Sma(closes, BollingerWindow) == Some(r.value.middle)
    ensures r.Some? ==> r.value.upper - r.value.middle == r.value.middle - r.value.lower == NumStd * sigma
    ensures r.Some? && 0.0 <= sigma ==> r.value.lower <= r.value.middle <= r.value.upper
  {
    match Sma(closes, BollingerWindow)
    case None => None
    case Some(m) => Some(Bands(m + sigma * NumStd, m, m - sigma * NumStd))
  }

  /** Over an unchanging price the standard deviation is 0 and the bands collapse onto the price. */
  lemma BollingerOfFlat(closes: seq<real>, c: real)
    requires BollingerWindow <= |closes|
    requires forall i :: 0 <= i < |closes| ==> closes[i] == c
    ensures RollingVariance(closes, BollingerWindow) == 0.0
    ensures Bollinger(closes, 0.0) == Some(Bands(c, c, c))
  {
    VarianceOfFlat(closes, BollingerWindow, c);
    SmaOfFlat(closes, BollingerWindow, c);
  }

  // ---------------------------------------------------------------- ATR

  /** One element of `true_range`, given the day's high and low and the previous close. */
  function TrueRange(high: real, low: real, prevClose: real): (tr: real)
    ensures high - low <= tr && Abs(high - prevClose) <= tr && Abs(low - prevClose) <= tr
    ensures tr == high - low || tr == Abs(high - prevClose) || tr == Abs(low - prevClose)
    ensures 0.0 <= tr
  {
    MaxReal(high - low, MaxReal(Abs(high - prevClose), Abs(low - prevClose)))
  }

  /** On a well-formed day the true range is the span from the lower to the higher of the range and the previous close. */
  lemma TrueRangeIsSpan(high: real, low: real, prevClose: real)
    requires low <= high
    ensures TrueRange(high, low, prevClose) == MaxReal(high, prevClose) - MinReal(low, prevClose)
  {
  }

  /**
    The `true_range` series. `hist['Close'].shift()` leaves the first row
    without a previous close, and `np.maximum` propagates that NaN.
  */
  function TrueRanges(rows: seq<PricePoint>): (t: seq<Option<real>>)
    ensures |t| == |rows|
    ensures forall i :: 0 <= i < |rows| ==> (t[i].Some? <==> 0 < i)
    ensures forall i :: 0 < i < |rows| ==> rows[i].high - rows[i].low <= t[i].value && 0.0 <= t[i].value
  {
    seq(|rows|, i requires 0 <= i < |rows| =>
      if i == 0 then None else Some(TrueRange(rows[i].high, rows[i].low, rows[i - 1].close)))
  }

  /** `true_range.rolling(window=14).mean().iloc[-1]`. */
  function Atr(rows: seq<PricePoint>): (r: Option<real>)
    ensures r.Some? <==> AtrWindow + 1 <= |rows|
    ensures r.Some? ==> 0.0 <= r.value
  {
    var trs := TrueRanges(rows);
    var r := RollingMeanLast(trs, AtrWindow);
    assert |rows| == AtrWindow ==> trs[|rows| - AtrWindow].None?;
    assert r.Some? ==> AtrWindow + 1 <= |rows|;
    if r.Some? then
      RollingMeanAtLeast(trs, AtrWindow, 0.0);
      r
    else
      r
  }

  /** The ATR is at least the smallest high-low range of the last 14 days. */
  lemma AtrAtLeastDailyRange(rows: seq<PricePoint>, lo: real)
    requires AtrWindow + 1 <= |rows|
    requires forall i :: |rows| - AtrWindow <= i < |rows| ==> lo <= rows[i].high - rows[i].low
    ensures lo <= Atr(rows).value
  {
    RollingMeanAtLeast(TrueRanges(rows), AtrWindow, lo);
  }
}
