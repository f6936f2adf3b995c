/**
  The discrete decision rules of the technical-indicators handler: the
  threshold classifier `get_signal`, the MACD and Bollinger choices, the
  moving-average tags and the "two of four" aggregate.

  Every comparison is Python's float comparison, under which every ordering
  comparison (`<`, `>`) with NaN (here `None`) is false; `Less` spells that
  out once.
*/
module Signals {
  import opened Wrappers

  datatype Signal = Oversold | Overbought | Neutral | Bullish | Bearish | Volatility

  datatype Color = Green | Red | Yellow | Blue

  /** `a < b` on floats that may be NaN. */
  predicate Less(a: Option<real>, b: Option<real>)
  {
    a.Some? && b.Some? && a.value < b.value
  }

  /** The colour every signal is shown in, whichever indicator produced it. */
  function SignalColor(s: Signal): Color
  {
    match s
    case Oversold => Green
    case Overbought => Red
    case Neutral => Yellow
    case Bullish => Green
    case Bearish => Red
    case Volatility => Blue
  }

  /** `get_signal(value, lower_threshold, upper_threshold)`. */
  function GetSignal(value: Option<real>, lower: real, upper: real): (r: (Signal, Color))
    ensures r.0 == Oversold <==> Less(value, Some(lower))
    ensures r.0 == Overbought <==> !Less(value, Some(lower)) && Less(Some(upper), value)
    ensures r.0 == Neutral <==> !Less(value, Some(lower)) && !Less(Some(upper), value)
    ensures r.1 == SignalColor(r.0)
  {
    if Less(value, Some(lower)) then (Oversold, Green)
    else if Less(Some(upper), value) then (Overbought, Red)
    else (Neutral, Yellow)
  }

  /** A missing value (a NaN RSI) is never oversold nor overbought. */
  lemma MissingValueIsNeutral(lower: real, upper: real)
    ensures GetSignal(None, lower, upper) == (Neutral, Yellow)
  {
  }

  /** The Bollinger choice, written out inline in the handler. */
  function BandSignal(price: real, lower: Option<real>, upper: Option<real>): (r: (Signal, Color))
    ensures r.1 == SignalColor(r.0)
  {
    if Less(Some(price), lower) then (Oversold, Green)
    else if Less(upper, Some(price)) then (Overbought, Red)
    else (Neutral, Yellow)
  }

  /** The inline Bollinger choice is `get_signal` applied to the price and the two bands. */
  lemma BandSignalIsGetSignal(price: real, lower: real, upper: real)
    ensures BandSignal(price, Some(lower), Some(upper)) == GetSignal(Some(price), lower, upper)
  {
  }

  /** The MACD choice: bullish exactly when the MACD line is above its signal line. */
  function MacdSignal(macdLine: real, signalLine: real): (r: (Signal, Color))
    ensures r.0 == Bullish <==> macdLine > signalLine
    ensures r.0 == Bearish <==> macdLine <= signalLine
    ensures r.1 == SignalColor(r.0)
  {
    if macdLine > signalLine then (Bullish, Green) else (Bearish, Red)
  }

  datatype Position = Above | Below

  datatype Trend = BullishTrend | BearishTrend

  /** The "position" and "trend" of a moving-average row for the current price. */
  function PriceVersus(price: real, average: Option<real>): (r: (Position, Trend))
    ensures r.0 == Above <==> r.1 == BullishTrend
    ensures r.0 == Above <==> average.Some? && price > average.value
  {
    if Less(average, Some(price)) then (Above, BullishTrend) else (Below, BearishTrend)
  }

  /** `sum([...])` over a list of booleans: how many of them hold. */
  function CountTrue(bs: seq<bool>): (n: nat)
    ensures n <= |bs|
    ensures n == 0 <==> forall i :: 0 <= i < |bs| ==> !bs[i]
  {
    if |bs| == 0 then 0
    else
      assert forall i :: 1 <= i < |bs| ==> bs[i] == bs[1..][i - 1];
      (if bs[0] then 1 else 0) + CountTrue(bs[1..])
  }

  /** At least two of the conditions hold exactly when two distinct ones are true. */
  lemma {:induction false} AtLeastTwoIff(bs: seq<bool>)
    ensures CountTrue(bs) >= 2 <==> exists i, j :: 0 <= i < j < |bs| && bs[i] && bs[j]
  {
    if |bs| > 0 {
      var rest := bs[1..];
      AtLeastTwoIff(rest);
      assert forall i :: 1 <= i < |bs| ==> bs[i] == rest[i - 1];
      if CountTrue(bs) >= 2 {
        if bs[0] {
          var j :| 0 <= j < |rest| && rest[j];
          assert bs[0] && bs[j + 1];
        } else {
          var i, j :| 0 <= i < j < |rest| && rest[i] && rest[j];
          assert bs[i + 1] && bs[j + 1];
        }
      }
      if exists i, j :: 0 <= i < j < |bs| && bs[i] && bs[j] {
        var i, j :| 0 <= i < j < |bs| && bs[i] && bs[j];
        if i == 0 {
          assert rest[j - 1];
        } else {
          assert rest[i - 1] && rest[j - 1];
        }
      }
    }
  }

  /** `overall_signal`: BULLISH when at least two bullish conditions hold. */
  function OverallSignal(bullishCount: nat): (s: Signal)
    ensures s == Bullish || s == Bearish
  {
    if bullishCount >= 2 then Bullish else Bearish
  }

  /** The four bullish conditions, in the handler's order. */
  function BullishConditions(rsi: Option<real>, macdLine: real, signalLine: real,
                             price: real, bandLower: Option<real>, ma20: Option<real>): (cs: seq<bool>)
    ensures |cs| == 4
  {
    [ Less(rsi, Some(30.0)),         // oversold RSI
      macdLine > signalLine,         // MACD above its signal line
      Less(Some(price), bandLower),  // price below the lower band
      Less(ma20, Some(price)) ]      // price above the 20-day average
  }

  /** The count lies in 0..4 and is the sum of the four conditions' 0/1 values. */
  lemma BullishCountIsSum(rsi: Option<real>, macdLine: real, signalLine: real,
                          price: real, bandLower: Option<real>, ma20: Option<real>)
    ensures var n := CountTrue(BullishConditions(rsi, macdLine, signalLine, price, bandLower, ma20));
      0 <= n <= 4 &&
      n == (if Less(rsi, Some(30.0)) then 1 else 0) + (if macdLine > signalLine then 1 else 0)
         + (if Less(Some(price), bandLower) then 1 else 0) + (if Less(ma20, Some(price)) then 1 else 0)
  {
    var cs := BullishConditions(rsi, macdLine, signalLine, price, bandLower, ma20);
    assert cs[1..] == cs[1..4] && cs[2..] == cs[1..][1..] && cs[3..] == cs[2..][1..];
    assert CountTrue(cs[3..]) == (if cs[3] then 1 else 0) + CountTrue(cs[4..]);
    assert CountTrue(cs[2..]) == (if cs[2] then 1 else 0) + CountTrue(cs[3..]);
    assert CountTrue(cs[1..]) == (if cs[1] then 1 else 0) + CountTrue(cs[2..]);
  }

  /** The overall verdict is BULLISH iff two distinct conditions of the four hold. */
  lemma OverallBullishIff(rsi: Option<real>, macdLine: real, signalLine: real,
                          price: real, bandLower: Option<real>, ma20: Option<real>)
    ensures var cs := BullishConditions(rsi, macdLine, signalLine, price, bandLower, ma20);
      OverallSignal(CountTrue(cs)) == Bullish <==> exists i, j :: 0 <= i < j < 4 && cs[i] && cs[j]
  {
    AtLeastTwoIff(BullishConditions(rsi, macdLine, signalLine, price, bandLower, ma20));
  }
}
