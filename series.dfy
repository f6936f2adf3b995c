/**
  The provider's daily OHLCV series and the rolling statistics the handlers
  take from it with pandas.

  pandas marks a missing value as NaN; here it is `None`. A rolling mean over
  `w` values (`s.rolling(window=w).mean()`) has pandas' default
  `min_periods=w`: it exists only where the `w` values ending there all exist.
  The handlers only read its last element (`.iloc[-1]`), so that is all
  `RollingMeanLast` returns.
*/
module Series {
  import opened Wrappers
  import Dates

  /** One row of the provider's history: a trading day's prices and volume. */
  datatype PricePoint = PricePoint(date: Dates.Date, open: real, high: real, low: real, close: real, volume: int)

  /** `hist['Close'].iloc[-1]`, the current price. */
  function LastClose(rows: seq<PricePoint>): real
    requires |rows| > 0
  {
    rows[|rows| - 1].close
  }

  function Closes(rows: seq<PricePoint>): seq<real>
  {
    seq(|rows|, i requires 0 <= i < |rows| => rows[i].close)
  }

  function Highs(rows: seq<PricePoint>): seq<real>
  {
    seq(|rows|, i requires 0 <= i < |rows| => rows[i].high)
  }

  function Lows(rows: seq<PricePoint>): seq<real>
  {
    seq(|rows|, i requires 0 <= i < |rows| => rows[i].low)
  }

  function Min(a: int, b: int): int
  {
    if a <= b then a else b
  }

  function Abs(x: real): real
  {
    if x < 0.0 then -x else x
  }

  /** `np.maximum` on two numbers. */
  function MaxReal(a: real, b: real): real
  {
    if a >= b then a else b
  }

  function MinReal(a: real, b: real): real
  {
    if a <= b then a else b
  }

  function Sum(xs: seq<real>): real
  {
    if |xs| == 0 then 0.0 else xs[0] + Sum(xs[1..])
  }

  lemma {:induction false} SumAtLeast(xs: seq<real>, lo: real)
    requires forall i :: 0 <= i < |xs| ==> lo <= xs[i]
    ensures |xs| as real * lo <= Sum(xs)
  {
    if |xs| > 0 {
      SumAtLeast(xs[1..], lo);
      assert |xs| as real * lo == (|xs| - 1) as real * lo + lo;
    }
  }

  lemma {:induction false} SumAtMost(xs: seq<real>, hi: real)
    requires forall i :: 0 <= i < |xs| ==> xs[i] <= hi
    ensures Sum(xs) <= |xs| as real * hi
  {
    if |xs| > 0 {
      SumAtMost(xs[1..], hi);
      assert |xs| as real * hi == (|xs| - 1) as real * hi + hi;
    }
  }

  /** A sum of non-negative terms vanishes exactly when every term does. */
  lemma {:induction false} SumZeroIff(xs: seq<real>)
    requires forall i :: 0 <= i < |xs| ==> 0.0 <= xs[i]
    ensures 0.0 <= Sum(xs)
    ensures Sum(xs) == 0.0 <==> forall i :: 0 <= i < |xs| ==> xs[i] == 0.0
  {
    if |xs| > 0 {
      SumZeroIff(xs[1..]);
      assert forall i :: 1 <= i < |xs| ==> xs[i] == xs[1..][i - 1];
    }
  }

  predicate AllSome(xs: seq<Option<real>>)
  {
    forall i :: 0 <= i < |xs| ==> xs[i].Some?
  }

  function Values(xs: seq<Option<real>>): seq<real>
    requires AllSome(xs)
  {
    seq(|xs|, i requires 0 <= i < |xs| => xs[i].value)
  }

  /** A series with no missing value. */
  function Lift(xs: seq<real>): seq<Option<real>>
  {
    seq(|xs|, i requires 0 <= i < |xs| => Some(xs[i]))
  }

  /** `s.rolling(window=w).mean().iloc[-1]`. */
  function RollingMeanLast(xs: seq<Option<real>>, w: nat): (r: Option<real>)
    requires w > 0
    ensures r.Some? <==> w <= |xs| && forall i :: |xs| - w <= i < |xs| ==> xs[i].Some?
  {
    if |xs| < w then None
    else
      var win := xs[|xs| - w..];
      assert forall i :: |xs| - w <= i < |xs| ==> xs[i] == win[i - (|xs| - w)];
      if AllSome(win) then Some(Sum(Values(win)) / w as real) else None
  }

  /** The rolling mean is at least any bound all its window's values reach. */
  lemma RollingMeanAtLeast(xs: seq<Option<real>>, w: nat, lo: real)
    requires w > 0 && RollingMeanLast(xs, w).Some?
    requires forall i :: |xs| - w <= i < |xs| ==> xs[i].Some? && lo <= xs[i].value
    ensures lo <= RollingMeanLast(xs, w).value
  {
    var vs := Values(xs[|xs| - w..]);
    assert forall i :: 0 <= i < |vs| ==> vs[i] == xs[|xs| - w + i].value;
    SumAtLeast(vs, lo);
    QuotientAtLeast(Sum(vs), w as real, lo);
  }

  /** The rolling mean is at most any bound all its window's values stay under. */
  lemma RollingMeanAtMost(xs: seq<Option<real>>, w: nat, hi: real)
    requires w > 0 && RollingMeanLast(xs, w).Some?
    requires forall i :: |xs| - w <= i < |xs| ==> xs[i].Some? && xs[i].value <= hi
    ensures RollingMeanLast(xs, w).value <= hi
  {
    var vs := Values(xs[|xs| - w..]);
    assert forall i :: 0 <= i < |vs| ==> vs[i] == xs[|xs| - w + i].value;
    SumAtMost(vs, hi);
    QuotientAtMost(Sum(vs), w as real, hi);
  }

  lemma QuotientAtLeast(total: real, n: real, lo: real)
    requires 0.0 < n && n * lo <= total
    ensures lo <= total / n
  {
    assert total / n - lo == (total - n * lo) / n;
  }

  lemma QuotientAtMost(total: real, n: real, hi: real)
    requires 0.0 < n && total <= n * hi
    ensures total / n <= hi
  {
    assert hi - total / n == (n * hi - total) / n;
  }

  /** Over a series with no missing value, the rolling mean is the mean of the last `w` values. */
  lemma RollingMeanOfLift(xs: seq<real>, w: nat)
    requires 0 < w <= |xs|
    ensures RollingMeanLast(Lift(xs), w) == Some(Sum(xs[|xs| - w..]) / w as real)
  {
    var win := Lift(xs)[|xs| - w..];
    assert AllSome(win);
    assert Values(win) == xs[|xs| - w..];
  }

  /** `closes.rolling(window=w).mean().iloc[-1]`, the simple moving average. */
  function Sma(closes: seq<real>, w: nat): (r: Option<real>)
    requires w > 0
    ensures w <= |closes| ==> r == Some(Sum(closes[|closes| - w..]) / w as real)
  {
    if w <= |closes| then
      RollingMeanOfLift(closes, w);
      RollingMeanLast(Lift(closes), w)
    else
      RollingMeanLast(Lift(closes), w)
  }

  /** The moving average exists exactly when the series holds `w` closes. */
  lemma SmaDefined(closes: seq<real>, w: nat)
    requires w > 0
    ensures Sma(closes, w).Some? <==> w <= |closes|
  {
  }

  /** The moving average of an unchanging price is that price. */
  lemma SmaOfFlat(closes: seq<real>, w: nat, c: real)
    requires 0 < w <= |closes|
    requires forall i :: 0 <= i < |closes| ==> closes[i] == c
    ensures Sma(closes, w) == Some(c)
  {
    RollingMeanAtLeast(Lift(closes), w, c);
    RollingMeanAtMost(Lift(closes), w, c);
  }

  function SquaredDeviations(xs: seq<real>, m: real): (ds: seq<real>)
    ensures |ds| == |xs|
    ensures forall i :: 0 <= i < |ds| ==> 0.0 <= ds[i]
  {
    SquaresNonNegative(xs, m);
    seq(|xs|, i requires 0 <= i < |xs| => (xs[i] - m) * (xs[i] - m))
  }

  lemma SquaresNonNegative(xs: seq<real>, m: real)
    ensures forall i :: 0 <= i < |xs| ==> 0.0 <= (xs[i] - m) * (xs[i] - m)
  {
    forall i | 0 <= i < |xs|
      ensures 0.0 <= (xs[i] - m) * (xs[i] - m)
    {
      ProductNonNegative(xs[i] - m);
    }
  }

  lemma ProductNonNegative(d: real)
    ensures 0.0 <= d * d
  {
    if d < 0.0 {
      assert d * d == (-d) * (-d);
      assert 0.0 <= (-d) * (-d);
    }
  }

  /**
    The sample variance (pandas' default `ddof=1`) of the last `w` closes:
    the square of `closes.rolling(window=w).std().iloc[-1]`.
  */
  function RollingVariance(closes: seq<real>, w: nat): (v: real)
    requires 1 < w <= |closes|
    ensures 0.0 <= v
  {
    var win := closes[|closes| - w..];
    SumZeroIff(SquaredDeviations(win, Sum(win) / w as real));
    Sum(SquaredDeviations(win, Sum(win) / w as real)) / (w - 1) as real
  }

  /** An unchanging price has no spread: its rolling variance, and so its standard deviation, is zero. */
  lemma VarianceOfFlat(closes: seq<real>, w: nat, c: real)
    requires 1 < w <= |closes|
    requires forall i :: 0 <= i < |closes| ==> closes[i] == c
    ensures RollingVariance(closes, w) == 0.0
  {
    var win := closes[|closes| - w..];
    assert forall i :: 0 <= i < |win| ==> win[i] == c;
    SmaOfFlat(closes, w, c);
    RollingMeanOfLift(closes, w);
    var m := Sum(win) / w as real;
    assert m == c;
    var dev := SquaredDeviations(win, m);
    DeviationsOfFlat(win, m);
    SumZeroIff(dev);
    assert Sum(dev) == 0.0;
    assert RollingVariance(closes, w) == Sum(dev) / (w - 1) as real;
  }

  /** Values that all equal the mean deviate from it by nothing. */
  lemma DeviationsOfFlat(xs: seq<real>, m: real)
    requires forall i :: 0 <= i < |xs| ==> xs[i] == m
    ensures forall i :: 0 <= i < |xs| ==> SquaredDeviations(xs, m)[i] == 0.0
  {
    forall i | 0 <= i < |xs|
      ensures SquaredDeviations(xs, m)[i] == 0.0
    {
      assert SquaredDeviations(xs, m)[i] == (xs[i] - m) * (xs[i] - m);
      assert xs[i] - m == 0.0;
    }
  }
}
