/** The indicator library of the trading core: pure functions over a series
    of closing prices (services/trading_core_service.py, `_sma`, `_std`,
    `_ema_series`, `_ema_last`, `_rsi` and `_macd`).  Prices are `real`; an
    indicator that cannot be computed is `None`. */
module Indicators {
  import opened Wrappers

  function Sum(s: seq<real>): real {
    if |s| == 0 then 0.0 else s[0] + Sum(s[1..])
  }

  /** Every element lies in [lo, hi]. */
  predicate Within(s: seq<real>, lo: real, hi: real) {
    forall i :: 0 <= i < |s| ==> lo <= s[i] <= hi
  }

  lemma {:induction false} SumBounds(s: seq<real>, lo: real, hi: real)
    requires Within(s, lo, hi)
    ensures |s| as real * lo <= Sum(s) <= |s| as real * hi
  {
    if |s| > 0 {
      SumBounds(s[1..], lo, hi);
    }
  }

  /** Arithmetic mean of a non-empty window. */
  function Mean(s: seq<real>): real
    requires |s| > 0
  {
    Sum(s) / |s| as real
  }

  lemma MeanBounds(s: seq<real>, lo: real, hi: real)
    requires |s| > 0 && Within(s, lo, hi)
    ensures lo <= Mean(s) <= hi
  {
    SumBounds(s, lo, hi);
  }

  /** `values[-period:]` for 1 <= period <= |values|. */
  function Tail(values: seq<real>, period: int): (w: seq<real>)
    requires 0 < period <= |values|
    ensures |w| == period
    ensures forall i :: 0 <= i < period ==> w[i] == values[|values| - period + i]
  {
    values[|values| - period..]
  }

  /** `_sma`: the mean of the last `period` prices. */
  function Sma(values: seq<real>, period: int): (r: Option<real>)
    ensures r.None? <==> period <= 0 || |values| < period
  {
    if period <= 0 || |values| < period then None else Some(Mean(Tail(values, period)))
  }

  /** The moving average stays within the range of its window. */
  lemma SmaBounds(values: seq<real>, period: int, lo: real, hi: real)
    requires 0 < period <= |values| && Within(Tail(values, period), lo, hi)
    ensures Sma(values, period).Some?
    ensures lo <= Sma(values, period).value <= hi
  {
    MeanBounds(Tail(values, period), lo, hi);
  }

  // ---------------------------------------------------------------- EMA

  /** Smoothing factor `2 / (period + 1)`. */
  function Alpha(period: int): (k: real)
    requires period > 0
    ensures 0.0 < k <= 1.0
  {
    2.0 / (period as real + 1.0)
  }

  /** One EMA step: `price * k + prev * (1 - k)`. */
  function EmaStep(prev: real, price: real, k: real): real {
    price * k + prev * (1.0 - k)
  }

  lemma StepBounds(prev: real, price: real, k: real, lo: real, hi: real)
    requires lo <= prev <= hi && lo <= price <= hi && 0.0 <= k <= 1.0
    ensures lo <= EmaStep(prev, price, k) <= hi
  {
    MulNonNegative(price - lo, k);
    MulNonNegative(prev - lo, 1.0 - k);
    MulNonNegative(hi - price, k);
    MulNonNegative(hi - prev, 1.0 - k);
  }

  lemma MulNonNegative(a: real, b: real)
    requires a >= 0.0 && b >= 0.0
    ensures a * b >= 0.0
  {
  }

  /** The values the loop appends after the seed, one per remaining price. */
  function EmaSteps(prev: real, prices: seq<real>, k: real): (r: seq<real>)
    ensures |r| == |prices|
    decreases |prices|
  {
    if |prices| == 0 then []
    else
      var next := EmaStep(prev, prices[0], k);
      [next] + EmaSteps(next, prices[1..], k)
  }

  lemma {:induction false} StepsBounds(prev: real, prices: seq<real>, k: real, lo: real, hi: real)
    requires lo <= prev <= hi && Within(prices, lo, hi) && 0.0 <= k <= 1.0
    ensures Within(EmaSteps(prev, prices, k), lo, hi)
    decreases |prices|
  {
    if |prices| > 0 {
      var next := EmaStep(prev, prices[0], k);
      StepBounds(prev, prices[0], k, lo, hi);
      StepsBounds(next, prices[1..], k, lo, hi);
    }
  }

  /** `_ema_series`: seeded with the mean of the first `period` prices, then
      one smoothed value per further price. */
  function EmaSeries(values: seq<real>, period: int): (r: Option<seq<real>>)
    ensures r.None? <==> period <= 0 || |values| < period
    ensures r.Some? ==> |r.value| == |values| - period + 1
    ensures r.Some? ==> r.value[0] == Mean(values[..period])
  {
    if period <= 0 || |values| < period then None
    else
      var seed := Mean(values[..period]);
      Some([seed] + EmaSteps(seed, values[period..], Alpha(period)))
  }

  /** Every EMA value stays within the range of the prices. */
  lemma {:induction false} EmaBounds(values: seq<real>, period: int, lo: real, hi: real)
    requires 0 < period <= |values| && Within(values, lo, hi)
    ensures EmaSeries(values, period).Some?
    ensures Within(EmaSeries(values, period).value, lo, hi)
  {
    var seed := Mean(values[..period]);
    assert Within(values[..period], lo, hi);
    MeanBounds(values[..period], lo, hi);
    assert Within(values[period..], lo, hi);
    StepsBounds(seed, values[period..], Alpha(period), lo, hi);
  }

  /** A flat price series has a flat EMA. */
  lemma EmaOfConstant(values: seq<real>, period: int, c: real)
    requires 0 < period <= |values| && forall i :: 0 <= i < |values| ==> values[i] == c
    ensures forall i :: 0 <= i < |EmaSeries(values, period).value| ==> EmaSeries(values, period).value[i] == c
  {
    EmaBounds(values, period, c, c);
  }

  /** `_ema_last`: the last value of the EMA series. */
  function EmaLast(values: seq<real>, period: int): (r: Option<real>)
    ensures r.None? <==> period <= 0 || |values| < period
    ensures r.Some? ==> r.value == EmaSeries(values, period).value[|values| - period]
  {
    match EmaSeries(values, period)
    case None => None
    case Some(s) => Some(s[|s| - 1])
  }

  // ---------------------------------------------------------------- RSI

  /** Price changes: `values[i] - values[i - 1]` for i = 1 .. |values| - 1. */
  function Deltas(values: seq<real>): (d: seq<real>)
    requires |values| > 0
    ensures |d| == |values| - 1
    ensures forall i :: 0 <= i < |d| ==> d[i] == values[i + 1] - values[i]
  {
    seq(|values| - 1, i requires 0 <= i < |values| - 1 => values[i + 1] - values[i])
  }

  function Gain(delta: real): (g: real)
    ensures g >= 0.0
  {
    if delta >= 0.0 then delta else 0.0
  }

  function Loss(delta: real): (l: real)
    ensures l >= 0.0
    ensures l == 0.0 <==> delta >= 0.0
  {
    if delta >= 0.0 then 0.0 else -delta
  }

  function Gains(ds: seq<real>): (r: seq<real>)
    ensures |r| == |ds|
    ensures forall i :: 0 <= i < |ds| ==> r[i] == Gain(ds[i])
  {
    seq(|ds|, i requires 0 <= i < |ds| => Gain(ds[i]))
  }

  function Losses(ds: seq<real>): (r: seq<real>)
    ensures |r| == |ds|
    ensures forall i :: 0 <= i < |ds| ==> r[i] == Loss(ds[i])
  {
    seq(|ds|, i requires 0 <= i < |ds| => Loss(ds[i]))
  }

  /** Every element is non-negative. */
  predicate NonNegative(s: seq<real>) {
    forall i :: 0 <= i < |s| ==> s[i] >= 0.0
  }

  /** Every element is zero. */
  predicate AllZero(s: seq<real>) {
    forall i :: 0 <= i < |s| ==> s[i] == 0.0
  }

  lemma {:induction false} SumNonNegative(s: seq<real>)
    requires NonNegative(s)
    ensures Sum(s) >= 0.0
  {
    if |s| > 0 {
      SumNonNegative(s[1..]);
    }
  }

  lemma {:induction false} SumZero(s: seq<real>)
    requires AllZero(s)
    ensures Sum(s) == 0.0
  {
    if |s| > 0 {
      SumZero(s[1..]);
    }
  }

  /** Wilder's smoothing `avg = (avg * (period - 1) + x) / period`, applied to
      the remaining gains (or losses) in order. */
  function Wilder(avg: real, xs: seq<real>, period: int): real
    requires period > 0
    decreases |xs|
  {
    if |xs| == 0 then avg
    else Wilder((avg * (period - 1) as real + xs[0]) / period as real, xs[1..], period)
  }

  lemma {:induction false} WilderNonNegative(avg: real, xs: seq<real>, period: int)
    requires period > 0 && avg >= 0.0 && NonNegative(xs)
    ensures Wilder(avg, xs, period) >= 0.0
    decreases |xs|
  {
    if |xs| > 0 {
      MulNonNegative(avg, (period - 1) as real);
      WilderNonNegative((avg * (period - 1) as real + xs[0]) / period as real, xs[1..], period);
    }
  }

  lemma {:induction false} WilderZero(xs: seq<real>, period: int)
    requires period > 0 && AllZero(xs)
    ensures Wilder(0.0, xs, period) == 0.0
  {
    if |xs| > 0 {
      WilderZero(xs[1..], period);
    }
  }

  /** The smoothed average of one side: the mean over the first `period`
      changes, then Wilder's smoothing over the rest. */
  function Smoothed(side: seq<real>, period: int): real
    requires 0 < period <= |side|
  {
    Wilder(Sum(side[..period]) / period as real, side[period..], period)
  }

  lemma SmoothedNonNegative(side: seq<real>, period: int)
    requires 0 < period <= |side| && NonNegative(side)
    ensures Smoothed(side, period) >= 0.0
  {
    assert NonNegative(side[..period]);
    SumNonNegative(side[..period]);
    assert NonNegative(side[period..]);
    WilderNonNegative(Sum(side[..period]) / period as real, side[period..], period);
  }

  lemma SmoothedZero(side: seq<real>, period: int)
    requires 0 < period <= |side| && AllZero(side)
    ensures Smoothed(side, period) == 0.0
  {
    assert AllZero(side[..period]);
    SumZero(side[..period]);
    assert AllZero(side[period..]);
    WilderZero(side[period..], period);
  }

  /** Average gain and average loss after the whole series. */
  function AvgGain(values: seq<real>, period: int): (g: real)
    requires 0 < period && period + 1 <= |values|
    ensures g >= 0.0
  {
    var side := Gains(Deltas(values));
    SmoothedNonNegative(side, period);
    Smoothed(side, period)
  }

  function AvgLoss(values: seq<real>, period: int): (l: real)
    requires 0 < period && period + 1 <= |values|
    ensures l >= 0.0
  {
    var side := Losses(Deltas(values));
    SmoothedNonNegative(side, period);
    Smoothed(side, period)
  }

  /** `_rsi` with Wilder smoothing: 100 when the average loss is zero,
      otherwise `100 - 100 / (1 + gain / loss)`. */
  function Rsi(values: seq<real>, period: int): (r: Option<real>)
    ensures r.None? <==> period <= 0 || |values| < period + 1
    ensures r.Some? ==> 0.0 <= r.value <= 100.0
    ensures r.Some? ==> (r.value == 100.0 <==> AvgLoss(values, period) == 0.0)
  {
    if period <= 0 || |values| < period + 1 then None
    else
      var g := AvgGain(values, period);
      var l := AvgLoss(values, period);
      if l == 0.0 then Some(100.0)
      else
        var rs := g / l;
        assert rs >= 0.0;
        assert 100.0 / (1.0 + rs) > 0.0;
        assert 100.0 / (1.0 + rs) <= 100.0;
        Some(100.0 - 100.0 / (1.0 + rs))
  }

  /** A series that never falls has RSI 100. */
  lemma RsiNeverFalling(values: seq<real>, period: int)
    requires 0 < period && period + 1 <= |values|
    requires forall i :: 0 < i < |values| ==> values[i - 1] <= values[i]
    ensures Rsi(values, period) == Some(100.0)
  {
    var side := Losses(Deltas(values));
    assert AllZero(side);
    SmoothedZero(side, period);
  }

  // ---------------------------------------------------------------- MACD

  datatype MacdPoint = MacdPoint(macd: real, signal: real, hist: real)

  /** Difference of two series aligned on their tails. */
  function AlignedDiff(a: seq<real>, b: seq<real>): (d: seq<real>)
    ensures |d| == if |a| <= |b| then |a| else |b|
    ensures forall i :: 0 <= i < |d| ==> d[i] == a[|a| - |d| + i] - b[|b| - |d| + i]
  {
    var n := if |a| <= |b| then |a| else |b|;
    seq(n, i requires 0 <= i < n => a[|a| - n + i] - b[|b| - n + i])
  }

  /** `_macd`: fast EMA minus slow EMA on a common time axis, its EMA as the
      signal line, and the histogram between them. */
  function Macd(values: seq<real>, fast: int, slow: int, signal: int): (r: Option<MacdPoint>)
    ensures |values| < slow + signal ==> r.None?
    ensures r.Some? <==>
      1 <= fast && 1 <= slow && 1 <= signal
      && slow + signal <= |values| && fast + signal <= |values| + 1
    ensures r.Some? ==> r.value.hist == r.value.macd - r.value.signal
    ensures r.Some? ==> r.value.macd == EmaLast(values, fast).value - EmaLast(values, slow).value
  {
    if |values| < slow + signal then None
    else
      match (EmaSeries(values, fast), EmaSeries(values, slow))
      case (Some(ef), Some(es)) =>
        var line := AlignedDiff(ef, es);
        var sig :- EmaSeries(line, signal);
        var m := line[|line| - 1];
        var s := sig[|sig| - 1];
        Some(MacdPoint(m, s, m - s))
      case _ => None
  }

  // ---------------------------------------------------------- Bollinger

  /** Sum of squared deviations from `m`. */
  function SquaredDeviations(s: seq<real>, m: real): (r: real)
    ensures r >= 0.0
  {
    if |s| == 0 then 0.0
    else
      var d := s[0] - m;
      assert d * d >= 0.0 by {
        if d < 0.0 { MulNonNegative(-d, -d); } else { MulNonNegative(d, d); }
      }
      d * d + SquaredDeviations(s[1..], m)
  }

  lemma {:induction false} SquaredDeviationsZero(s: seq<real>, m: real)
    requires forall i :: 0 <= i < |s| ==> s[i] == m
    ensures SquaredDeviations(s, m) == 0.0
  {
    if |s| > 0 {
      SquaredDeviationsZero(s[1..], m);
    }
  }

  /** The population variance `_std` takes the square root of. */
  function Variance(values: seq<real>, period: int): (v: Option<real>)
    ensures v.None? <==> period <= 0 || |values| < period
    ensures v.Some? ==> v.value >= 0.0
  {
    var m :- Sma(values, period);
    Some(SquaredDeviations(Tail(values, period), m) / period as real)
  }

  /** A flat window has no variance. */
  lemma VarianceOfConstant(values: seq<real>, period: int, c: real)
    requires 0 < period <= |values|
    requires forall i :: 0 <= i < period ==> Tail(values, period)[i] == c
    ensures Variance(values, period) == Some(0.0)
  {
    MeanBounds(Tail(values, period), c, c);
    SquaredDeviationsZero(Tail(values, period), c);
  }

  /** `math.sqrt` is a parameter; the bands need only that it never returns
      a negative number for a non-negative argument. */
  ghost predicate NonNegativeRoot(root: real -> real) {
    forall x :: 0.0 <= x ==> 0.0 <= root(x)
  }

  datatype Bands = Bands(lower: real, mid: real, upper: real)

  /** The Bollinger arithmetic of the decision procedure: the moving
      average, plus and minus `mult` standard deviations. */
  function Bollinger(values: seq<real>, period: int, mult: real, root: real -> real): (r: Option<Bands>)
    ensures r.None? <==> period <= 0 || |values| < period
    ensures r.Some? ==> Sma(values, period) == Some(r.value.mid)
    ensures r.Some? ==> r.value.upper - r.value.mid == r.value.mid - r.value.lower
  {
    if period <= 0 || |values| < period then None
    else
      var mid := Sma(values, period).value;
      var sd := root(Variance(values, period).value);
      Some(Bands(mid - mult * sd, mid, mid + mult * sd))
  }

  /** With a non-negative multiplier the bands are ordered. */
  lemma BandsOrdered(values: seq<real>, period: int, mult: real, root: real -> real)
    requires 0 < period <= |values| && mult >= 0.0 && NonNegativeRoot(root)
    ensures Bollinger(values, period, mult, root).Some?
    ensures var b := Bollinger(values, period, mult, root).value;
      b.lower <= b.mid <= b.upper
  {
    var v := Variance(values, period).value;
    assert 0.0 <= root(v);
    assert mult * root(v) >= 0.0;
  }
}
