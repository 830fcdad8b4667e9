/** The per-column indicator transforms of engine/indicators.py: EMA, RSI,
    ATR, ADX, VWAP, the rolling volume average and the 52-week breakout. */
module Indicators {
  import opened Wrappers
  import opened Windows
  import opened Smoothing
  import opened Bars

  /** Bars in a year of trading: the minimum history and the breakout window. */
  const YearBars: nat := 252

  /** The smoothing factor of `ewm(span=span)`. */
  function SpanAlpha(span: real): (alpha: real)
    requires span >= 1.0
    ensures ValidAlpha(alpha)
  {
    2.0 / (span + 1.0)
  }

  /** The smoothing factor of `ewm(com=period - 1)`, Wilder's smoothing. */
  function WilderAlpha(period: real): (alpha: real)
    requires period >= 1.0
    ensures ValidAlpha(alpha)
  {
    1.0 / period
  }

  /** Largest defined value of a series, and never below zero. */
  function UpperBound(xs: seq<Option<real>>): (b: real)
    ensures b >= 0.0
    ensures forall k :: 0 <= k < |xs| && xs[k].Some? ==> xs[k].value <= b
  {
    if xs == [] then 0.0
    else
      var b' := UpperBound(xs[..|xs| - 1]);
      assert forall k :: 0 <= k < |xs| - 1 ==> xs[..|xs| - 1][k] == xs[k];
      if xs[|xs| - 1].Some? then Max2(b', xs[|xs| - 1].value) else b'
  }

  /** Smoothing a series of non-negative values gives non-negative values. */
  lemma EwmNonNegative(xs: seq<Option<real>>, alpha: real)
    requires ValidAlpha(alpha)
    requires forall k :: 0 <= k < |xs| && xs[k].Some? ==> xs[k].value >= 0.0
    ensures forall i :: 0 <= i < |xs| && Ewm(xs, alpha)[i].Some? ==> Ewm(xs, alpha)[i].value >= 0.0
  {
    EwmWithin(xs, alpha, 0.0, UpperBound(xs));
  }

  // ---------------------------------------------------------------- EMA

  /** `Close.ewm(span=span, adjust=False).mean()`. */
  function Ema(closes: seq<real>, span: real): (r: seq<Option<real>>)
    requires span >= 1.0
    ensures |r| == |closes|
  {
    Ewm(Defined(closes), SpanAlpha(span))
  }

  /** The EMA is defined at every bar and lies between the lowest and highest close seen so far. */
  lemma EmaWithinCloses(closes: seq<real>, span: real, i: nat)
    requires span >= 1.0 && i < |closes|
    ensures Ema(closes, span)[i].Some?
    ensures Min(closes[..i + 1]) <= Ema(closes, span)[i].value <= Max(closes[..i + 1])
  {
    var xs := Defined(closes);
    var alpha := SpanAlpha(span);
    var p := xs[..i + 1];
    var c := closes[..i + 1];
    assert forall k :: 0 <= k < |p| ==> p[k] == Some(c[k]);
    assert Within(p, Min(c), Max(c));
    MeanWithin(p, alpha, Min(c), Max(c));
    EwmDefinedIff(xs, alpha, i);
    assert xs[0].Some?;
  }

  /** The EMA is seeded with the first close and then follows
      y_i = y_(i-1) + alpha * (close_i - y_(i-1)) with alpha = 2 / (span + 1). */
  lemma EmaRecurrence(closes: seq<real>, span: real, i: nat)
    requires span >= 1.0 && i < |closes|
    ensures Ema(closes, span)[i].Some?
    ensures i == 0 ==> Ema(closes, span)[0].value == closes[0]
    ensures i > 0 ==>
      && Ema(closes, span)[i - 1].Some?
      && Recurs(Ema(closes, span)[i - 1].value, closes[i], SpanAlpha(span), Ema(closes, span)[i].value)
  {
    var xs := Defined(closes);
    assert forall k :: 0 <= k < |xs| ==> xs[k] == Some(closes[k]);
    EwmRecurrence(xs, SpanAlpha(span), i);
  }

  /** A constant close series gives a constant EMA. */
  lemma EmaOfConstant(closes: seq<real>, span: real, c: real)
    requires span >= 1.0
    requires forall k :: 0 <= k < |closes| ==> closes[k] == c
    ensures forall i :: 0 <= i < |closes| ==> Ema(closes, span)[i] == Some(c)
  {
    forall i | 0 <= i < |closes| ensures Ema(closes, span)[i] == Some(c) {
      EmaWithinCloses(closes, span, i);
    }
  }

  // ---------------------------------------------------------------- RSI

  /** Day-over-day rises of the close; the first bar has no predecessor and counts as 0. */
  function Gains(closes: seq<real>): (g: seq<real>)
    ensures |g| == |closes|
  {
    seq(|closes|, t requires 0 <= t < |closes| =>
      if t == 0 then 0.0
      else var d := closes[t] - closes[t - 1]; if d > 0.0 then d else 0.0)
  }

  /** Day-over-day falls of the close, as positive amounts. */
  function Losses(closes: seq<real>): (l: seq<real>)
    ensures |l| == |closes|
  {
    seq(|closes|, t requires 0 <= t < |closes| =>
      if t == 0 then 0.0
      else var d := closes[t] - closes[t - 1]; if d < 0.0 then -d else 0.0)
  }

  /** Gains and losses are non-negative, at most one of them is positive, and
      together they recover the change of the close. */
  lemma GainsAndLosses(closes: seq<real>, t: nat)
    requires t < |closes|
    ensures Gains(closes)[t] >= 0.0 && Losses(closes)[t] >= 0.0
    ensures !(Gains(closes)[t] > 0.0 && Losses(closes)[t] > 0.0)
    ensures t > 0 ==> Gains(closes)[t] - Losses(closes)[t] == closes[t] - closes[t - 1]
  {
  }

  /** `np.where(avg_loss == 0, 100, 100 - 100 / (1 + avg_gain / avg_loss))` for one bar. */
  function RsiValue(avgGain: Option<real>, avgLoss: Option<real>): (r: Option<real>)
    requires avgGain.Some? ==> avgGain.value >= 0.0
    requires avgLoss.Some? ==> avgLoss.value >= 0.0
    ensures avgLoss == Some(0.0) ==> r == Some(100.0)
    ensures avgGain.Some? && avgLoss.Some? ==> r.Some?
    ensures r.Some? ==> 0.0 <= r.value <= 100.0
  {
    if avgLoss == Some(0.0) then Some(100.0)
    else if avgGain.Some? && avgLoss.Some? then
      var rs := avgGain.value / avgLoss.value;
      assert rs >= 0.0;
      assert 100.0 / (1.0 + rs) <= 100.0 by {
        assert 100.0 / (1.0 + rs) * (1.0 + rs) == 100.0;
      }
      Some(100.0 - 100.0 / (1.0 + rs))
    else None
  }

  function AvgGain(closes: seq<real>, period: real): (r: seq<Option<real>>)
    requires period >= 1.0
    ensures |r| == |closes|
    ensures forall t :: 0 <= t < |closes| ==> r[t].Some? && r[t].value >= 0.0
  {
    var xs := Defined(Gains(closes));
    var r := Ewm(xs, WilderAlpha(period));
    EwmNonNegative(xs, WilderAlpha(period));
    forall t | 0 <= t < |closes| ensures r[t].Some? { EwmDefinedIff(xs, WilderAlpha(period), t); assert xs[0].Some?; }
    r
  }

  function AvgLoss(closes: seq<real>, period: real): (r: seq<Option<real>>)
    requires period >= 1.0
    ensures |r| == |closes|
    ensures forall t :: 0 <= t < |closes| ==> r[t].Some? && r[t].value >= 0.0
  {
    var xs := Defined(Losses(closes));
    var r := Ewm(xs, WilderAlpha(period));
    EwmNonNegative(xs, WilderAlpha(period));
    forall t | 0 <= t < |closes| ensures r[t].Some? { EwmDefinedIff(xs, WilderAlpha(period), t); assert xs[0].Some?; }
    r
  }

  /** Wilder's RSI over `period` bars: defined at every bar and always within [0, 100]. */
  function Rsi(closes: seq<real>, period: real): (r: seq<Option<real>>)
    requires period >= 1.0
    ensures |r| == |closes|
    ensures forall t :: 0 <= t < |closes| ==> r[t].Some? && 0.0 <= r[t].value <= 100.0
  {
    var ag := AvgGain(closes, period);
    var al := AvgLoss(closes, period);
    seq(|closes|, t requires 0 <= t < |closes| => RsiValue(ag[t], al[t]))
  }

  /** With no falling close up to bar `t` the average loss is zero, so the RSI
      is exactly 100 there (a flat series included). */
  lemma RsiWithoutLosses(closes: seq<real>, period: real, t: nat)
    requires period >= 1.0 && t < |closes|
    requires forall k :: 0 < k <= t ==> closes[k - 1] <= closes[k]
    ensures Rsi(closes, period)[t] == Some(100.0)
  {
    var xs := Defined(Losses(closes));
    var p := xs[..t + 1];
    assert Within(p, 0.0, 0.0);
    MeanWithin(p, WilderAlpha(period), 0.0, 0.0);
    assert AvgLoss(closes, period)[t] == Some(0.0);
  }

  // ---------------------------------------------------------------- ATR

  /** True range: the bar's range widened to the previous close; the first bar,
      which has no previous close, keeps its plain range. */
  function TrueRange(bars: seq<Bar>): (tr: seq<real>)
    ensures |tr| == |bars|
  {
    seq(|bars|, t requires 0 <= t < |bars| =>
      var b := bars[t];
      if t == 0 then b.high - b.low
      else Max2(Max2(b.high - b.low, Abs(b.high - bars[t - 1].close)), Abs(b.low - bars[t - 1].close)))
  }

  /** The true range is the largest of the three candidate ranges, so it is at least High - Low. */
  lemma TrueRangeIsLargest(bars: seq<Bar>, t: nat)
    requires t < |bars|
    ensures TrueRange(bars)[t] >= bars[t].high - bars[t].low
    ensures t > 0 ==>
      var c := bars[t - 1].close;
      && TrueRange(bars)[t] >= Abs(bars[t].high - c)
      && TrueRange(bars)[t] >= Abs(bars[t].low - c)
      && TrueRange(bars)[t] >= 0.0
      && (TrueRange(bars)[t] == bars[t].high - bars[t].low
          || TrueRange(bars)[t] == Abs(bars[t].high - c)
          || TrueRange(bars)[t] == Abs(bars[t].low - c))
  {
  }

  /** `ATR_14`: the true range smoothed with `ewm(span=span)`. */
  function Atr(bars: seq<Bar>, span: real): (r: seq<Option<real>>)
    requires span >= 1.0
    ensures |r| == |bars|
  {
    Ewm(Defined(TrueRange(bars)), SpanAlpha(span))
  }

  // ---------------------------------------------------------------- ADX

  /** +DM: the rise of the high when it beats the fall of the low, clipped at zero. */
  function PlusDM(bars: seq<Bar>): (dm: seq<real>)
    ensures |dm| == |bars|
  {
    seq(|bars|, t requires 0 <= t < |bars| =>
      if t == 0 then 0.0
      else
        var up := bars[t].high - bars[t - 1].high;
        var down := bars[t - 1].low - bars[t].low;
        var raw := if up > down then up else 0.0;
        if raw < 0.0 then 0.0 else raw)
  }

  /** -DM: the fall of the low when it beats the rise of the high, clipped at zero. */
  function MinusDM(bars: seq<Bar>): (dm: seq<real>)
    ensures |dm| == |bars|
  {
    seq(|bars|, t requires 0 <= t < |bars| =>
      if t == 0 then 0.0
      else
        var up := bars[t].high - bars[t - 1].high;
        var down := bars[t - 1].low - bars[t].low;
        var raw := if down > up then down else 0.0;
        if raw < 0.0 then 0.0 else raw)
  }

  /** Both directional movements are non-negative and never both positive; a
      positive one is the dominant move itself. */
  lemma DirectionalMovement(bars: seq<Bar>, t: nat)
    requires t < |bars|
    ensures PlusDM(bars)[t] >= 0.0 && MinusDM(bars)[t] >= 0.0
    ensures !(PlusDM(bars)[t] > 0.0 && MinusDM(bars)[t] > 0.0)
    ensures PlusDM(bars)[t] > 0.0 ==> t > 0 && PlusDM(bars)[t] == bars[t].high - bars[t - 1].high
    ensures MinusDM(bars)[t] > 0.0 ==> t > 0 && MinusDM(bars)[t] == bars[t - 1].low - bars[t].low
  {
  }

  /** `100 * num / den`, undefined when an operand is undefined or the denominator is zero. */
  function Percent(num: Option<real>, den: Option<real>): (r: Option<real>)
  {
    if num.Some? && den.Some? && den.value != 0.0 then Some(100.0 * num.value / den.value) else None
  }

  /** DX = 100 * |+DI - -DI| / (+DI + -DI), undefined on a zero sum. */
  function Dx(plusDI: Option<real>, minusDI: Option<real>): (r: Option<real>)
  {
    if plusDI.Some? && minusDI.Some? && plusDI.value + minusDI.value != 0.0 then
      Some(100.0 * Abs(plusDI.value - minusDI.value) / (plusDI.value + minusDI.value))
    else None
  }

  /** The DX series of `_calculate_adx`, built from smoothed true range and directional movement. */
  function DxSeries(bars: seq<Bar>, span: real): (r: seq<Option<real>>)
    requires span >= 1.0
    ensures |r| == |bars|
  {
    var alpha := SpanAlpha(span);
    var atr := Ewm(Defined(TrueRange(bars)), alpha);
    var plus := Ewm(Defined(PlusDM(bars)), alpha);
    var minus := Ewm(Defined(MinusDM(bars)), alpha);
    seq(|bars|, t requires 0 <= t < |bars| => Dx(Percent(plus[t], atr[t]), Percent(minus[t], atr[t])))
  }

  /** `ADX_14`: DX smoothed with the same span; undefined until the first defined DX. */
  function Adx(bars: seq<Bar>, span: real): (r: seq<Option<real>>)
    requires span >= 1.0
    ensures |r| == |bars|
  {
    Ewm(DxSeries(bars, span), SpanAlpha(span))
  }

  lemma DxBounded(p: real, m: real)
    requires p >= 0.0 && m >= 0.0 && p + m != 0.0
    ensures 0.0 <= 100.0 * Abs(p - m) / (p + m) <= 100.0
  {
    var q := 100.0 * Abs(p - m) / (p + m);
    assert q * (p + m) == 100.0 * Abs(p - m);
  }

  /** On well-formed bars the smoothed true range and both smoothed directional
      movements are never negative. */
  lemma SmoothedInputsNonNegative(bars: seq<Bar>, alpha: real)
    requires ValidAlpha(alpha) && WellFormed(bars)
    ensures forall t :: 0 <= t < |bars| ==>
      && Ewm(Defined(TrueRange(bars)), alpha)[t].Some?
      && Ewm(Defined(TrueRange(bars)), alpha)[t].value >= 0.0
      && Ewm(Defined(PlusDM(bars)), alpha)[t].Some?
      && Ewm(Defined(PlusDM(bars)), alpha)[t].value >= 0.0
      && Ewm(Defined(MinusDM(bars)), alpha)[t].Some?
      && Ewm(Defined(MinusDM(bars)), alpha)[t].value >= 0.0
  {
    var tr := Defined(TrueRange(bars));
    var plus := Defined(PlusDM(bars));
    var minus := Defined(MinusDM(bars));
    forall k | 0 <= k < |bars| ensures tr[k].value >= 0.0 && plus[k].value >= 0.0 && minus[k].value >= 0.0 {
      TrueRangeIsLargest(bars, k);
      DirectionalMovement(bars, k);
    }
    EwmNonNegative(tr, alpha);
    EwmNonNegative(plus, alpha);
    EwmNonNegative(minus, alpha);
    forall t | 0 <= t < |bars|
      ensures Ewm(tr, alpha)[t].Some? && Ewm(plus, alpha)[t].Some? && Ewm(minus, alpha)[t].Some?
    {
      EwmDefinedIff(tr, alpha, t);
      EwmDefinedIff(plus, alpha, t);
      EwmDefinedIff(minus, alpha, t);
      assert tr[0].Some? && plus[0].Some? && minus[0].Some?;
    }
  }

  /** DX of two non-negative indices is a percentage. */
  lemma DxOfNonNegative(plus: Option<real>, minus: Option<real>, atr: Option<real>)
    requires plus.Some? ==> plus.value >= 0.0
    requires minus.Some? ==> minus.value >= 0.0
    requires atr.Some? ==> atr.value >= 0.0
    ensures Dx(Percent(plus, atr), Percent(minus, atr)).Some? ==>
      0.0 <= Dx(Percent(plus, atr), Percent(minus, atr)).value <= 100.0
  {
    var p := Percent(plus, atr);
    var m := Percent(minus, atr);
    if Dx(p, m).Some? {
      var a := atr.value;
      assert a > 0.0;
      assert p.value >= 0.0 by { assert p.value * a == 100.0 * plus.value; }
      assert m.value >= 0.0 by { assert m.value * a == 100.0 * minus.value; }
      DxBounded(p.value, m.value);
    }
  }

  /** On well-formed bars every defined DX, hence every defined ADX, lies in [0, 100]. */
  lemma AdxBounded(bars: seq<Bar>, span: real)
    requires span >= 1.0 && WellFormed(bars)
    ensures forall t :: 0 <= t < |bars| && Adx(bars, span)[t].Some? ==>
      0.0 <= Adx(bars, span)[t].value <= 100.0
  {
    var alpha := SpanAlpha(span);
    SmoothedInputsNonNegative(bars, alpha);
    var dx := DxSeries(bars, span);
    forall t | 0 <= t < |bars| && dx[t].Some? ensures 0.0 <= dx[t].value <= 100.0 {
      DxOfNonNegative(Ewm(Defined(PlusDM(bars)), alpha)[t], Ewm(Defined(MinusDM(bars)), alpha)[t],
                      Ewm(Defined(TrueRange(bars)), alpha)[t]);
    }
    EwmWithin(dx, alpha, 0.0, 100.0);
  }

  // ---------------------------------------------------------------- volume, VWAP, breakout

  /** `Volume.rolling(window).mean()`. */
  function VolumeAverage(bars: seq<Bar>, window: nat): (r: seq<Option<real>>)
    ensures |r| == |bars|
  {
    RollingMean(Volumes(bars), window)
  }

  function TypicalPrice(b: Bar): real { (b.close + b.high + b.low) / 3.0 }

  function TypicalPriceVolume(bars: seq<Bar>): (s: seq<real>)
    ensures |s| == |bars| && forall t :: 0 <= t < |bars| ==> s[t] == TypicalPrice(bars[t]) * bars[t].volume
  {
    seq(|bars|, t requires 0 <= t < |bars| => TypicalPrice(bars[t]) * bars[t].volume)
  }

  /** Rolling VWAP: the rolling sum of typical price times volume over the
      rolling sum of volume; undefined before a full window and on a zero volume sum. */
  function Vwap(bars: seq<Bar>, window: nat): (r: seq<Option<real>>)
    ensures |r| == |bars|
  {
    var pv := TypicalPriceVolume(bars);
    var v := Volumes(bars);
    seq(|bars|, t requires 0 <= t < |bars| =>
      if t + 1 < window then None
      else
        var den := Sum(WindowAt(v, t, window));
        if den == 0.0 then None else Some(Sum(WindowAt(pv, t, window)) / den))
  }

  /** `term` lies between lo and hi times `weight`. */
  predicate Scaled(weight: real, term: real, lo: real, hi: real)
  {
    lo * weight <= term <= hi * weight
  }

  lemma BoundStep(volumes: real, weighted: real, v: real, w: real, lo: real, hi: real, total: real, totalWeighted: real)
    requires Scaled(volumes, weighted, lo, hi) && Scaled(v, w, lo, hi)
    requires total == volumes + v && totalWeighted == weighted + w
    ensures Scaled(total, totalWeighted, lo, hi)
  {
  }

  /** The weight of one bar lies between lo and hi times its volume. */
  lemma WeightedBetween(b: Bar, lo: real, hi: real)
    requires b.volume >= 0.0 && lo <= TypicalPrice(b) <= hi
    ensures lo * b.volume <= TypicalPrice(b) * b.volume <= hi * b.volume
  {
    NonNegativeProduct(TypicalPrice(b) - lo, b.volume);
    NonNegativeProduct(hi - TypicalPrice(b), b.volume);
  }

  /** If every weighted term lies between lo and hi times its weight, so does the
      sum of the terms against the sum of the weights. */
  lemma {:induction false} ScaledSumBounds(weights: seq<real>, terms: seq<real>, lo: real, hi: real)
    requires |weights| == |terms|
    requires forall k :: 0 <= k < |terms| ==> Scaled(weights[k], terms[k], lo, hi)
    ensures Scaled(Sum(weights), Sum(terms), lo, hi)
  {
    if terms != [] {
      var n := |terms| - 1;
      ScaledSumBounds(weights[..n], terms[..n], lo, hi);
      BoundStep(Sum(weights[..n]), Sum(terms[..n]), weights[n], terms[n], lo, hi, Sum(weights), Sum(terms));
    }
  }

  /** Over bars with non-negative volume whose typical prices lie in [lo, hi], the
      volume-weighted sum lies between lo and hi times the volume sum. */
  lemma WeightedSumBounds(ws: seq<Bar>, lo: real, hi: real)
    requires forall k :: 0 <= k < |ws| ==> ws[k].volume >= 0.0 && lo <= TypicalPrice(ws[k]) <= hi
    ensures Scaled(Sum(Volumes(ws)), Sum(TypicalPriceVolume(ws)), lo, hi)
  {
    forall k | 0 <= k < |ws|
      ensures Scaled(Volumes(ws)[k], TypicalPriceVolume(ws)[k], lo, hi)
    {
      WeightedBetween(ws[k], lo, hi);
    }
    ScaledSumBounds(Volumes(ws), TypicalPriceVolume(ws), lo, hi);
  }

  lemma PositiveProduct(a: real, b: real)
    requires a > 0.0 && b > 0.0
    ensures a * b > 0.0
  {
  }

  lemma RatioWithin(num: real, den: real, lo: real, hi: real)
    requires den > 0.0 && Scaled(den, num, lo, hi)
    ensures lo <= num / den <= hi
  {
    var q := num / den;
    assert q * den == num;
    if q < lo {
      PositiveProduct(lo - q, den);
    }
    if q > hi {
      PositiveProduct(q - hi, den);
    }
  }

  /** Taking volumes commutes with slicing the bars. */
  lemma VolumesOfSlice(bars: seq<Bar>, lo: nat, hi: nat)
    requires lo <= hi <= |bars|
    ensures Volumes(bars)[lo..hi] == Volumes(bars[lo..hi])
  {
    var ws := bars[lo..hi];
    forall k | 0 <= k < |ws|
      ensures Volumes(bars)[lo..hi][k] == Volumes(ws)[k]
    {
      assert ws[k] == bars[lo + k];
    }
  }

  /** Taking price-volume products commutes with slicing the bars. */
  lemma TypicalPriceVolumeOfSlice(bars: seq<Bar>, lo: nat, hi: nat)
    requires lo <= hi <= |bars|
    ensures TypicalPriceVolume(bars)[lo..hi] == TypicalPriceVolume(bars[lo..hi])
  {
    var ws := bars[lo..hi];
    forall k | 0 <= k < |ws|
      ensures TypicalPriceVolume(bars)[lo..hi][k] == TypicalPriceVolume(ws)[k]
    {
      assert ws[k] == bars[lo + k];
    }
  }

  /** The VWAP of a defined row is the weighted sum over the volume sum of its window. */
  lemma VwapOfWindow(bars: seq<Bar>, window: nat, t: nat)
    requires t < |bars| && Vwap(bars, window)[t].Some?
    ensures window <= t + 1
    ensures var ws := bars[t + 1 - window..t + 1];
      && Sum(Volumes(ws)) != 0.0
      && Vwap(bars, window)[t].value == Sum(TypicalPriceVolume(ws)) / Sum(Volumes(ws))
  {
    VolumesOfSlice(bars, t + 1 - window, t + 1);
    TypicalPriceVolumeOfSlice(bars, t + 1 - window, t + 1);
  }

  /** With non-negative volumes, the VWAP of a row lies within the typical prices of
      the bars of its window. */
  lemma VwapWithinTypicalPrices(bars: seq<Bar>, window: nat, t: nat, lo: real, hi: real)
    requires t < |bars| && Vwap(bars, window)[t].Some?
    requires forall k :: t + 1 - window <= k <= t && 0 <= k ==>
      bars[k].volume >= 0.0 && lo <= TypicalPrice(bars[k]) <= hi
    ensures lo <= Vwap(bars, window)[t].value <= hi
  {
    VwapOfWindow(bars, window, t);
    var ws := bars[t + 1 - window..t + 1];
    forall k | 0 <= k < |ws|
      ensures ws[k].volume >= 0.0 && lo <= TypicalPrice(ws[k]) <= hi
    {
      assert ws[k] == bars[t + 1 - window + k];
    }
    WeightedSumBounds(ws, lo, hi);
    var num, den := Sum(TypicalPriceVolume(ws)), Sum(Volumes(ws));
    SumNonNegative(Volumes(ws));
    RatioWithin(num, den, lo, hi);
  }

  /** `Close > Close.shift(1).rolling(252).max()`: the rolling maximum is undefined
      for the first 252 bars, so the flag is false there. */
  function Breakout(closes: seq<real>): (b: seq<bool>)
    ensures |b| == |closes|
  {
    seq(|closes|, t requires 0 <= t < |closes| =>
      t >= YearBars && closes[t] > Max(closes[t - YearBars..t]))
  }

  /** A 52-week breakout is a close strictly above each of the 252 closes before it. */
  lemma BreakoutIff(closes: seq<real>, t: nat)
    requires t < |closes|
    ensures Breakout(closes)[t] <==>
      t >= YearBars && forall k :: t - YearBars <= k < t ==> closes[t] > closes[k]
  {
    if t >= YearBars {
      var w := closes[t - YearBars..t];
      assert forall k :: t - YearBars <= k < t ==> closes[k] == w[k - (t - YearBars)];
    }
  }
}
