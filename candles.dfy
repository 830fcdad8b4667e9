/** The candlestick classifier of engine/indicators.py. Each pattern is judged on the
    bars before the row being labelled (the setup) and, for the inside-bar breakout,
    on the row's own close (the confirmation). */
module Candles {
  import opened Wrappers
  import opened Windows
  import opened Bars

  datatype Pattern = NoPattern | BullEngulf | BullHammer | BullInsideBreak

  /** The label as written to the `Candle_Pattern` column. */
  function PatternName(p: Pattern): string
  {
    match p
    case NoPattern => "None"
    case BullEngulf => "BULL_ENGULF"
    case BullHammer => "BULL_HAMMER"
    case BullInsideBreak => "BULL_INSIDE_BREAK"
  }

  /** `num / den >= bound` in floating point: a zero denominator gives +inf for a
      positive numerator and NaN or -inf otherwise. */
  predicate RatioAtLeast(num: real, den: real, bound: real)
  {
    if den == 0.0 then num > 0.0 else num / den >= bound
  }

  /** Bullish engulfing at row `t`: bar t-2 red, bar t-1 green, the body of t-1
      covering that of t-2, whose size is at least 20% of the ATR of bar t-1. */
  predicate Engulfing(bars: seq<Bar>, atr: seq<Option<real>>, t: nat)
    requires t < |bars| && |atr| == |bars|
  {
    t >= 2 &&
    var b2 := bars[t - 2];
    var b1 := bars[t - 1];
    && b2.open > b2.close
    && b1.close > b1.open
    && b1.open <= b2.close && b1.close >= b2.open
    && atr[t - 1].Some? && Abs(b2.close - b2.open) >= 0.2 * atr[t - 1].value
  }

  /** Bullish hammer at row `t`, judged on bar t-1: a body of at most 40% of the range,
      a lower wick of at least twice the body, an upper wick of at most a quarter of
      the body, a close in the top 40% of the range, and a low at or under the lows of
      bars t-2 and t-3. */
  predicate Hammer(bars: seq<Bar>, t: nat)
    requires t < |bars|
  {
    t >= 3 &&
    var b := bars[t - 1];
    var range := b.high - b.low;
    var body := Abs(b.close - b.open);
    var upperWick := b.high - Max2(b.open, b.close);
    var lowerWick := Min2(b.open, b.close) - b.low;
    && body <= 0.4 * range
    && lowerWick >= 2.0 * body
    && upperWick <= 0.25 * body
    && RatioAtLeast(b.close - b.low, range, 0.6)
    && b.low <= Min2(bars[t - 2].low, bars[t - 3].low)
  }

  /** Inside-bar breakout at row `t`: bar t-1 inside the range of bar t-2, and the
      close of row t above the high of bar t-1. */
  predicate InsideBreak(bars: seq<Bar>, t: nat)
    requires t < |bars|
  {
    && t >= 2
    && bars[t - 1].high <= bars[t - 2].high
    && bars[t - 1].low >= bars[t - 2].low
    && bars[t].close > bars[t - 1].high
  }

  /** `ATR_14` absent or with no defined value. */
  predicate NoAtr(atr: Option<seq<Option<real>>>)
  {
    atr.None? || forall k :: 0 <= k < |atr.value| ==> atr.value[k].None?
  }

  /** The reference classifier: the patterns tried from the highest priority down,
      the first that matches wins; no ATR column means no pattern anywhere. */
  function Classify(bars: seq<Bar>, atr: Option<seq<Option<real>>>, t: nat): Pattern
    requires t < |bars| && (atr.Some? ==> |atr.value| == |bars|)
  {
    if NoAtr(atr) then NoPattern
    else if InsideBreak(bars, t) then BullInsideBreak
    else if Hammer(bars, t) then BullHammer
    else if Engulfing(bars, atr.value, t) then BullEngulf
    else NoPattern
  }

  /** The column after the engulfing mask has been applied. */
  function AfterEngulfMask(bars: seq<Bar>, atr: seq<Option<real>>, t: nat): Pattern
    requires t < |bars| && |atr| == |bars|
  {
    if Engulfing(bars, atr, t) then BullEngulf else NoPattern
  }

  /** The column after the hammer mask has been applied over the engulfing one. */
  function AfterHammerMask(bars: seq<Bar>, atr: seq<Option<real>>, t: nat): Pattern
    requires t < |bars| && |atr| == |bars|
  {
    if Hammer(bars, t) then BullHammer else AfterEngulfMask(bars, atr, t)
  }

  /** `_detect_candlestick_patterns`: start from "None" everywhere, then overwrite by
      the engulfing mask, the hammer mask and the inside-break mask, in that order.
      The result is the priority classifier: inside break over hammer over engulfing. */
  method DetectCandlestickPatterns(bars: seq<Bar>, atr: Option<seq<Option<real>>>)
    returns (patterns: seq<Pattern>)
    requires atr.Some? ==> |atr.value| == |bars|
    ensures |patterns| == |bars|
    ensures forall t :: 0 <= t < |bars| ==> patterns[t] == Classify(bars, atr, t)
  {
    var n := |bars|;
    var a := new Pattern[n](_ => NoPattern);
    if NoAtr(atr) {
      return a[..];
    }
    var atrs := atr.value;
    for t := 0 to n
      invariant forall u :: 0 <= u < t ==> a[u] == AfterEngulfMask(bars, atrs, u)
      invariant forall u :: t <= u < n ==> a[u] == NoPattern
    {
      if Engulfing(bars, atrs, t) {
        a[t] := BullEngulf;
      }
    }
    for t := 0 to n
      invariant forall u :: 0 <= u < t ==> a[u] == AfterHammerMask(bars, atrs, u)
      invariant forall u :: t <= u < n ==> a[u] == AfterEngulfMask(bars, atrs, u)
    {
      if Hammer(bars, t) {
        a[t] := BullHammer;
      }
    }
    for t := 0 to n
      invariant forall u :: 0 <= u < t ==> a[u] == Classify(bars, atr, u)
      invariant forall u :: t <= u < n ==> a[u] == AfterHammerMask(bars, atrs, u)
    {
      if InsideBreak(bars, t) {
        a[t] := BullInsideBreak;
      }
    }
    patterns := a[..];
  }
}
