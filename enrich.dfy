/** `add_all_indicators`: the enrichment of one symbol's bars with every indicator
    column, followed by dropping the rows whose key indicators are undefined. */
module Enrich {
  import opened Wrappers
  import opened Windows
  import opened Smoothing
  import opened Bars
  import opened Indicators
  import opened Cpr
  import opened Candles

  /** A rule-parameter map as loaded from the configuration. */
  type Rules = map<string, real>

  /** What the source raises on a bad configuration: a `KeyError` for a missing key
      or column, a `ValueError` from pandas for an unusable span or window. */
  datatype ConfigError = MissingKey(key: string) | BadParameter(key: string) | MissingColumn(period: real)

  /** A smoothing span or Wilder period: pandas rejects a span below 1 and a
      centre of mass (period - 1) below 0, which is the same bound. */
  function SmoothingParam(rules: Rules, key: string): (r: Result<real, ConfigError>)
    ensures r.Success? <==> key in rules && rules[key] >= 1.0
    ensures r.Success? ==> r.value == rules[key]
    ensures r.Failure? ==> r.error == (if key in rules then BadParameter(key) else MissingKey(key))
  {
    if key !in rules then Failure(MissingKey(key))
    else if rules[key] < 1.0 then Failure(BadParameter(key))
    else Success(rules[key])
  }

  predicate IsWindow(x: real) { x >= 0.0 && x == x.Floor as real }

  /** A rolling window: a whole number of rows, 0 or more. */
  function WindowParam(rules: Rules, key: string, default: Option<real>): (r: Result<nat, ConfigError>)
    ensures var v := if key in rules then Some(rules[key]) else default;
      && (r.Success? <==> v.Some? && IsWindow(v.value))
      && (r.Success? ==> r.value as real == v.value)
      && (r.Failure? ==> r.error == (if v.None? then MissingKey(key) else BadParameter(key)))
  {
    var v := if key in rules then Some(rules[key]) else default;
    if v.None? then Failure(MissingKey(key))
    else if !IsWindow(v.value) then Failure(BadParameter(key))
    else Success(v.value.Floor)
  }

  /** The parameters `add_all_indicators` reads, with the value that names the
      `Volume_Avg_<period>` column. */
  datatype Params = Params(fastSpan: real, midSpan: real, slowSpan: real, rsiPeriod: real,
                           volumeWindow: nat, volumeAvgLabel: real, adxSpan: real, vwapWindow: nat)

  predicate ValidParams(p: Params)
  {
    && p.fastSpan >= 1.0 && p.midSpan >= 1.0 && p.slowSpan >= 1.0
    && p.rsiPeriod >= 1.0 && p.adxSpan >= 1.0
    && p.volumeAvgLabel == p.volumeWindow as real
  }

  /** The keys read, in the order the source reads them (`poc_period` defaults to 60). */
  function ReadParams(swing: Rules, momentum: Rules): (r: Result<Params, ConfigError>)
    ensures r.Success? <==> ParamsReady(swing, momentum)
    ensures r.Success? ==> ValidParams(r.value)
    ensures r.Success? ==>
      && ParamsReady(swing, momentum)
      && r.value.fastSpan == momentum["ema_period_1"]
      && r.value.midSpan == swing["ema_period_1"]
      && r.value.slowSpan == swing["ema_period_2"]
      && r.value.rsiPeriod == swing["rsi_period"]
      && r.value.volumeAvgLabel == swing["volume_avg_period"]
      && r.value.adxSpan == swing["adx_period"]
      && r.value.vwapWindow as real == (if "poc_period" in swing then swing["poc_period"] else 60.0)
  {
    var fast :- SmoothingParam(momentum, "ema_period_1");
    var mid :- SmoothingParam(swing, "ema_period_1");
    var slow :- SmoothingParam(swing, "ema_period_2");
    var rsi :- SmoothingParam(swing, "rsi_period");
    var vol :- WindowParam(swing, "volume_avg_period", None);
    var adx :- SmoothingParam(swing, "adx_period");
    var poc :- WindowParam(swing, "poc_period", Some(60.0));
    Success(Params(fast, mid, slow, rsi, vol, vol as real, adx, poc))
  }

  /** Every key `add_all_indicators` needs is present and usable. */
  predicate ParamsReady(swing: Rules, momentum: Rules)
  {
    && "ema_period_1" in momentum && momentum["ema_period_1"] >= 1.0
    && "ema_period_1" in swing && swing["ema_period_1"] >= 1.0
    && "ema_period_2" in swing && swing["ema_period_2"] >= 1.0
    && "rsi_period" in swing && swing["rsi_period"] >= 1.0
    && "volume_avg_period" in swing && IsWindow(swing["volume_avg_period"])
    && "adx_period" in swing && swing["adx_period"] >= 1.0
    && ("poc_period" in swing ==> IsWindow(swing["poc_period"]))
  }

  /** One row of the enriched frame. */
  datatype Row = Row(
    bar: Bar,
    ema20: Option<real>, ema50: Option<real>, ema200: Option<real>,
    rsi14: Option<real>,
    volumeAvgLabel: real, volumeAvg: Option<real>,
    atr14: Option<real>, adx14: Option<real>,
    topCpr: Option<real>, bottomCpr: Option<real>, narrowCpr: bool,
    weeklyTopCpr: Option<real>, narrowWeeklyCpr: bool,
    vwap60: Option<real>,
    pattern: Pattern,
    breakout52w: bool,
    deliveryPerc: real)

  /** `EMA_200`, `RSI_14`, `VWAP_60` and `ADX_14` are all defined. */
  predicate KeyDefined(r: Row)
  {
    r.ema200.Some? && r.rsi14.Some? && r.vwap60.Some? && r.adx14.Some?
  }

  /** The indicator columns, in the order `add_all_indicators` adds them. */
  datatype Columns = Columns(
    ema20: seq<Option<real>>, ema50: seq<Option<real>>, ema200: seq<Option<real>>,
    rsi: seq<Option<real>>, volumeAvg: seq<Option<real>>, atr: seq<Option<real>>,
    adx: seq<Option<real>>, monthly: Band, weekly: seq<Band>, vwap: seq<Option<real>>,
    patterns: seq<Pattern>, breakout: seq<bool>)

  predicate ColumnsFit(c: Columns, n: nat)
  {
    && |c.ema20| == n && |c.ema50| == n && |c.ema200| == n && |c.rsi| == n
    && |c.volumeAvg| == n && |c.atr| == n && |c.adx| == n && |c.weekly| == n
    && |c.vwap| == n && |c.patterns| == n && |c.breakout| == n
  }

  function IndicatorColumns(bars: seq<Bar>, p: Params): (c: Columns)
    requires |bars| > 0 && ValidParams(p)
    ensures ColumnsFit(c, |bars|)
  {
    var closes := Closes(bars);
    var atr := Atr(bars, 14.0);
    Columns(Ema(closes, p.fastSpan), Ema(closes, p.midSpan), Ema(closes, p.slowSpan),
            Rsi(closes, p.rsiPeriod), VolumeAverage(bars, p.volumeWindow), atr,
            Adx(bars, p.adxSpan), MonthlyCpr(bars), WeeklyCpr(bars), Vwap(bars, p.vwapWindow),
            seq(|bars|, t requires 0 <= t < |bars| => Classify(bars, Some(atr), t)),
            Breakout(closes))
  }

  /** The frame as rows; the monthly band and the delivery percentage are the same on every row. */
  function Assemble(bars: seq<Bar>, c: Columns, volumeAvgLabel: real, delivery: real): (rows: seq<Row>)
    requires ColumnsFit(c, |bars|)
    ensures |rows| == |bars|
    ensures forall t :: 0 <= t < |bars| ==> rows[t].bar == bars[t]
  {
    seq(|bars|, t requires 0 <= t < |bars| =>
      Row(bars[t], c.ema20[t], c.ema50[t], c.ema200[t], c.rsi[t], volumeAvgLabel, c.volumeAvg[t],
          c.atr[t], c.adx[t], c.monthly.top, c.monthly.bottom, c.monthly.narrow,
          c.weekly[t].top, c.weekly[t].narrow, c.vwap[t], c.patterns[t], c.breakout[t], delivery))
  }

  /** Every row of the frame before the rows are dropped. */
  function AllRows(bars: seq<Bar>, p: Params, delivery: real): (rows: seq<Row>)
    requires |bars| > 0 && ValidParams(p)
    ensures |rows| == |bars|
    ensures forall t :: 0 <= t < |bars| ==> rows[t].bar == bars[t]
  {
    Assemble(bars, IndicatorColumns(bars, p), p.volumeAvgLabel, delivery)
  }

  /** `dropna(subset=[...]).reset_index(drop=True)`. */
  function DropUndefined(rows: seq<Row>): seq<Row>
  {
    if rows == [] then []
    else
      var last := rows[|rows| - 1];
      DropUndefined(rows[..|rows| - 1]) + (if KeyDefined(last) then [last] else [])
  }

  /** The positions of the rows that `DropUndefined` keeps, in increasing order. */
  function KeptIndices(rows: seq<Row>): seq<nat>
  {
    if rows == [] then []
    else
      var n := |rows| - 1;
      KeptIndices(rows[..n]) + (if KeyDefined(rows[n]) then [n] else [])
  }

  /** The kept rows are exactly the rows with every key indicator defined, in their original order. */
  lemma {:induction false} DropUndefinedSpec(rows: seq<Row>)
    ensures var kept := DropUndefined(rows);
      var idx := KeptIndices(rows);
      && |kept| == |idx|
      && (forall k :: 0 <= k < |idx| ==> idx[k] < |rows| && kept[k] == rows[idx[k]])
      && (forall k, l :: 0 <= k < l < |idx| ==> idx[k] < idx[l])
      && (forall i :: 0 <= i < |rows| ==> (i in idx <==> KeyDefined(rows[i])))
  {
    if rows != [] {
      var n := |rows| - 1;
      var init := rows[..n];
      DropUndefinedSpec(init);
      var extra := if KeyDefined(rows[n]) then [n] else [];
      assert DropUndefined(rows) == DropUndefined(init) + (if KeyDefined(rows[n]) then [rows[n]] else []);
      assert KeptIndices(rows) == KeptIndices(init) + extra;
      assert forall i :: 0 <= i < n ==> init[i] == rows[i];
      assert forall i :: i in KeptIndices(rows) <==> i in KeptIndices(init) || i in extra;
    }
  }

  /** The row filter of `dropna`, one row at a time. */
  method DropUndefinedRows(all: seq<Row>) returns (kept: seq<Row>)
    ensures kept == DropUndefined(all)
  {
    kept := [];
    for t := 0 to |all|
      invariant kept == DropUndefined(all[..t])
    {
      assert all[..t + 1][..t] == all[..t];
      if KeyDefined(all[t]) {
        kept := kept + [all[t]];
      }
    }
    assert all[..|all|] == all;
  }

  datatype Enrichment = NoResult | ConfigFailure(error: ConfigError) | Enriched(rows: seq<Row>)

  /** `add_all_indicators`: declines absent or short histories, raises on a bad
      configuration, and otherwise adds the indicator columns one after the other
      and keeps the rows whose key indicators are defined. */
  method AddAllIndicators(data: Option<seq<Bar>>, swing: Rules, momentum: Rules, delivery: real)
    returns (r: Enrichment)
    ensures data.None? || |data.value| < YearBars ==> r == NoResult
    ensures data.Some? && |data.value| >= YearBars ==>
      match ReadParams(swing, momentum)
      case Failure(e) => r == ConfigFailure(e)
      case Success(p) => r == Enriched(DropUndefined(AllRows(data.value, p, delivery)))
  {
    if data.None? || |data.value| < YearBars {
      return NoResult;
    }
    var bars := data.value;
    var read := ReadParams(swing, momentum);
    if read.Failure? {
      return ConfigFailure(read.error);
    }
    var p := read.value;
    var cols := ComputeColumns(bars, p);
    var all := Assemble(bars, cols, p.volumeAvgLabel, delivery);
    var kept := DropUndefinedRows(all);
    return Enriched(kept);
  }

  /** The indicator columns, added one after the other as `add_all_indicators` does. */
  method ComputeColumns(bars: seq<Bar>, p: Params) returns (cols: Columns)
    requires |bars| > 0 && ValidParams(p)
    ensures cols == IndicatorColumns(bars, p)
  {
    var n := |bars|;
    var closes := Closes(bars);
    var ema20 := Ema(closes, p.fastSpan);
    var ema50 := Ema(closes, p.midSpan);
    var ema200 := Ema(closes, p.slowSpan);
    var rsi := Rsi(closes, p.rsiPeriod);
    var volAvg := VolumeAverage(bars, p.volumeWindow);
    var atr := Atr(bars, 14.0);
    var adx := Adx(bars, p.adxSpan);
    var monthly := MonthlyCpr(bars);
    var weekly := WeeklyCpr(bars);
    var vwap := Vwap(bars, p.vwapWindow);
    var patterns := DetectCandlestickPatterns(bars, Some(atr));
    var breakout := Breakout(closes);
    assert patterns == seq(n, t requires 0 <= t < n => Classify(bars, Some(atr), t));
    cols := Columns(ema20, ema50, ema200, rsi, volAvg, atr, adx, monthly, weekly, vwap, patterns, breakout);
  }

  /** `EMA_200` and `RSI_14` are defined on every row, so the rows dropped are exactly
      those whose VWAP or ADX is undefined. */
  lemma DroppedForVwapOrAdx(bars: seq<Bar>, p: Params, delivery: real, t: nat)
    requires |bars| > 0 && ValidParams(p) && t < |bars|
    ensures KeyDefined(AllRows(bars, p, delivery)[t]) <==>
      AllRows(bars, p, delivery)[t].vwap60.Some? && AllRows(bars, p, delivery)[t].adx14.Some?
  {
    EmaWithinCloses(Closes(bars), p.slowSpan, t);
  }

  /** The first bar never survives: its directional movement is zero, so its DX and ADX are undefined. */
  lemma FirstRowDropped(bars: seq<Bar>, p: Params, delivery: real)
    requires |bars| > 0 && ValidParams(p)
    ensures !KeyDefined(AllRows(bars, p, delivery)[0])
  {
    var alpha := SpanAlpha(p.adxSpan);
    var plus := Defined(PlusDM(bars));
    var minus := Defined(MinusDM(bars));
    EwmFirst(plus, alpha);
    EwmFirst(minus, alpha);
    var dx := DxSeries(bars, p.adxSpan);
    assert dx[0].None?;
    EwmFirst(dx, alpha);
  }
}
