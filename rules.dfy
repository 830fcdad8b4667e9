/** `evaluate_swing_rules` and `evaluate_momentum_rules`: ten ordered checks on the
    latest enriched row against a rule-parameter map. */
module Rules {
  import opened Wrappers
  import opened Texts
  import opened Candles
  import opened Enrich

  /** A value formatted into a display string. */
  datatype Arg = Num(x: Option<real>) | Flag(b: bool) | Word(w: string)

  /** A display string before formatting: its format template and the values
      formatted into it. Only the boolean of a check carries logic. */
  datatype Text = Text(template: string, args: seq<Arg>)

  function Plain(s: string): Text { Text(s, []) }

  /** One signal check: `Criteria`, `SignalBool`, `ThresholdValue`, `CurrentValue`. */
  datatype SignalCheck = SignalCheck(criteria: Text, signal: bool, threshold: Text, current: Text)

  /** `x > y` on possibly undefined values: any comparison with NaN is false. */
  predicate Above(x: Option<real>, y: Option<real>)
  {
    x.Some? && y.Some? && x.value > y.value
  }

  function Times(x: Option<real>, factor: real): Option<real>
  {
    if x.Some? then Some(x.value * factor) else None
  }

  /** The "<n>. " that opens the name of the n-th criterion. */
  function NumberPrefix(n: nat): string { NatText(n) + ". " }

  predicate IsNumbered(check: SignalCheck, n: nat)
  {
    NumberPrefix(n) <= check.criteria.template
  }

  /** Exactly ten checks, the i-th named "i. ...". */
  predicate TenNumbered(checks: seq<SignalCheck>)
  {
    |checks| == 10 && forall i :: 0 <= i < 10 ==> IsNumbered(checks[i], i + 1)
  }

  /** The delivery threshold: `rules.get('delivery_perc_min', default)`. */
  function DeliveryThreshold(rules: Rules, default: real): real
  {
    if "delivery_perc_min" in rules then rules["delivery_perc_min"] else default
  }

  /** The error `evaluate_swing_rules` raises, in the order the source meets them:
      `volume_avg_period` (line 151), `rsi_range_min` and `rsi_range_max` (line 155),
      `volume_factor` and then the `Volume_Avg_<period>` column of the row (line 156),
      and `adx_min` (line 161). */
  function SwingError(row: Row, rules: Rules): (e: Option<ConfigError>)
    ensures e.None? <==>
      && "volume_avg_period" in rules && "rsi_range_min" in rules && "rsi_range_max" in rules
      && "volume_factor" in rules && "adx_min" in rules
      && rules["volume_avg_period"] == row.volumeAvgLabel
  {
    if "volume_avg_period" !in rules then Some(MissingKey("volume_avg_period"))
    else if "rsi_range_min" !in rules then Some(MissingKey("rsi_range_min"))
    else if "rsi_range_max" !in rules then Some(MissingKey("rsi_range_max"))
    else if "volume_factor" !in rules then Some(MissingKey("volume_factor"))
    else if rules["volume_avg_period"] != row.volumeAvgLabel then Some(MissingColumn(rules["volume_avg_period"]))
    else if "adx_min" !in rules then Some(MissingKey("adx_min"))
    else None
  }

  /** The error `evaluate_momentum_rules` raises: `volume_avg_period` (line 174),
      `rsi_min` (line 179), `volume_factor` and then the volume-average column (line 180).
      The column exists only when the momentum rules name the same period as the
      swing rules the row was enriched with. */
  function MomentumError(row: Row, rules: Rules): (e: Option<ConfigError>)
    ensures e.None? <==>
      && "volume_avg_period" in rules && "rsi_min" in rules && "volume_factor" in rules
      && rules["volume_avg_period"] == row.volumeAvgLabel
  {
    if "volume_avg_period" !in rules then Some(MissingKey("volume_avg_period"))
    else if "rsi_min" !in rules then Some(MissingKey("rsi_min"))
    else if "volume_factor" !in rules then Some(MissingKey("volume_factor"))
    else if rules["volume_avg_period"] != row.volumeAvgLabel then Some(MissingColumn(rules["volume_avg_period"]))
    else None
  }

  function VolumeCheck(row: Row, factor: real): SignalCheck
  {
    var needed := Times(row.volumeAvg, factor);
    SignalCheck(Text("x. Volume > {}x Avg", [Num(Some(factor))]), Above(Some(row.bar.volume), needed),
                Text(">{:,.0f}", [Num(needed)]), Text("{:,.0f}", [Num(Some(row.bar.volume))]))
  }

  function Named(c: SignalCheck, name: string): SignalCheck
  {
    c.(criteria := c.criteria.(template := name))
  }

  function CloseAbove(name: string, close: real, level: Option<real>, spaced: bool): SignalCheck
  {
    SignalCheck(Plain(name), Above(Some(close), level),
                Text(if spaced then "> {:.2f}" else ">{:.2f}", [Num(level)]), Text("{:.2f}", [Num(Some(close))]))
  }

  function CprCheck(name: string, close: real, top: Option<real>, narrow: bool): SignalCheck
  {
    SignalCheck(Plain(name), Above(Some(close), top) && narrow,
                Text("> {:.2f} & IsNarrow", [Num(top)]),
                Text("Price={:.2f}, Narrow={}", [Num(Some(close)), Flag(narrow)]))
  }

  function DeliveryCheck(row: Row, threshold: real): SignalCheck
  {
    SignalCheck(Plain("10. High Delivery %"), row.deliveryPerc > threshold,
                Text("> {}%", [Num(Some(threshold))]), Text("{:.2f}%", [Num(Some(row.deliveryPerc))]))
  }

  /** The ten swing checks for the parameters read from the rules: the RSI range
      `lo`..`hi`, the volume factor, the ADX minimum and the delivery threshold. */
  function SwingList(row: Row, lo: real, hi: real, factor: real, adxMin: real, delivery: real): (checks: seq<SignalCheck>)
    ensures |checks| == 10
  {
    var close := row.bar.close;
    [ CloseAbove("1. Price > EMA_50", close, row.ema50, false),
      CloseAbove("2. Price > EMA_200", close, row.ema200, false),
      SignalCheck(Plain("3. RSI in Range (45-60)"), row.rsi14.Some? && lo <= row.rsi14.value <= hi,
                  Text("{}-{}", [Num(Some(lo)), Num(Some(hi))]), Text("{:.2f}", [Num(row.rsi14)])),
      Named(VolumeCheck(row, factor), "4. Volume > {}x Avg"),
      SignalCheck(Plain("5. Bullish Reversal Candle"), row.pattern != NoPattern,
                  Plain("Engulf/Hammer/Inside"), Text("{}", [Word(PatternName(row.pattern))])),
      CprCheck("6. Price > Top CPR (Narrow Monthly)", close, row.topCpr, row.narrowCpr),
      CprCheck("7. Price > Top CPR (Narrow Weekly)", close, row.weeklyTopCpr, row.narrowWeeklyCpr),
      CloseAbove("8. Price > VWAP (Volume Weighted Avg)", close, row.vwap60, true),
      SignalCheck(Text("9. ADX > {}", [Num(Some(adxMin))]), Above(row.adx14, Some(adxMin)),
                  Text(">{}", [Num(Some(adxMin))]), Text("{:.2f}", [Num(row.adx14)])),
      DeliveryCheck(row, delivery) ]
  }

  /** The ten swing checks, once every parameter they read is present. */
  function SwingChecks(row: Row, rules: Rules): seq<SignalCheck>
    requires SwingError(row, rules).None?
  {
    SwingList(row, rules["rsi_range_min"], rules["rsi_range_max"], rules["volume_factor"],
              rules["adx_min"], DeliveryThreshold(rules, 35.0))
  }

  /** The ten momentum checks for the parameters read from the rules: the RSI
      minimum, the volume factor and the delivery threshold. */
  function MomentumList(row: Row, rsiMin: real, factor: real, delivery: real): (checks: seq<SignalCheck>)
    ensures |checks| == 10
  {
    var close := row.bar.close;
    [ CloseAbove("1. Price > EMA_20", close, row.ema20, false),
      CloseAbove("2. Price > EMA_50", close, row.ema50, false),
      CloseAbove("3. Price > EMA_200", close, row.ema200, false),
      SignalCheck(Text("4. RSI > {}", [Num(Some(rsiMin))]), Above(row.rsi14, Some(rsiMin)),
                  Text(">{}", [Num(Some(rsiMin))]), Text("{:.2f}", [Num(row.rsi14)])),
      Named(VolumeCheck(row, factor), "5. Volume > {}x Avg"),
      SignalCheck(Plain("6. Breakout (52-Week High)"), row.breakout52w,
                  Plain("New 52w High"), Text("Is Breakout: {}", [Flag(row.breakout52w)])),
      CloseAbove("7. Price > VWAP (Volume Weighted Avg)", close, row.vwap60, true),
      CprCheck("8. Price > Top CPR (Narrow Weekly)", close, row.weeklyTopCpr, row.narrowWeeklyCpr),
      SignalCheck(Plain("9. EMA Stack (20>50>200)"), Above(row.ema20, row.ema50) && Above(row.ema50, row.ema200),
                  Plain("EMAs Aligned"), Plain("Stacked")),
      DeliveryCheck(row, delivery) ]
  }

  /** The ten momentum checks, once every parameter they read is present. */
  function MomentumChecks(row: Row, rules: Rules): seq<SignalCheck>
    requires MomentumError(row, rules).None?
  {
    MomentumList(row, rules["rsi_min"], rules["volume_factor"], DeliveryThreshold(rules, 40.0))
  }

  /** `evaluate_swing_rules`: appends the ten checks in order, raising on the first
      parameter or column it cannot read. */
  method EvaluateSwingRules(row: Row, rules: Rules) returns (r: Result<seq<SignalCheck>, ConfigError>)
    ensures r.Failure? <==> SwingError(row, rules).Some?
    ensures r.Failure? ==> r.error == SwingError(row, rules).value
    ensures r.Success? ==> SwingError(row, rules).None? && r.value == SwingChecks(row, rules)
  {
    if "volume_avg_period" !in rules {
      return Failure(MissingKey("volume_avg_period"));
    }
    var close := row.bar.close;
    var signals: seq<SignalCheck> := [];
    var c1 := CloseAbove("1. Price > EMA_50", close, row.ema50, false);
    signals := signals + [c1];
    var c2 := CloseAbove("2. Price > EMA_200", close, row.ema200, false);
    signals := signals + [c2];
    assert signals == [c1, c2];
    if "rsi_range_min" !in rules {
      return Failure(MissingKey("rsi_range_min"));
    }
    var lo := rules["rsi_range_min"];
    var inRange := row.rsi14.Some? && lo <= row.rsi14.value;
    if "rsi_range_max" !in rules {
      return Failure(MissingKey("rsi_range_max"));
    }
    var hi := rules["rsi_range_max"];
    inRange := inRange && row.rsi14.value <= hi;
    var c3 := SignalCheck(Plain("3. RSI in Range (45-60)"), inRange,
                          Text("{}-{}", [Num(Some(lo)), Num(Some(hi))]), Text("{:.2f}", [Num(row.rsi14)]));
    signals := signals + [c3];
    assert signals == [c1, c2, c3];
    if "volume_factor" !in rules {
      return Failure(MissingKey("volume_factor"));
    }
    var factor := rules["volume_factor"];
    if rules["volume_avg_period"] != row.volumeAvgLabel {
      return Failure(MissingColumn(rules["volume_avg_period"]));
    }
    var c4 := Named(VolumeCheck(row, factor), "4. Volume > {}x Avg");
    signals := signals + [c4];
    var c5 := SignalCheck(Plain("5. Bullish Reversal Candle"), row.pattern != NoPattern,
                          Plain("Engulf/Hammer/Inside"), Text("{}", [Word(PatternName(row.pattern))]));
    signals := signals + [c5];
    assert signals == [c1, c2, c3, c4, c5];
    var c6 := CprCheck("6. Price > Top CPR (Narrow Monthly)", close, row.topCpr, row.narrowCpr);
    signals := signals + [c6];
    var c7 := CprCheck("7. Price > Top CPR (Narrow Weekly)", close, row.weeklyTopCpr, row.narrowWeeklyCpr);
    signals := signals + [c7];
    var c8 := CloseAbove("8. Price > VWAP (Volume Weighted Avg)", close, row.vwap60, true);
    signals := signals + [c8];
    assert signals == [c1, c2, c3, c4, c5, c6, c7, c8];
    if "adx_min" !in rules {
      return Failure(MissingKey("adx_min"));
    }
    var adxMin := rules["adx_min"];
    var c9 := SignalCheck(Text("9. ADX > {}", [Num(Some(adxMin))]), Above(row.adx14, Some(adxMin)),
                          Text(">{}", [Num(Some(adxMin))]), Text("{:.2f}", [Num(row.adx14)]));
    signals := signals + [c9];
    var threshold := DeliveryThreshold(rules, 35.0);
    var c10 := DeliveryCheck(row, threshold);
    signals := signals + [c10];
    assert signals == [c1, c2, c3, c4, c5, c6, c7, c8, c9, c10];
    return Success(signals);
  }

  /** `evaluate_momentum_rules`: appends the ten checks in order, raising on the first
      parameter or column it cannot read. */
  method EvaluateMomentumRules(row: Row, rules: Rules) returns (r: Result<seq<SignalCheck>, ConfigError>)
    ensures r.Failure? <==> MomentumError(row, rules).Some?
    ensures r.Failure? ==> r.error == MomentumError(row, rules).value
    ensures r.Success? ==> MomentumError(row, rules).None? && r.value == MomentumChecks(row, rules)
  {
    if "volume_avg_period" !in rules {
      return Failure(MissingKey("volume_avg_period"));
    }
    var close := row.bar.close;
    var signals: seq<SignalCheck> := [];
    var c1 := CloseAbove("1. Price > EMA_20", close, row.ema20, false);
    signals := signals + [c1];
    var c2 := CloseAbove("2. Price > EMA_50", close, row.ema50, false);
    signals := signals + [c2];
    var c3 := CloseAbove("3. Price > EMA_200", close, row.ema200, false);
    signals := signals + [c3];
    assert signals == [c1, c2, c3];
    if "rsi_min" !in rules {
      return Failure(MissingKey("rsi_min"));
    }
    var rsiMin := rules["rsi_min"];
    var c4 := SignalCheck(Text("4. RSI > {}", [Num(Some(rsiMin))]), Above(row.rsi14, Some(rsiMin)),
                          Text(">{}", [Num(Some(rsiMin))]), Text("{:.2f}", [Num(row.rsi14)]));
    signals := signals + [c4];
    assert signals == [c1, c2, c3, c4];
    if "volume_factor" !in rules {
      return Failure(MissingKey("volume_factor"));
    }
    var factor := rules["volume_factor"];
    if rules["volume_avg_period"] != row.volumeAvgLabel {
      return Failure(MissingColumn(rules["volume_avg_period"]));
    }
    var c5 := Named(VolumeCheck(row, factor), "5. Volume > {}x Avg");
    signals := signals + [c5];
    var c6 := SignalCheck(Plain("6. Breakout (52-Week High)"), row.breakout52w,
                          Plain("New 52w High"), Text("Is Breakout: {}", [Flag(row.breakout52w)]));
    signals := signals + [c6];
    var c7 := CloseAbove("7. Price > VWAP (Volume Weighted Avg)", close, row.vwap60, true);
    signals := signals + [c7];
    assert signals == [c1, c2, c3, c4, c5, c6, c7];
    var c8 := CprCheck("8. Price > Top CPR (Narrow Weekly)", close, row.weeklyTopCpr, row.narrowWeeklyCpr);
    signals := signals + [c8];
    var c9 := SignalCheck(Plain("9. EMA Stack (20>50>200)"), Above(row.ema20, row.ema50) && Above(row.ema50, row.ema200),
                          Plain("EMAs Aligned"), Plain("Stacked"));
    signals := signals + [c9];
    var threshold := DeliveryThreshold(rules, 40.0);
    var c10 := DeliveryCheck(row, threshold);
    signals := signals + [c10];
    assert signals == [c1, c2, c3, c4, c5, c6, c7, c8, c9, c10];
    return Success(signals);
  }

  /** The first five swing checks are named "1. ..." to "5. ...". */
  lemma SwingListNumberedLow(row: Row, lo: real, hi: real, factor: real, adxMin: real, delivery: real)
    ensures var c := SwingList(row, lo, hi, factor, adxMin, delivery);
      forall i :: 0 <= i < 5 ==> IsNumbered(c[i], i + 1)
  {
    var c := SwingList(row, lo, hi, factor, adxMin, delivery);
    assert c[0].criteria.template == "1. Price > EMA_50";
    assert NumberPrefix(1) == "1. ";
    assert c[1].criteria.template == "2. Price > EMA_200";
    assert NumberPrefix(2) == "2. ";
    assert c[2].criteria.template == "3. RSI in Range (45-60)";
    assert NumberPrefix(3) == "3. ";
    assert c[3].criteria.template == "4. Volume > {}x Avg";
    assert NumberPrefix(4) == "4. ";
    assert c[4].criteria.template == "5. Bullish Reversal Candle";
    assert NumberPrefix(5) == "5. ";
    assert IsNumbered(c[0], 1);
    assert IsNumbered(c[1], 2);
    assert IsNumbered(c[2], 3);
    assert IsNumbered(c[3], 4);
    assert IsNumbered(c[4], 5);
  }

  /** The last five swing checks are named "6. ..." to "10. ...". */
  lemma SwingListNumberedHigh(row: Row, lo: real, hi: real, factor: real, adxMin: real, delivery: real)
    ensures var c := SwingList(row, lo, hi, factor, adxMin, delivery);
      forall i :: 5 <= i < 10 ==> IsNumbered(c[i], i + 1)
  {
    var c := SwingList(row, lo, hi, factor, adxMin, delivery);
    assert c[5].criteria.template == "6. Price > Top CPR (Narrow Monthly)";
    assert NumberPrefix(6) == "6. ";
    assert c[6].criteria.template == "7. Price > Top CPR (Narrow Weekly)";
    assert NumberPrefix(7) == "7. ";
    assert c[7].criteria.template == "8. Price > VWAP (Volume Weighted Avg)";
    assert NumberPrefix(8) == "8. ";
    assert c[8].criteria.template == "9. ADX > {}";
    assert NumberPrefix(9) == "9. ";
    assert c[9].criteria.template == "10. High Delivery %";
    assert NumberPrefix(10) == "10. ";
    assert IsNumbered(c[5], 6);
    assert IsNumbered(c[6], 7);
    assert IsNumbered(c[7], 8);
    assert IsNumbered(c[8], 9);
    assert IsNumbered(c[9], 10);
  }

  /** The swing checks are ten, the i-th named "i. ...", whatever the parameters. */
  lemma SwingListNumbered(row: Row, lo: real, hi: real, factor: real, adxMin: real, delivery: real)
    ensures TenNumbered(SwingList(row, lo, hi, factor, adxMin, delivery))
  {
    SwingListNumberedLow(row, lo, hi, factor, adxMin, delivery);
    SwingListNumberedHigh(row, lo, hi, factor, adxMin, delivery);
  }

  /** The swing rule set yields ten checks, the i-th named "i. ...". */
  lemma SwingNumbered(row: Row, rules: Rules)
    requires SwingError(row, rules).None?
    ensures TenNumbered(SwingChecks(row, rules))
  {
    SwingListNumbered(row, rules["rsi_range_min"], rules["rsi_range_max"], rules["volume_factor"],
                      rules["adx_min"], DeliveryThreshold(rules, 35.0));
  }

  /** The first five momentum checks are named "1. ..." to "5. ...". */
  lemma MomentumListNumberedLow(row: Row, rsiMin: real, factor: real, delivery: real)
    ensures var c := MomentumList(row, rsiMin, factor, delivery);
      forall i :: 0 <= i < 5 ==> IsNumbered(c[i], i + 1)
  {
    var c := MomentumList(row, rsiMin, factor, delivery);
    assert c[0].criteria.template == "1. Price > EMA_20";
    assert NumberPrefix(1) == "1. ";
    assert c[1].criteria.template == "2. Price > EMA_50";
    assert NumberPrefix(2) == "2. ";
    assert c[2].criteria.template == "3. Price > EMA_200";
    assert NumberPrefix(3) == "3. ";
    assert c[3].criteria.template == "4. RSI > {}";
    assert NumberPrefix(4) == "4. ";
    assert c[4].criteria.template == "5. Volume > {}x Avg";
    assert NumberPrefix(5) == "5. ";
    assert IsNumbered(c[0], 1);
    assert IsNumbered(c[1], 2);
    assert IsNumbered(c[2], 3);
    assert IsNumbered(c[3], 4);
    assert IsNumbered(c[4], 5);
  }

  /** The last five momentum checks are named "6. ..." to "10. ...". */
  lemma MomentumListNumberedHigh(row: Row, rsiMin: real, factor: real, delivery: real)
    ensures var c := MomentumList(row, rsiMin, factor, delivery);
      forall i :: 5 <= i < 10 ==> IsNumbered(c[i], i + 1)
  {
    var c := MomentumList(row, rsiMin, factor, delivery);
    assert c[5].criteria.template == "6. Breakout (52-Week High)";
    assert NumberPrefix(6) == "6. ";
    assert c[6].criteria.template == "7. Price > VWAP (Volume Weighted Avg)";
    assert NumberPrefix(7) == "7. ";
    assert c[7].criteria.template == "8. Price > Top CPR (Narrow Weekly)";
    assert NumberPrefix(8) == "8. ";
    assert c[8].criteria.template == "9. EMA Stack (20>50>200)";
    assert NumberPrefix(9) == "9. ";
    assert c[9].criteria.template == "10. High Delivery %";
    assert NumberPrefix(10) == "10. ";
    assert IsNumbered(c[5], 6);
    assert IsNumbered(c[6], 7);
    assert IsNumbered(c[7], 8);
    assert IsNumbered(c[8], 9);
    assert IsNumbered(c[9], 10);
  }

  /** The momentum checks are ten, the i-th named "i. ...", whatever the parameters. */
  lemma MomentumListNumbered(row: Row, rsiMin: real, factor: real, delivery: real)
    ensures TenNumbered(MomentumList(row, rsiMin, factor, delivery))
  {
    MomentumListNumberedLow(row, rsiMin, factor, delivery);
    MomentumListNumberedHigh(row, rsiMin, factor, delivery);
  }

  /** The momentum rule set yields ten checks, the i-th named "i. ...". */
  lemma MomentumNumbered(row: Row, rules: Rules)
    requires MomentumError(row, rules).None?
    ensures TenNumbered(MomentumChecks(row, rules))
  {
    MomentumListNumbered(row, rules["rsi_min"], rules["volume_factor"], DeliveryThreshold(rules, 40.0));
  }

  /** What each swing check tests. An undefined indicator fails the check that reads it. */
  lemma SwingSignals(row: Row, rules: Rules)
    requires SwingError(row, rules).None?
    ensures
      var c := SwingChecks(row, rules);
      var close := row.bar.close;
      && (c[0].signal <==> row.ema50.Some? && close > row.ema50.value)
      && (c[1].signal <==> row.ema200.Some? && close > row.ema200.value)
      && (c[2].signal <==> row.rsi14.Some? && rules["rsi_range_min"] <= row.rsi14.value <= rules["rsi_range_max"])
      && (c[3].signal <==> row.volumeAvg.Some? && row.bar.volume > row.volumeAvg.value * rules["volume_factor"])
      && (c[4].signal <==> row.pattern in {BullEngulf, BullHammer, BullInsideBreak})
      && (c[5].signal <==> row.topCpr.Some? && close > row.topCpr.value && row.narrowCpr)
      && (c[6].signal <==> row.weeklyTopCpr.Some? && close > row.weeklyTopCpr.value && row.narrowWeeklyCpr)
      && (c[7].signal <==> row.vwap60.Some? && close > row.vwap60.value)
      && (c[8].signal <==> row.adx14.Some? && row.adx14.value > rules["adx_min"])
      && (c[9].signal <==> row.deliveryPerc > (if "delivery_perc_min" in rules then rules["delivery_perc_min"] else 35.0))
  {
  }

  /** What each momentum check tests. */
  lemma MomentumSignals(row: Row, rules: Rules)
    requires MomentumError(row, rules).None?
    ensures
      var c := MomentumChecks(row, rules);
      var close := row.bar.close;
      && (c[0].signal <==> row.ema20.Some? && close > row.ema20.value)
      && (c[1].signal <==> row.ema50.Some? && close > row.ema50.value)
      && (c[2].signal <==> row.ema200.Some? && close > row.ema200.value)
      && (c[3].signal <==> row.rsi14.Some? && row.rsi14.value > rules["rsi_min"])
      && (c[4].signal <==> row.volumeAvg.Some? && row.bar.volume > row.volumeAvg.value * rules["volume_factor"])
      && (c[5].signal <==> row.breakout52w)
      && (c[6].signal <==> row.vwap60.Some? && close > row.vwap60.value)
      && (c[7].signal <==> row.weeklyTopCpr.Some? && close > row.weeklyTopCpr.value && row.narrowWeeklyCpr)
      && (c[8].signal <==> row.ema20.Some? && row.ema50.Some? && row.ema200.Some?
                           && row.ema20.value > row.ema50.value > row.ema200.value)
      && (c[9].signal <==> row.deliveryPerc > (if "delivery_perc_min" in rules then rules["delivery_perc_min"] else 40.0))
  {
  }

  /** A delivery value of 0.0 fails the delivery check against any non-negative
      threshold, configured or default. */
  lemma MissingDeliveryFails(row: Row, swing: Rules, momentum: Rules)
    requires row.deliveryPerc == 0.0
    ensures SwingError(row, swing).None? && DeliveryThreshold(swing, 35.0) >= 0.0 ==>
      !SwingChecks(row, swing)[9].signal
    ensures MomentumError(row, momentum).None? && DeliveryThreshold(momentum, 40.0) >= 0.0 ==>
      !MomentumChecks(row, momentum)[9].signal
  {
  }

  /** The keys `evaluate_swing_rules` reads. */
  const SwingKeys: set<string> :=
    {"volume_avg_period", "rsi_range_min", "rsi_range_max", "volume_factor", "adx_min", "delivery_perc_min"}

  /** The keys `evaluate_momentum_rules` reads. */
  const MomentumKeys: set<string> := {"volume_avg_period", "rsi_min", "volume_factor", "delivery_perc_min"}

  /** Setting or adding a key the swing evaluator does not read changes neither its
      error nor its checks. */
  lemma SwingIgnoresOtherKeys(row: Row, rules: Rules, key: string, v: real)
    requires key !in SwingKeys
    ensures SwingError(row, rules[key := v]) == SwingError(row, rules)
    ensures SwingError(row, rules).None? ==> SwingChecks(row, rules[key := v]) == SwingChecks(row, rules)
  {
  }

  /** Setting or adding a key the momentum evaluator does not read changes neither
      its error nor its checks. */
  lemma MomentumIgnoresOtherKeys(row: Row, rules: Rules, key: string, v: real)
    requires key !in MomentumKeys
    ensures MomentumError(row, rules[key := v]) == MomentumError(row, rules)
    ensures MomentumError(row, rules).None? ==> MomentumChecks(row, rules[key := v]) == MomentumChecks(row, rules)
  {
  }

  /** Under a higher `adx_min`, the ADX check passes only if it passes under the lower one. */
  lemma StricterAdxFails(row: Row, rules: Rules, stricter: Rules)
    requires SwingError(row, rules).None? && SwingError(row, stricter).None?
    requires stricter["adx_min"] >= rules["adx_min"]
    ensures SwingChecks(row, stricter)[8].signal ==> SwingChecks(row, rules)[8].signal
  {
  }

  /** Under a higher `rsi_min`, the RSI check passes only if it passes under the lower one. */
  lemma StricterRsiFails(row: Row, rules: Rules, stricter: Rules)
    requires MomentumError(row, rules).None? && MomentumError(row, stricter).None?
    requires stricter["rsi_min"] >= rules["rsi_min"]
    ensures MomentumChecks(row, stricter)[3].signal ==> MomentumChecks(row, rules)[3].signal
  {
  }
}
