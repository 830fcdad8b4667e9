# Equity signal screener: indicator enrichment, rule evaluation and report pivot

This project is a Dafny model of the signal pipeline of an equity screener.

1. `add_all_indicators` enriches one symbol's daily OHLCV bars. It adds:
   - EMAs, RSI, ATR and ADX;
   - the volume average;
   - monthly and weekly central pivot ranges (CPR);
   - a rolling VWAP;
   - a candlestick label;
   - a 52-week breakout flag;
   - the delivery percentage.

   It then keeps only the rows whose key indicators are defined.
2. `evaluate_swing_rules` and `evaluate_momentum_rules` turn the latest enriched row and a rule-parameter map into ten ordered signal checks.
3. `create_wide_report` pivots all signal records of one analysis into one row per stock, sorted by score.

Modelling choices:

- Prices and volumes are `real`.
- A pandas NaN is `None` of an `Option<real>`.
- A rule-parameter map is a `map<string, real>`.
- A `KeyError` or pandas `ValueError` is a `ConfigError` in a `Result`.
- pandas `ewm(adjust=False).mean()` is modelled exactly, including undefined inputs (module `Smoothing`):
  - a NaN input ages the old weight and holds the mean;
  - the first observation seeds the mean.
- Calendar keys are inputs on each bar:
  - `month`: the absolute month number, so the previous calendar month is `month - 1`;
  - `week`: the ISO (year, week) pair.

Modules, in pipeline order:

- `Wrappers`: `Option` and `Result`.
- `Windows`: sums, extrema and rolling means.
- `Smoothing`: the `ewm` recurrence.
- `Bars`: the bar record.
- `Indicators`: EMA, RSI, ATR, ADX, VWAP and breakout.
- `Cpr`: monthly and weekly pivot ranges.
- `Candles`: the candlestick classifier.
- `Enrich`: `add_all_indicators`.
- `Rules`: the two evaluators.
- `Texts`: decimal text and Python string order.
- `Report`: `create_wide_report`.

Each source function has a model function, and the lemmas in "## Model" state its behaviour:

| source function | model | characterised by |
|---|---|---|
| `_calculate_ema` | `Indicators.Ema` | `EmaWithinCloses`, `EmaRecurrence`, `EmaOfConstant` |
| `_calculate_rsi` | `Indicators.Rsi` | its own contract, `RsiValue`, `RsiWithoutLosses` |
| `_calculate_atr` | `Indicators.TrueRange`, `Indicators.Atr` | `TrueRangeIsLargest`, `SmoothedInputsNonNegative` |
| `_calculate_adx` | `Indicators.DxSeries`, `Indicators.Adx` | `DirectionalMovement`, `DxOfNonNegative`, `AdxBounded`, `Enrich.FirstRowDropped` |
| `_calculate_monthly_cpr` | `Cpr.MonthlyCpr` | `GroupAggSpec`, `BandAroundPivot`, `MonthlyCprSource` |
| `_calculate_weekly_cpr` | `Cpr.WeeklyCpr` | `PrevWeekSpec`, `WeeklyCprSource` |
| `_calculate_vwap` | `Indicators.Vwap` | `VwapOfWindow`, `VwapWithinTypicalPrices` |
| `_detect_candlestick_patterns` | `Candles.DetectCandlestickPatterns`, `Candles.Classify` | the method's contract |
| `_detect_breakout` | `Indicators.Breakout` | `BreakoutIff` |
| volume average (`rolling(...).mean()`) | `Indicators.VolumeAverage` | `Windows.RollingMean` |
| `add_all_indicators` | `Enrich.AddAllIndicators`, `Enrich.IndicatorColumns`, `Enrich.DropUndefined` | `DropUndefinedSpec`, `DroppedForVwapOrAdx`, `AllRows` |
| `evaluate_swing_rules` | `Rules.EvaluateSwingRules`, `Rules.SwingChecks` | `SwingError`, `SwingSignals`, `SwingNumbered` |
| `evaluate_momentum_rules` | `Rules.EvaluateMomentumRules`, `Rules.MomentumChecks` | `MomentumError`, `MomentumSignals`, `MomentumNumbered` |
| `create_wide_report` | `Report.CreateWideReport`, `Report.PivotRow`, `Report.SortRows` | `GroupSpec`, `PivotRowFields`, `PivotRowCopies`, `SortedUnique` |

Where the source is imperative, the model is imperative too. Each such method is proved against a specification: equal to a reference function, or, for the sort, ordered and a permutation of its input:

- The candlestick masks overwrite an array in three loops. `Candles.DetectCandlestickPatterns` proves the result equals the priority classifier `Classify`.
- The evaluators append to a list.
- The `dropna` filter is a loop.
- The report pivot has an outer loop over stocks and an inner loop over a stock's records, each proved equal to the pivot function `Report.PivotRow`.
- `Report.SortRows` is an insertion sort. It is proved to return a permutation of its input, ordered by score and then by stock. `Report.SortedUnique` shows that this fixes the result.

Three behaviours of the code differ from what the indicators' names suggest. The model follows the code:

- ADX after an undefined DX.
  - Where the two directional indicators sum to zero, DX is NaN (engine/indicators.py:40).
  - `ewm` does not exclude such a bar: it ages the old weight and holds the previous ADX.
  - Only the bars before the first defined DX lack an ADX. `Smoothing.Ewm` models this.
  - `Enrich.FirstRowDropped` shows that the first bar is always among them.
- Weekly CPR.
  - The weekly band is meant to come from the previous week.
  - The code `shift(1)`s over the (year, week) groups present in the data (engine/indicators.py:67-71). After a week with no bars, a row therefore takes the last week that has bars, not the calendar week before its own (`Cpr.PrevWeekSpec`).
- Momentum volume average.
  - `evaluate_momentum_rules` looks up the column `Volume_Avg_<p>`, where `p` is its own `volume_avg_period` (engine/indicators.py:174, 180).
  - `add_all_indicators` creates that column only for the swing rules' period (engine/indicators.py:134).
  - When the two periods differ, the momentum evaluator raises `KeyError`. The model returns `MissingColumn`.

## Model

| member | source | states |
|---|---|---|
| Windows.RollingMean | engine/indicators.py:134 | `rolling(window).mean()`, and hence the volume average `Indicators.VolumeAverage` taken over the volumes, is defined at row t iff 0 < window ≤ t+1, and then it is the window sum divided by the window |
| Smoothing.EwmFirst | engine/indicators.py:10 | `ewm(adjust=False)` is seeded with the first input: its first output is the first input |
| Smoothing.EwmDefinedIff | engine/indicators.py:16-17 | a smoothed value is defined at i iff some input at or before i is defined |
| Smoothing.MeanDefinedIff | engine/indicators.py:16-17 | the running mean is defined iff the prefix holds an observation |
| Smoothing.EwmWithin | engine/indicators.py:41 | if every defined input lies in [lo, hi], so does every defined smoothed value |
| Smoothing.MeanWithin | engine/indicators.py:41 | the running mean of inputs within [lo, hi] stays within [lo, hi] |
| Smoothing.FullyObservedState | engine/indicators.py:10 | without undefined inputs the old weight is always 1 and the mean follows y_i = y_{i-1} + α(x_i − y_{i-1}) |
| Smoothing.EwmRecurrence | engine/indicators.py:10 | with every input defined, each smoothed value is defined; the first is the first input, and each later one moves from its predecessor by α times the gap to the new input |
| Indicators.SpanAlpha | engine/indicators.py:10 | a span ≥ 1 gives a smoothing factor 2/(span+1) in (0, 1] |
| Indicators.WilderAlpha | engine/indicators.py:16-17 | `com = period − 1` with period ≥ 1 gives a smoothing factor 1/period in (0, 1] |
| Indicators.EmaWithinCloses | engine/indicators.py:9-10 | every value of `Indicators.Ema` is defined and lies between the minimum and the maximum close seen so far |
| Indicators.EmaRecurrence | engine/indicators.py:9-10 | `Indicators.Ema` starts at the first close and EMA_i = EMA_{i-1} + α(Close_i − EMA_{i-1}) with α = 2/(span+1) |
| Indicators.EmaOfConstant | engine/indicators.py:9-10 | a constant close series has that constant as its EMA everywhere |
| Indicators.GainsAndLosses | engine/indicators.py:13-15 | gains and losses are non-negative, never both positive, and their difference is the close-to-close change |
| Indicators.RsiValue | engine/indicators.py:18-19 | RSI is 100 when the average loss is 0, is defined when both averages are, and always lies in [0, 100] |
| Indicators.AvgGain | engine/indicators.py:14-16 | the smoothed gain is defined and non-negative on every row |
| Indicators.AvgLoss | engine/indicators.py:15-17 | the smoothed loss is defined and non-negative on every row |
| Indicators.Rsi | engine/indicators.py:12-20 | `Indicators.Rsi`, the Wilder-smoothed RSI, is defined on every row and lies in [0, 100] |
| Indicators.RsiWithoutLosses | engine/indicators.py:17-19 | if no close up to t fell, the RSI at t is exactly 100 |
| Indicators.TrueRangeIsLargest | engine/indicators.py:23-26 | the true range `Indicators.TrueRange` is at least High−Low, at least both gaps to the previous close, and equal to one of the three |
| Indicators.DirectionalMovement | engine/indicators.py:31-34 | +DM and −DM are non-negative and never both positive; a positive +DM is the rise of the high and a positive −DM is the fall of the low |
| Indicators.EwmNonNegative | engine/indicators.py:27 | smoothing non-negative inputs gives non-negative values |
| Indicators.SmoothedInputsNonNegative | engine/indicators.py:35-39 | on bars with low ≤ high, the smoothed TR (the ATR of `Indicators.Atr`), +DM and −DM are defined and non-negative on every row |
| Indicators.DxBounded | engine/indicators.py:40 | 100·\|p−m\|/(p+m) lies in [0, 100] for non-negative p, m with a non-zero sum |
| Indicators.DxOfNonNegative | engine/indicators.py:38-40 | a defined DX computed from non-negative smoothed movements, as each entry of `Indicators.DxSeries` is, lies in [0, 100] |
| Indicators.AdxBounded | engine/indicators.py:29-42 | on bars with low ≤ high, every defined value of `Indicators.Adx` (the smoothed `DxSeries`) lies in [0, 100] |
| Indicators.WeightedSumBounds | engine/indicators.py:86-88 | with non-negative volumes and typical prices in [lo, hi], the price·volume sum lies between lo and hi times the volume sum |
| Indicators.VwapOfWindow | engine/indicators.py:85-89 | a defined value of `Indicators.Vwap` has a full window with a non-zero volume sum and equals the price·volume sum over the volume sum of that window |
| Indicators.VwapWithinTypicalPrices | engine/indicators.py:85-89 | with non-negative volumes, a defined VWAP lies within the range of the typical prices of its window |
| Indicators.BreakoutIff | engine/indicators.py:121-123 | the flag of `Indicators.Breakout` holds iff t ≥ 252 and the close is strictly above each of the 252 previous closes |
| Cpr.GroupAggSpec | engine/indicators.py:67-71 | a period aggregate exists iff some bar has the key; it is then the highest high and lowest low of those bars and the close of the last of them |
| Cpr.BandAroundPivot | engine/indicators.py:52-55 | bottom ≤ pivot ≤ top and top + bottom = 2·pivot; narrow iff top − bottom < 0.5% of the period close |
| Cpr.MonthlyCprSource | engine/indicators.py:44-56 | the monthly band `Cpr.MonthlyCpr` is undefined and not narrow iff no bar lies in the month before the last bar's month; otherwise it is the band of that month's aggregates |
| Cpr.PrevWeekSpec | engine/indicators.py:67-73 | the week chosen for a row is a present week before its own with no present week between them; none is chosen iff no present week precedes it |
| Cpr.WeeklyCprSource | engine/indicators.py:58-83 | in `Cpr.WeeklyCpr`, fewer than 7 rows give no weekly band; otherwise a row gets the band of the latest present week before its own, and no band in the earliest week |
| Candles.DetectCandlestickPatterns | engine/indicators.py:91-119 | the three successive mask overwrites equal the priority classifier: inside break over hammer over engulfing, and "None" on every row when ATR is absent or entirely undefined |
| Enrich.SmoothingParam | engine/indicators.py:130-136 | a span or period is accepted iff present and ≥ 1, returning its value; otherwise the error names the missing key or the bad parameter |
| Enrich.WindowParam | engine/indicators.py:134-140 | a window is accepted iff present (or defaulted) and a whole number ≥ 0, returning that number; otherwise the error names the key |
| Enrich.ReadParams | engine/indicators.py:130-140 | the parameters are read successfully iff every key is present and usable; on success they are the map values, with `poc_period` defaulting to 60 |
| Enrich.IndicatorColumns | engine/indicators.py:130-142 | every indicator column has one entry per bar |
| Enrich.ComputeColumns | engine/indicators.py:130-142 | the columns added one after the other are the indicator columns `IndicatorColumns`; every step but the candlestick column is the same call, so the content is `Candles.DetectCandlestickPatterns` agreeing with `Classify` |
| Enrich.AllRows | engine/indicators.py:130-145 | the enriched frame has one row per input bar, carrying that bar |
| Enrich.DropUndefinedSpec | engine/indicators.py:147 | `dropna`, modelled by `Enrich.DropUndefined`, keeps exactly the rows whose EMA_200, RSI_14, VWAP_60 and ADX_14 are all defined, in their original order |
| Enrich.DropUndefinedRows | engine/indicators.py:147 | the row-by-row filter returns the kept rows of `DropUndefined` |
| Enrich.AddAllIndicators | engine/indicators.py:127-147 | no result for an absent or shorter-than-252 history; the first configuration error otherwise, if any; else the dropna-filtered enriched rows |
| Enrich.DroppedForVwapOrAdx | engine/indicators.py:147 | since EMA_200 and RSI_14 are always defined, a row is dropped iff its VWAP or ADX is undefined |
| Enrich.FirstRowDropped | engine/indicators.py:31-41 | the first bar never survives enrichment: its DX and hence its ADX are undefined |
| Texts.NatText | format_dataset.py:23 | `str(n)` is a non-empty string of decimal digits |
| Texts.ParseNatText | format_dataset.py:43 | `int(str(n)) == n` |
| Texts.Head | format_dataset.py:43 | `split('/')[0]` is the text before the first separator, or all of it: a prefix without the separator, followed in the string by the separator or by nothing |
| Texts.HeadOfDigits | format_dataset.py:43 | the text before the first '/' of "digits/rest" is the digits |
| Texts.ScoreKeyRoundTrip | format_dataset.py:23 | the sort key parsed from a score "met/total" is met, so the fallback sort of lines 47-49 is never taken |
| Texts.StringLessIrreflexive | format_dataset.py:45 | Python string `<` is irreflexive |
| Texts.StringLessAsymmetric | format_dataset.py:45 | Python string `<` is asymmetric |
| Texts.StringLessTransitive | format_dataset.py:45 | Python string `<` is transitive |
| Texts.StringLessTotal | format_dataset.py:45 | any two strings are equal or ordered one way by `<` |
| Rules.SwingError | engine/indicators.py:151-161 | the swing evaluator fails iff one of the five required keys is missing or the volume-average column is not the enriched one |
| Rules.MomentumError | engine/indicators.py:174-180 | the momentum evaluator fails iff one of the three required keys is missing or the volume-average column is not the enriched one |
| Rules.EvaluateSwingRules | engine/indicators.py:150-171 | fails exactly with the first error in source order; otherwise returns the ten swing checks |
| Rules.EvaluateMomentumRules | engine/indicators.py:173-194 | fails exactly with the first error in source order; otherwise returns the ten momentum checks |
| Rules.SwingNumbered | engine/indicators.py:153-170 | the swing evaluator returns exactly ten checks, the i-th named "i. …" |
| Rules.MomentumNumbered | engine/indicators.py:176-193 | the momentum evaluator returns exactly ten checks, the i-th named "i. …" |
| Rules.SwingSignals | engine/indicators.py:153-170 | each boolean of the swing check list `Rules.SwingChecks`: strict price tests, inclusive RSI range, volume above factor × average, a bullish pattern, CPR above-top and narrow, ADX above `adx_min`, delivery above the threshold (default 35.0); an undefined value fails its test |
| Rules.MomentumSignals | engine/indicators.py:176-193 | each boolean of the momentum check list `Rules.MomentumChecks`, with RSI strictly above `rsi_min`, the breakout flag, the strict stack EMA_20 > EMA_50 > EMA_200 and a default delivery threshold of 40.0 |
| Rules.MissingDeliveryFails | engine/indicators.py:164-190 | a delivery value of 0.0 fails the delivery check against any non-negative threshold, whether configured or one of the defaults |
| Rules.SwingIgnoresOtherKeys | engine/indicators.py:150-171 | setting a key outside the six the swing evaluator reads changes neither its error nor any of its checks |
| Rules.MomentumIgnoresOtherKeys | engine/indicators.py:173-194 | setting a key outside the four the momentum evaluator reads changes neither its error nor any of its checks |
| Rules.StricterAdxFails | engine/indicators.py:161 | if the ADX check passes under a higher `adx_min`, it passes under the lower one |
| Rules.StricterRsiFails | engine/indicators.py:179 | if the RSI check passes under a higher `rsi_min`, it passes under the lower one |
| Report.Stocks | format_dataset.py:13 | the grouped stocks are pairwise distinct |
| Report.StocksSpec | format_dataset.py:13 | a stock is grouped iff some record names it |
| Report.Group | format_dataset.py:13 | every record of a group has its stock, and a record is in the group iff it is an input record of that stock |
| Report.GroupSpec | format_dataset.py:13-14 | a group is the input at the increasing positions of exactly that stock's records: input order and repeated records are kept, and its size is the number of those records |
| Report.GroupFirst | format_dataset.py:19 | the first record of a group is the stock's first record in the input, whose TimeStamp the row takes |
| Report.MetCount | format_dataset.py:15-22 | met ≤ total, with equality iff every check of the group passed |
| Report.PivotRowFields | format_dataset.py:14-30 | for the pivot row `Report.PivotRow` of a group: the score reads back as met; met ≤ total; "All Signals Met" iff every check passed; the i-th indicator's Name is the i-th record's criteria, and its Status is "TRUE" iff that signal holds and "FALSE" otherwise |
| Report.PivotRowCopies | format_dataset.py:18-32 | the pivot row's Timestamp is the first record's TimeStamp, Stock is the stock and TradeType the analysis name; the i-th indicator's Threshold and Current copy the i-th record's threshold and current value |
| Report.PrecedesTotal | format_dataset.py:45 | any two rows are ordered one way or the other by (key descending, Stock ascending) |
| Report.PrecedesTransitive | format_dataset.py:45 | the report order is transitive |
| Report.Insert | format_dataset.py:45 | inserting a row into a sorted table keeps it sorted and adds exactly that row |
| Report.SortRows | format_dataset.py:42-49 | the sorted table is a permutation of the rows, ordered by key descending then Stock ascending |
| Report.SortedUnique | format_dataset.py:43-45 | with distinct stocks, two sorted arrangements of the same rows are identical, so the order is fully determined |
| Report.PermutationKeepsDistinct | format_dataset.py:39-51 | reordering rows with distinct stocks keeps them distinct |
| Report.PivotIndicators | format_dataset.py:27-32 | the inner loop yields one indicator quadruple per record, in record order |
| Report.PivotStock | format_dataset.py:13-34 | the record built for a stock is the pivot row of its non-empty group |
| Report.PivotGroups | format_dataset.py:13-34 | the outer loop yields one pivot row per distinct stock |
| Report.ScoresParse | format_dataset.py:42-49 | every score of a pivoted row parses, so the sort never takes its fallback |
| Report.ReportShape | format_dataset.py:13-51 | a reordering of the pivoted rows has one row per distinct stock, no duplicate stock, and each row is its stock's pivot row |
| Report.CreateWideReport | format_dataset.py:4-51 | empty input gives an empty report; otherwise one row per distinct stock, no stock dropped or duplicated, each row its group's pivot row (TradeType the analysis name), sorted by met descending, ties by Stock ascending |

## Left out

- The application around the core: GUI, thread start-up, cancellation, CSV loading, timestamps, HTTP and `yfinance` downloads, the delivery-data download and the Excel export. These are I/O. The delivery percentage and each record's timestamp are parameters.
- Calendars: `to_period('M')` and `isocalendar()` are not computed. Each bar carries its month number and ISO week as inputs.
- IEEE floating point. Reals stand for floats, and rounding is not modelled.
- Division by zero in VWAP. The model gives `None` where the volume sum is zero. With negative volumes, IEEE arithmetic could give an infinity there instead of a NaN. The ADX model needs no such caveat. +DM and −DM are clipped at zero, so +DI and −DI have the same sign and |+DI − −DI| never exceeds their sum. DX is therefore NaN exactly where `Indicators.Dx` gives `None`, and an infinite +DI or −DI on a zero ATR never reaches DX. The hammer's close-position ratio keeps the IEEE result for a zero range (`Candles.RatioAtLeast`): +inf for a positive numerator, and NaN or −inf otherwise.
- Undefined bar fields: every bar's open, high, low, close and volume are defined.
- Integer parameters: a float window such as 20.0, which pandas rejects, cannot be told apart from the integer 20. Windows are accepted when they are whole numbers.
- Rules.MomentumError: the integer 20 and the float 20.0 are both the real 20.0. If the swing rules set `volume_avg_period` to 20 and the momentum rules set it to 20.0, the source builds `Volume_Avg_20` but looks up `Volume_Avg_20.0`, and raises `KeyError`. The model treats the labels as equal and succeeds.
- Display strings: thresholds, current values and f-string formatting (`:.2f`, `:,.0f`) are kept as a template with its arguments and not rendered. Only the booleans carry logic.
- The "INFO" message printed for an empty report is not modelled.
- Report group order: `groupby('Stock')` visits stocks in sorted order, while the model visits them in order of first appearance. The final sort fixes the order either way (`Report.SortedUnique`).
- Report table shape: pandas fills missing "Indicator i" columns with NaN when stocks have different numbers of records. Each modelled row holds its own list of indicators.
- Score parsing: Python's `int()` also accepts signs, surrounding whitespace and underscores. `Texts.ScoreKey` parses plain decimal digits, which is every score the pivot writes.
- In-place column writes: the CPR helpers and `add_all_indicators` write columns into the caller's frame. The model returns the columns as values, so aliasing of the caller's frame is not modelled.
- Enrich.IndicatorColumns: states only that each column has one entry per bar. The meaning of each column is stated by the lemmas on its indicator (`Indicators`, `Cpr`, `Candles`).
- Rules.EvaluateSwingRules and Rules.EvaluateMomentumRules: the threshold and current-value strings are stated as templates with their arguments, not as the rendered text.
