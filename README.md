# Scalping signal engine of `bot.py`, in Dafny

The bot polls an exchange for candles of a symbol on several timeframes.
For each timeframe it computes a set of technical indicators. It then
classifies the newest row as BUY, SELL or NEUTRAL and reduces the
per-timeframe signals to one consensus. This project models that signal
engine over exact `real` arithmetic. A pandas NaN cell is `None` of
`Option<real>`.

- `Config` (config.dfy): the strategy constants as one immutable value,
  `Params`. It also gives the smoothing factors of `ewm(span=…)` and
  `ewm(com=W-1)`.
- `Smoothing` (ema.dfy): the `adjust=False` exponential average.
  - A recursive specification, `EmaAt`/`Ema`.
  - A loop that fills a buffer, `EmaColumn`.
  - Lemmas: the average stays inside the range of its inputs, and it is
    constant on a constant series.
- `Rolling` (rolling.dfy): the trailing `rolling(w).sum()` and `.mean()`
  as pandas runs them, keeping a running sum and a count of observed
  values, plus the backward fill `fillna(method="bfill")`. Each has a
  specification function, a loop method proved against it, and lemmas
  that characterise when a cell is defined.
- `Indicators` (indicators.dfy): `compute_indicators`.
  - Every derived column is specified as a function of the candles: EMA
    pair, MACD pair, RSI, true range, ±dm, their rolling sums, ±di, DX,
    ADX, Bollinger bands and the volume average.
  - The DataFrame is the class `Frame`. Its method `ComputeIndicators`
    writes every column in place.
  - The rolling standard deviation is a parameter `sd`. `StdDevLaw`
    assumes only that it is non-negative and zero on a constant window.
- `Signals` (signals.dfy): `evaluate_conditions` as `Evaluate`, with its
  six buy and six sell predicates.
- `IndicatorFacts` (facts.dfy): what the engine guarantees:
  - the warm-up windows;
  - the division guards of RSI, DI and DX;
  - the ADX and volume-average fills;
  - the flat-market invariant.
- `Causality` (causality.dfy): each indicator of a row is unchanged when
  the candles after that row are cut off. The volume average is the one
  exception, on its warm-up rows.
- `Consensus` (consensus.dfy): `analyze_symbol` as `AnalyzeSymbol`.
  - It is a loop over the configured timeframes that fills `perTimeframe`
    and the list of signals.
  - Each timeframe is evaluated by `EvaluateTimeframe`: fetch, build the
    `Frame`, compute, take `iloc[-1]`, classify.
  - It ends with the unanimity reduction `Consensus`.
  - The exchange request is a parameter `fetch`. It returns `None` where
    the request raises.

Three behaviours of `bot.py` worth knowing. The model follows the code
in all of them.

- **RSI on a rising series.** The code replaces a zero down-average by
  NaN and fills the NaN with 50 (bot.py:68-70). A strictly rising close
  series therefore has RSI 50 on every row (`RsiWithoutDownMoves`), not
  an RSI that climbs towards 100. A value of 50 lies inside the default
  buy band, so the RSI check does not rule out BUY on such a series.
- **Empty timeframe list.** `all` of an empty list is true, so an empty
  timeframe list yields BUY (`Consensus.Consensus`).
- **The volume average looks ahead.** Every indicator of a row depends
  only on the candles up to that row (`Causality.NoLookahead`), except
  the volume average on the first `VOL_WINDOW - 1` rows. `bfill` fills
  those rows with the first full-window mean, which uses later volumes
  (bot.py:93, `Causality.VolumeAverageLooksAhead`). The last row, which
  the classifier reads, is not affected once the series covers the
  window.

## Model

| member | source | states |
|---|---|---|
| Config.Default | bot.py:11-31 | the shipped constants are valid pandas arguments (every span and window at least 1); the 100-candle limit exceeds the Bollinger and volume windows and twice the ADX window; there are five timeframes |
| Config.SpanAlpha | bot.py:55-61 | the factor 2/(span+1) of `ewm(span=…)` lies in (0, 1] |
| Config.WilderAlpha | bot.py:66-67 | the factor 1/(1+com) of `ewm(com=W-1)` lies in (0, 1] |
| Smoothing.EmaColumn | bot.py:55-61 | the row-by-row recurrence `ema[0]=x[0]`, `ema[t]=α·x[t]+(1−α)·ema[t−1]`, run in a loop, yields exactly the specified average column |
| Smoothing.Ema | bot.py:55-61 | the `adjust=False` average column: row 0 is the first value, and every later row moves the previous average a fraction α towards the new value |
| Smoothing.EmaWithin | bot.py:55-56 | for α in [0, 1], every average lies between any lower and upper bound of the values seen so far |
| Smoothing.EmaColumnWithin | bot.py:66-67 | the whole smoothed column of a bounded series stays within the same bounds (this keeps the RSI averages non-negative) |
| Smoothing.EmaOfConstant | bot.py:55-56 | a constant series is its own average at every row |
| Rolling.RollingSumColumn | bot.py:80-82 | pandas' single pass (running sum of observed values and their count, adding the newest and dropping the one leaving the window) yields exactly the trailing-window sum, undefined until `w` values are observed |
| Rolling.RollingSum | bot.py:80-82 | `rolling(window=w).sum()` is undefined on the first `w−1` rows, and every defined cell is the sum of exactly the last `w` rows |
| Rolling.RollingMean | bot.py:86-93 | `rolling(window=w).mean()` is defined exactly where the rolling sum is, and every defined cell is the sum of the last `w` rows divided by `w` |
| Rolling.FillZero | bot.py:86 | `fillna(0)` keeps every defined cell and puts 0 in every NaN cell |
| Rolling.RollingSumDefinedIff | bot.py:80-82 | a rolling sum is defined exactly when the window is full and holds no NaN, and then equals the sum of that window |
| Rolling.RollingSumOfLift | bot.py:88 | on a column without NaN the rolling value is defined exactly from row `w−1` on |
| Rolling.RollingSumWarmUp | bot.py:80-86 | when the first `k` cells are NaN, the rolling sum is undefined on rows before `k + w − 1`; with `k = 0` this is the `w − 1`-row warm-up |
| Rolling.LiftedRollingSumDefined | bot.py:88-93 | column form of the previous row: a NaN-free column's rolling sum is defined exactly from row `w−1` on |
| Rolling.RollingMeanOfConstant | bot.py:88 | the rolling mean of a full window of one value is that value |
| Rolling.BackFillColumn | bot.py:93 | the backward fill, run from the last row to the first, yields exactly the specified filled column |
| Rolling.BackFill | bot.py:93 | `bfill` keeps every defined cell; a filled cell holds a value found at or after its row, and a cell stays NaN only when nothing at or after it is defined |
| Rolling.BackFillTakesFirstDefined | bot.py:93 | a filled cell takes the first defined value at or after its row |
| Rolling.BackFillOfUndefined | bot.py:93 | a column with no defined value stays undefined after the fill |
| Indicators.Ups | bot.py:63-64 | the positive part of each close-to-close change, one per move, never negative |
| Indicators.Downs | bot.py:63-65 | the magnitude of each fall, one per move, never negative |
| Indicators.MacdColumn | bot.py:58-60 | MACD is the 12-span average minus the 26-span average on every row, and 0 on row 0, where both start at the first close |
| Indicators.MacdSignalColumn | bot.py:61 | the signal line starts at 0 and each later row moves towards that row's MACD by the 9-span factor |
| Indicators.RsiFromAverages | bot.py:68-70 | row 0, which has no average yet, is 50; every RSI cell lies in [0, 100) |
| Indicators.RsiColumn | bot.py:63-70 | one RSI per close, 50 on row 0, every cell in [0, 100) |
| Indicators.RsiValue | bot.py:68-70 | a zero down-average gives 50; otherwise the RSI is 100·up/(up+down); always in [0, 100) |
| Indicators.TrueRangeAt | bot.py:72-75 | TR is at least high−low and, from row 1 on, at least both gaps to the previous close, and equals one of them; row 0 has only high−low because the shifted terms are NaN |
| Indicators.PlusDmAt | bot.py:76-77 | +dm is non-negative; it is positive exactly when the up move beats the down move and is positive, and then equals the up move; row 0 gives 0 |
| Indicators.MinusDmAt | bot.py:78-79 | −dm is non-negative; it is positive exactly when the down move beats the up move and is positive, and then equals the down move |
| Indicators.TrColumn | bot.py:72-75 | every TR cell is at least high−low and, from row 1 on, at least both gaps to the previous close |
| Indicators.PlusDmColumn | bot.py:76-77 | the +dm column is never negative, 0 on row 0, and positive only where the up move beats the down move, where it equals the up move |
| Indicators.MinusDmColumn | bot.py:78-79 | the −dm column is never negative, 0 on row 0, and positive only where the down move beats the up move, where it equals the down move |
| Indicators.TrSum | bot.py:80 | the rolling TR sum is defined exactly from row `w−1` on |
| Indicators.PlusDmSum | bot.py:81 | the rolling +dm sum is defined exactly from row `w−1` on and never negative |
| Indicators.MinusDmSum | bot.py:82 | the rolling −dm sum is defined exactly from row `w−1` on and never negative |
| Indicators.PlusDiColumn | bot.py:83 | +di is defined exactly from row `w−1` on where the TR sum is not 0 (a zero sum becomes NaN); it is never negative where that sum is positive |
| Indicators.MinusDiColumn | bot.py:84 | −di is defined exactly from row `w−1` on where the TR sum is not 0; it is never negative where that sum is positive |
| Indicators.DxValue | bot.py:85 | DX is defined exactly when both DIs are and their sum is not 0; for non-negative DIs it lies in [0, 100] |
| Indicators.DxColumn | bot.py:80-85 | DX is undefined on the first `w−1` rows, where the rolling sums of TR are not yet defined |
| Indicators.AdxColumn | bot.py:86 | ADX is 0 on the first `2w−2` rows: DX is first defined at row `w−1`, and ADX needs `w` defined DX values |
| Indicators.StdColumn | bot.py:89 | the rolling deviation is defined exactly from row `w−1` on and only for a window of at least two rows (ddof 1); under `StdDevLaw` it is never negative |
| Indicators.UpperBand | bot.py:88-90 | the upper band is defined exactly from row `w−1` on for a window of at least two rows; under `StdDevLaw` it is never below the rolling mean |
| Indicators.LowerBand | bot.py:88-91 | the lower band is defined exactly where the upper one is; under `StdDevLaw` it is never above the rolling mean |
| Indicators.VolMaColumn | bot.py:93 | from row `w−1` on, every volume average is defined and equals its own window's mean; the back-fill changes only the earlier rows |
| Indicators.SnapshotAt | bot.py:124-125 | row `t` carries candle `t`'s close and volume, an RSI in [0, 100), an ADX of 0 during the `2w−2`-row warm-up, both bands defined exactly once the Bollinger window is full (and at least two rows), and a volume average once the volume window is full |
| Indicators.ComputeMacd | bot.py:58-61 | MACD is the difference of the 12- and 26-span averages, and the signal line is the 9-span average of MACD |
| Indicators.ComputeRsi | bot.py:63-70 | the two Wilder averages of ups and downs, combined and filled, give exactly the specified RSI column |
| Indicators.ComputeAdx | bot.py:72-86 | TR, ±dm, their rolling sums, ±di, DX and ADX each equal their specified column |
| Indicators.ComputeBands | bot.py:88-91 | the bands are the rolling mean plus and minus twice the rolling deviation |
| Indicators.ComputeVolumeAverage | bot.py:93 | the volume average is the rolling mean, back-filled |
| Indicators.Frame.constructor | bot.py:123 | a new frame holds the fetched candles and no derived column yet |
| Indicators.Frame.Latest | bot.py:125 | `iloc[-1]`: the last candle's close and volume together with the last cell of every indicator column |
| Indicators.Frame.ComputeIndicators | bot.py:54-94 | every derived column of the frame is written in place, one cell per candle, each equal to its specified column; the last row equals the snapshot of the last candle |
| Indicators.Frame.AddTrendColumns | bot.py:55-61 | writes the two EMA columns, MACD and its signal line |
| Indicators.Frame.AddRsiColumn | bot.py:63-70 | writes the RSI column |
| Indicators.Frame.AddAdxColumns | bot.py:72-86 | writes TR, ±dm, their sums, ±di, DX and ADX |
| Indicators.Frame.AddBandColumns | bot.py:88-91 | writes the two Bollinger bands |
| Indicators.Frame.AddVolumeColumn | bot.py:93 | writes the back-filled volume average |
| Signals.Evaluate | bot.py:96-116 | BUY exactly when all six buy predicates hold; SELL exactly when all six sell predicates hold; NEUTRAL whenever ADX is below the threshold or the volume check fails; NEUTRAL whenever the EMAs or MACD and its signal are equal |
| Signals.BuyChecks | bot.py:97-112 | six checks in the order `all` sees them; the EMA check needs distinct EMAs, and the volume and upper-band checks are false on a NaN volume average or band, which makes the whole list fail |
| Signals.SellChecks | bot.py:98-114 | six checks in the order `all` sees them; the EMA check needs distinct EMAs, and the volume and lower-band checks are false on a NaN volume average or band, which makes the whole list fail |
| Signals.BuyVeto | bot.py:97-113 | failing any single buy predicate while the other five hold gives NEUTRAL |
| Signals.SellVeto | bot.py:97-115 | failing any single sell predicate while the other five hold gives NEUTRAL |
| Signals.BuyAndSellExclusive | bot.py:97-115 | the buy and sell conjunctions never hold together, so the order of the two tests does not matter |
| IndicatorFacts.TrendOfFlatCloses | bot.py:55-61 | on constant closes both EMAs equal the close, and MACD and its signal are 0 |
| IndicatorFacts.RsiCell | bot.py:63-70 | RSI is 50 on row 0 and wherever the down-average is 0; otherwise it is 100·up/(up+down); always in [0, 100) |
| IndicatorFacts.RsiWithoutDownMoves | bot.py:63-70 | a series that never falls has RSI 50 on every row |
| IndicatorFacts.DirectionalMovement | bot.py:72-79 | on every row +dm ≥ 0 and −dm ≥ 0, they are never both positive, and TR ≥ high − low |
| IndicatorFacts.DxDefinedIff | bot.py:80-85 | DX is defined exactly when the window is full, ΣTR ≠ 0 and Σ+dm + Σ−dm ≠ 0 |
| IndicatorFacts.AdxZeroOnUndefinedDx | bot.py:85-86 | ADX is 0 on any row whose trailing window holds an undefined DX |
| IndicatorFacts.BandsOrdered | bot.py:88-91 | both bands are defined exactly from row `w−1` on (never for a one-row window), and the upper band is never below the lower one |
| IndicatorFacts.BandsOfFlatWindow | bot.py:88-91 | on a full window of equal closes both bands equal the close |
| IndicatorFacts.VolumeAverageBackFilled | bot.py:93 | once there are `w` rows every volume average is defined: the row's own window mean from row `w−1` on, the first full-window mean before it; with fewer rows none is defined |
| IndicatorFacts.LastRowDefined | bot.py:88-93 | a series at least as long as the Bollinger and volume windows has a last row with both bands and the volume average defined |
| IndicatorFacts.ShippedSettingsDefineLastRow | bot.py:12-25 | with the shipped constants, a full fetch of `LIMIT` candles has a last row with both bands and the volume average defined, and that row lies past ADX's warm-up |
| IndicatorFacts.FlatSeriesIsNeutral | bot.py:54-116 | on a flat close series the last row has equal EMAs at the close, MACD = signal = 0 and RSI 50, with both full-window bands at the close, and is classified NEUTRAL |
| Causality.EmaPrefix | bot.py:55-56 | the average of the first `n` closes is the first `n` rows of the average |
| Causality.RollingSumPrefix | bot.py:80-82 | the rolling sum and mean of the first `n` cells are the first `n` rows of the rolling sum and mean |
| Causality.MacdPrefix | bot.py:58-61 | MACD and its signal line on the first `n` closes are the first `n` rows of the full columns |
| Causality.RsiPrefix | bot.py:63-70 | the RSI of the first `n` closes is the first `n` rows of the RSI |
| Causality.AdxPrefix | bot.py:72-86 | DX and ADX on the first `n` candles are the first `n` rows of the full columns |
| Causality.BandsPrefix | bot.py:88-91 | both bands on the first `n` closes are the first `n` rows of the full bands |
| Causality.VolumeAveragePrefix | bot.py:93 | from row `w−1` on, the volume average ignores the volumes after its row |
| Causality.VolumeAverageLooksAhead | bot.py:93 | with window 2, volumes [1, 3] give row 0 an average of 2 while the volume [1] alone gives none: the back-fill reads a later row |
| Causality.NoLookahead | bot.py:54-94 | row `t` is the same whether the candles stop at `t` or go on, for every indicator; the volume average is included once row `t` fills its window |
| Consensus.Consensus | bot.py:129-134 | BUY exactly when every signal is BUY (an empty list included); SELL exactly when there is a signal and every one is SELL; NEUTRAL exactly when some signal is not BUY and some is not SELL |
| Consensus.OneDissentIsNeutral | bot.py:129-134 | one NEUTRAL timeframe, or a BUY beside a SELL, makes the consensus NEUTRAL |
| Consensus.Collect | bot.py:121-128 | a successful loop yields one signal per timeframe; a failed one reports the error of one of the timeframes |
| Consensus.CollectOrder | bot.py:121-128 | the loop yields one signal per timeframe, in order, exactly when no timeframe fails; otherwise it yields the error of the first failing timeframe |
| Consensus.FailureStops | bot.py:121-126 | once a timeframe fails, later timeframes do not change the outcome |
| Consensus.TimeframeSignal | bot.py:122-126 | a timeframe fails with FetchFailed exactly when the request raises, and with NoCandles exactly when it returns no candles; otherwise its signal is the classification of the last row |
| Consensus.EvaluateTimeframe | bot.py:122-126 | fetching, computing the frame, taking the last row and classifying yields that timeframe's signal; a raised fetch or an empty frame is a failure |
| Consensus.AnalyzeSymbol | bot.py:118-134 | fails exactly when some timeframe fails, with the first failure; otherwise the overall signal is the consensus of the per-timeframe signals in order, `per_tf` has exactly the configured timeframes as keys, and each entry is that timeframe's own signal |
| Consensus.FlatTimeframeIsNeutral | bot.py:123-126 | a flat, non-empty fetch makes that timeframe NEUTRAL |
| Consensus.FlatMarketIsNeutral | bot.py:118-134 | when every timeframe's series is flat (100 candles at close 100, for one), every timeframe is NEUTRAL and so is the consensus |

## Left out

- Fetching candles (bot.py:36-52) is not part of this model: HTTP, JSON
  and DataFrame construction are network I/O. The request is the
  parameter `fetch`, and `None` stands for any exception it raises.
  `fetch` is a function, so the model assumes that repeating a request
  within one analysis gives the same answer.
- The pause before each request (bot.py:122), the polling loop, the
  message formatting and the Telegram delivery (bot.py:136-150) are
  scheduling and I/O. The symbol list and `TEST_MODE` only drive that
  loop.
- Values are exact reals. IEEE rounding is not modelled.
- Indicators.StdColumn: the rolling sample deviation (bot.py:89, ddof 1)
  is not computed. It is the parameter `sd`. Lemmas about the bands
  assume only `StdDevLaw`: non-negative, and zero on a constant window.
  Its definedness (a full window, and at least two rows) is modelled.
- Indicators.Frame.ComputeIndicators: the scratch columns `tr0`, `tr1`
  and `tr2` (bot.py:72-74) are not stored in the frame. Their maximum,
  `TR`, is stored.
- Indicators.Frame.ComputeIndicators: the pandas copy-on-write question
  is not modelled, i.e. whether the chained `fillna(50, inplace=True)`
  (bot.py:70) writes back. The model writes the filled RSI column.
- Consensus.AnalyzeSymbol: `perTimeframe` is a map, so the insertion
  order of the Python dict is not kept. The ordered list of signals is
  kept, and it feeds the consensus.
- The `ewm` NaN handling is modelled only for the leading NaN of the
  RSI's `diff()`. No other averaged column has NaN cells.
- Smoothing.EmaColumn, Rolling.RollingSumColumn and
  Rolling.BackFillColumn build their result in a fresh array and return
  it as a sequence. The frame then replaces its column with that
  sequence, so no array is shared between columns.
