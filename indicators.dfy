/**
 * The indicator engine, `compute_indicators` (bot.py:54-94): from a
 * window of candles it derives, row by row, the columns the classifier
 * reads. Each column is specified here as a function of the candles; the
 * class `Frame` below is the DataFrame the bot fills in place.
 *
 * A cell pandas leaves as NaN is `None`. The rolling standard deviation
 * is not computed: it is a parameter `sd` that maps a window of closes to
 * a number, and `StdDevLaw` says what is assumed of it.
 */
module Indicators {
  import opened Wrappers
  import opened Config
  import opened Smoothing
  import opened Rolling

  /** One OHLCV sample, as the fetch turns it into floats. */
  datatype Candle = Candle(openTime: int, open: real, high: real, low: real, close: real, volume: real)

  function Closes(c: seq<Candle>): (r: seq<real>)
    ensures |r| == |c|
  {
    seq(|c|, i requires 0 <= i < |c| => c[i].close)
  }

  function Volumes(c: seq<Candle>): (r: seq<real>)
    ensures |r| == |c|
  {
    seq(|c|, i requires 0 <= i < |c| => c[i].volume)
  }

  function Abs(x: real): real {
    if x < 0.0 then -x else x
  }

  function Max(a: real, b: real): real {
    if a < b then b else a
  }

  // ---------------------------------------------------------------- MACD

  /** Element-wise difference of two columns of the same length. */
  function Difference(a: seq<real>, b: seq<real>): (r: seq<real>)
    requires |a| == |b|
    ensures |r| == |a|
  {
    seq(|a|, i requires 0 <= i < |a| => a[i] - b[i])
  }

  /** The fast EMA minus the slow one; both start at the first close, so row 0 is 0. */
  function MacdColumn(closes: seq<real>, p: Params): (r: seq<real>)
    requires Valid(p)
    ensures |r| == |closes|
    ensures |closes| > 0 ==> r[0] == 0.0
    ensures forall t :: 0 <= t < |r| ==>
      r[t] == Ema(closes, SpanAlpha(p.macdFast))[t] - Ema(closes, SpanAlpha(p.macdSlow))[t]
  {
    Difference(Ema(closes, SpanAlpha(p.macdFast)), Ema(closes, SpanAlpha(p.macdSlow)))
  }

  /** The EMA of the MACD column; it too starts at 0. */
  function MacdSignalColumn(closes: seq<real>, p: Params): (r: seq<real>)
    requires Valid(p)
    ensures |r| == |closes|
    ensures |closes| > 0 ==> r[0] == 0.0
    ensures forall t :: 0 < t < |r| ==>
      r[t] == Mix(SpanAlpha(p.macdSignal), MacdColumn(closes, p)[t], r[t - 1])
  {
    Ema(MacdColumn(closes, p), SpanAlpha(p.macdSignal))
  }

  // ---------------------------------------------------------------- RSI

  /** `diff().clip(lower=0)` without its leading NaN: the rise into row i + 1. */
  function Ups(xs: seq<real>): (r: seq<real>)
    ensures |r| == if |xs| == 0 then 0 else |xs| - 1
    ensures forall i :: 0 <= i < |r| ==> r[i] >= 0.0
  {
    seq(if |xs| == 0 then 0 else |xs| - 1, i requires 0 <= i < |xs| - 1 => Max(xs[i + 1] - xs[i], 0.0))
  }

  /** `-1 * diff().clip(upper=0)` without its leading NaN: the fall into row i + 1. */
  function Downs(xs: seq<real>): (r: seq<real>)
    ensures |r| == if |xs| == 0 then 0 else |xs| - 1
    ensures forall i :: 0 <= i < |r| ==> r[i] >= 0.0
  {
    seq(if |xs| == 0 then 0 else |xs| - 1, i requires 0 <= i < |xs| - 1 => Max(xs[i] - xs[i + 1], 0.0))
  }

  /**
   * `100 - 100 / (1 + up / down)` where a zero `down` is replaced by NaN
   * and the NaN result is then filled with 50.
   */
  function RsiValue(up: real, down: real): (r: real)
    requires up >= 0.0 && down >= 0.0
    ensures down == 0.0 ==> r == 50.0
    ensures down > 0.0 ==> r == 100.0 * up / (up + down)
    ensures 0.0 <= r < 100.0
  {
    if down == 0.0 then 50.0 else 100.0 - 100.0 / (1.0 + up / down)
  }

  /** Row 0 has no average yet (NaN, filled with 50); row t + 1 uses the averages after t moves. */
  function RsiFromAverages(maUp: seq<real>, maDown: seq<real>): (r: seq<real>)
    requires |maUp| == |maDown|
    requires forall i :: 0 <= i < |maUp| ==> maUp[i] >= 0.0 && maDown[i] >= 0.0
    ensures |r| == |maUp| + 1
    ensures r[0] == 50.0
    ensures forall t :: 0 <= t < |r| ==> 0.0 <= r[t] < 100.0
  {
    [50.0] + seq(|maUp|, i requires 0 <= i < |maUp| => RsiValue(maUp[i], maDown[i]))
  }

  /** The RSI column for closes `xs` and Wilder window `w` (bot.py:63-70). */
  function RsiColumn(xs: seq<real>, w: nat): (r: seq<real>)
    requires w >= 1
    ensures |r| == |xs|
    ensures |xs| > 0 ==> r[0] == 50.0
    ensures forall t :: 0 <= t < |r| ==> 0.0 <= r[t] < 100.0
  {
    if |xs| == 0 then []
    else
      var maUp := Ema(Ups(xs), WilderAlpha(w));
      var maDown := Ema(Downs(xs), WilderAlpha(w));
      EmaColumnWithin(Ups(xs), WilderAlpha(w), 0.0, Max(0.0, MaxOf(Ups(xs))));
      EmaColumnWithin(Downs(xs), WilderAlpha(w), 0.0, Max(0.0, MaxOf(Downs(xs))));
      RsiFromAverages(maUp, maDown)
  }

  /** Largest value of a column (0 for an empty one). */
  function MaxOf(xs: seq<real>): (m: real)
    ensures forall i :: 0 <= i < |xs| ==> xs[i] <= m
  {
    if |xs| == 0 then 0.0 else Max(MaxOf(xs[..|xs| - 1]), xs[|xs| - 1])
  }

  // ---------------------------------------------------------------- ADX

  /** `max(tr0, tr1, tr2)` with NaN skipped: row 0 has only `high - low`. */
  function TrueRangeAt(c: seq<Candle>, t: nat): (r: real)
    requires t < |c|
    ensures r >= c[t].high - c[t].low
    ensures t > 0 ==> r >= Abs(c[t].high - c[t - 1].close) && r >= Abs(c[t].low - c[t - 1].close)
    ensures r == c[t].high - c[t].low ||
            (t > 0 && (r == Abs(c[t].high - c[t - 1].close) || r == Abs(c[t].low - c[t - 1].close)))
  {
    if t == 0 then c[t].high - c[t].low
    else Max(Max(c[t].high - c[t].low, Abs(c[t].high - c[t - 1].close)), Abs(c[t].low - c[t - 1].close))
  }

  /** `high - high.shift()` */
  function UpMove(c: seq<Candle>, t: nat): real
    requires 0 < t < |c|
  {
    c[t].high - c[t - 1].high
  }

  /** `low.shift() - low` */
  function DownMove(c: seq<Candle>, t: nat): real
    requires 0 < t < |c|
  {
    c[t - 1].low - c[t].low
  }

  /** `+dm`: the up move where it beats the down move; 0 on row 0, where the comparison meets NaN. */
  function PlusDmAt(c: seq<Candle>, t: nat): (r: real)
    requires t < |c|
    ensures r >= 0.0
    ensures r > 0.0 <==> t > 0 && UpMove(c, t) > DownMove(c, t) && UpMove(c, t) > 0.0
    ensures r > 0.0 ==> r == UpMove(c, t)
  {
    if t > 0 && UpMove(c, t) > DownMove(c, t) then Max(UpMove(c, t), 0.0) else 0.0
  }

  /** `-dm`: the down move where it beats the up move. */
  function MinusDmAt(c: seq<Candle>, t: nat): (r: real)
    requires t < |c|
    ensures r >= 0.0
    ensures r > 0.0 <==> t > 0 && DownMove(c, t) > UpMove(c, t) && DownMove(c, t) > 0.0
    ensures r > 0.0 ==> r == DownMove(c, t)
  {
    if t > 0 && DownMove(c, t) > UpMove(c, t) then Max(DownMove(c, t), 0.0) else 0.0
  }

  /** The true range: at least the candle's own range, and at least each gap from the previous close. */
  function TrColumn(c: seq<Candle>): (r: seq<real>)
    ensures |r| == |c|
    ensures forall t :: 0 <= t < |r| ==> r[t] >= c[t].high - c[t].low
    ensures forall t :: 0 < t < |r| ==>
      r[t] >= Abs(c[t].high - c[t - 1].close) && r[t] >= Abs(c[t].low - c[t - 1].close)
  {
    seq(|c|, t requires 0 <= t < |c| => TrueRangeAt(c, t))
  }

  /** `+dm`: never negative, 0 on row 0, positive only where the up move wins. */
  function PlusDmColumn(c: seq<Candle>): (r: seq<real>)
    ensures |r| == |c|
    ensures forall t :: 0 <= t < |r| ==> r[t] >= 0.0
    ensures |c| > 0 ==> r[0] == 0.0
    ensures forall t :: 0 < t < |r| && r[t] > 0.0 ==>
      r[t] == UpMove(c, t) && UpMove(c, t) > DownMove(c, t)
  {
    seq(|c|, t requires 0 <= t < |c| => PlusDmAt(c, t))
  }

  /** `-dm`: never negative, 0 on row 0, positive only where the down move wins. */
  function MinusDmColumn(c: seq<Candle>): (r: seq<real>)
    ensures |r| == |c|
    ensures forall t :: 0 <= t < |r| ==> r[t] >= 0.0
    ensures |c| > 0 ==> r[0] == 0.0
    ensures forall t :: 0 < t < |r| && r[t] > 0.0 ==>
      r[t] == DownMove(c, t) && DownMove(c, t) > UpMove(c, t)
  {
    seq(|c|, t requires 0 <= t < |c| => MinusDmAt(c, t))
  }

  /** `100 * (num / den.replace(0, nan))` */
  function Percent(num: Option<real>, den: Option<real>): (r: Option<real>)
    ensures r.Some? <==> num.Some? && den.Some? && den.value != 0.0
    ensures r.Some? && num.value >= 0.0 && den.value > 0.0 ==> r.value >= 0.0
  {
    if num.Some? && den.Some? && den.value != 0.0 then Some(100.0 * (num.value / den.value)) else None
  }

  function PercentColumn(nums: seq<Option<real>>, dens: seq<Option<real>>): (r: seq<Option<real>>)
    requires |nums| == |dens|
    ensures |r| == |nums|
    ensures forall t :: 0 <= t < |r| ==> r[t] == Percent(nums[t], dens[t])
  {
    seq(|nums|, t requires 0 <= t < |nums| => Percent(nums[t], dens[t]))
  }

  /** Rolling sum of the true range: defined exactly from row `w - 1` on. */
  function TrSum(c: seq<Candle>, w: nat): (r: seq<Option<real>>)
    requires w >= 1
    ensures |r| == |c|
    ensures forall t :: 0 <= t < |r| ==> (r[t].Some? <==> t + 1 >= w)
  {
    LiftedRollingSumDefined(TrColumn(c), w);
    RollingSum(Lift(TrColumn(c)), w)
  }

  /** Rolling sum of `+dm`: defined exactly from row `w - 1` on, and never negative. */
  function PlusDmSum(c: seq<Candle>, w: nat): (r: seq<Option<real>>)
    requires w >= 1
    ensures |r| == |c|
    ensures forall t :: 0 <= t < |r| ==> (r[t].Some? <==> t + 1 >= w)
    ensures forall t :: 0 <= t < |r| && r[t].Some? ==> r[t].value >= 0.0
  {
    LiftedRollingSumDefined(PlusDmColumn(c), w);
    RollingSumNonNegative(Lift(PlusDmColumn(c)), w);
    RollingSum(Lift(PlusDmColumn(c)), w)
  }

  /** Rolling sum of `-dm`: defined exactly from row `w - 1` on, and never negative. */
  function MinusDmSum(c: seq<Candle>, w: nat): (r: seq<Option<real>>)
    requires w >= 1
    ensures |r| == |c|
    ensures forall t :: 0 <= t < |r| ==> (r[t].Some? <==> t + 1 >= w)
    ensures forall t :: 0 <= t < |r| && r[t].Some? ==> r[t].value >= 0.0
  {
    LiftedRollingSumDefined(MinusDmColumn(c), w);
    RollingSumNonNegative(Lift(MinusDmColumn(c)), w);
    RollingSum(Lift(MinusDmColumn(c)), w)
  }

  /**
   * `+di`: defined from row `w - 1` on wherever the true-range sum is not 0
   * (a zero sum is replaced by NaN), and never negative where that sum is positive.
   */
  function PlusDiColumn(c: seq<Candle>, w: nat): (r: seq<Option<real>>)
    requires w >= 1
    ensures |r| == |c|
    ensures forall t :: 0 <= t < |r| ==>
      (r[t].Some? <==> t + 1 >= w && TrSum(c, w)[t].value != 0.0)
    ensures forall t :: 0 <= t < |r| && r[t].Some? && TrSum(c, w)[t].value > 0.0 ==> r[t].value >= 0.0
  {
    PercentColumn(PlusDmSum(c, w), TrSum(c, w))
  }

  /** `-di`, on the same terms as `+di`. */
  function MinusDiColumn(c: seq<Candle>, w: nat): (r: seq<Option<real>>)
    requires w >= 1
    ensures |r| == |c|
    ensures forall t :: 0 <= t < |r| ==>
      (r[t].Some? <==> t + 1 >= w && TrSum(c, w)[t].value != 0.0)
    ensures forall t :: 0 <= t < |r| && r[t].Some? && TrSum(c, w)[t].value > 0.0 ==> r[t].value >= 0.0
  {
    PercentColumn(MinusDmSum(c, w), TrSum(c, w))
  }

  /**
   * `100 * |+di - -di| / (+di + -di).replace(0, nan)`: defined when both
   * are and their sum is not 0; between 0 and 100 when neither is negative.
   */
  function DxValue(plusDi: Option<real>, minusDi: Option<real>): (r: Option<real>)
    ensures r.Some? <==> plusDi.Some? && minusDi.Some? && plusDi.value + minusDi.value != 0.0
    ensures r.Some? && plusDi.value >= 0.0 && minusDi.value >= 0.0 ==> 0.0 <= r.value <= 100.0
  {
    if plusDi.Some? && minusDi.Some? && plusDi.value + minusDi.value != 0.0
    then
      SpreadWithinSum(plusDi.value, minusDi.value);
      Some(100.0 * Abs(plusDi.value - minusDi.value) / (plusDi.value + minusDi.value))
    else None
  }

  /** Two non-negative numbers differ by at most their sum. */
  lemma SpreadWithinSum(a: real, b: real)
    requires a + b != 0.0
    ensures a >= 0.0 && b >= 0.0 ==> 0.0 <= 100.0 * Abs(a - b) / (a + b) <= 100.0
  {
  }

  function DxFromDi(plusDi: seq<Option<real>>, minusDi: seq<Option<real>>): (r: seq<Option<real>>)
    requires |plusDi| == |minusDi|
    ensures |r| == |plusDi|
  {
    seq(|plusDi|, t requires 0 <= t < |plusDi| => DxValue(plusDi[t], minusDi[t]))
  }

  function DxColumn(c: seq<Candle>, w: nat): (r: seq<Option<real>>)
    requires w >= 1
    ensures |r| == |c|
    ensures forall t :: 0 <= t < |r| && t + 1 < w ==> r[t].None?
  {
    RollingSumWarmUp(Lift(TrColumn(c)), w, 0);
    DxFromDi(PlusDiColumn(c, w), MinusDiColumn(c, w))
  }

  /**
   * `DX.rolling(w).mean().fillna(0)`. DX itself is undefined on its first
   * `w - 1` rows, so ADX is 0 on the first `2w - 2` rows.
   */
  function AdxColumn(c: seq<Candle>, w: nat): (r: seq<real>)
    requires w >= 1
    ensures |r| == |c|
    ensures forall t :: 0 <= t < |r| && t + 2 < w + w ==> r[t] == 0.0
  {
    RollingSumWarmUp(DxColumn(c, w), w, w - 1);
    FillZero(RollingMean(DxColumn(c, w), w))
  }

  // ---------------------------------------------------------------- Bollinger

  predicate Flat(w: seq<real>) {
    forall i :: 0 <= i < |w| ==> w[i] == w[0]
  }

  /** What the model assumes of the rolling standard deviation it does not compute. */
  ghost predicate StdDevLaw(sd: seq<real> -> real) {
    forall w :: sd(w) >= 0.0 && (Flat(w) ==> sd(w) == 0.0)
  }

  /** `rolling(w).std()`: sample deviation, NaN before the window fills and for w = 1 (ddof = 1). */
  function StdColumn(xs: seq<real>, w: nat, sd: seq<real> -> real): (r: seq<Option<real>>)
    ensures |r| == |xs|
    ensures forall t :: 0 <= t < |r| ==> (r[t].Some? <==> w >= 2 && t + 1 >= w)
    ensures StdDevLaw(sd) ==> forall t :: 0 <= t < |r| && r[t].Some? ==> r[t].value >= 0.0
  {
    seq(|xs|, t requires 0 <= t < |xs| =>
      if w >= 2 && t + 1 >= w then Some(sd(xs[t + 1 - w..t + 1])) else None)
  }

  /** `mid + k * std`, NaN where either is NaN. */
  function Band(mid: seq<Option<real>>, std: seq<Option<real>>, k: real): (r: seq<Option<real>>)
    requires |mid| == |std|
    ensures |r| == |mid|
  {
    seq(|mid|, t requires 0 <= t < |mid| =>
      if mid[t].Some? && std[t].Some? then Some(mid[t].value + k * std[t].value) else None)
  }

  /** The upper band: defined once a window of at least two rows is full, and never below the mean. */
  function UpperBand(xs: seq<real>, w: nat, sd: seq<real> -> real): (r: seq<Option<real>>)
    requires w >= 1
    ensures |r| == |xs|
    ensures forall t :: 0 <= t < |r| ==> (r[t].Some? <==> w >= 2 && t + 1 >= w)
    ensures StdDevLaw(sd) ==> forall t :: 0 <= t < |r| && r[t].Some? ==>
      RollingMean(Lift(xs), w)[t].Some? && r[t].value >= RollingMean(Lift(xs), w)[t].value
  {
    LiftedRollingSumDefined(xs, w);
    Band(RollingMean(Lift(xs), w), StdColumn(xs, w, sd), 2.0)
  }

  /** The lower band: defined where the upper one is, and never above the mean. */
  function LowerBand(xs: seq<real>, w: nat, sd: seq<real> -> real): (r: seq<Option<real>>)
    requires w >= 1
    ensures |r| == |xs|
    ensures forall t :: 0 <= t < |r| ==> (r[t].Some? <==> w >= 2 && t + 1 >= w)
    ensures StdDevLaw(sd) ==> forall t :: 0 <= t < |r| && r[t].Some? ==>
      RollingMean(Lift(xs), w)[t].Some? && r[t].value <= RollingMean(Lift(xs), w)[t].value
  {
    LiftedRollingSumDefined(xs, w);
    Band(RollingMean(Lift(xs), w), StdColumn(xs, w, sd), -2.0)
  }

  // ---------------------------------------------------------------- volume

  /** `volume.rolling(w).mean().fillna(method="bfill")` */
  function VolMaColumn(volumes: seq<real>, w: nat): (r: seq<Option<real>>)
    requires w >= 1
    ensures |r| == |volumes|
    ensures forall t :: 0 <= t < |r| && t + 1 >= w ==>
      r[t].Some? && r[t] == RollingMean(Lift(volumes), w)[t]
  {
    LiftedRollingSumDefined(volumes, w);
    BackFill(RollingMean(Lift(volumes), w))
  }

  // ---------------------------------------------------------------- one row

  /** The row `df.iloc[-1]` hands to the classifier. */
  datatype Snapshot = Snapshot(
    close: real, volume: real,
    emaFast: real, emaSlow: real,
    macd: real, macdSignal: real,
    rsi: real, adx: real,
    bbUpper: Option<real>, bbLower: Option<real>,
    volMa: Option<real>)

  /** Row `t` of the indicator frame computed from candles `c`. */
  function SnapshotAt(c: seq<Candle>, p: Params, sd: seq<real> -> real, t: nat): (s: Snapshot)
    requires Valid(p) && t < |c|
    ensures s.close == c[t].close && s.volume == c[t].volume
    ensures 0.0 <= s.rsi < 100.0
    ensures t + 2 < p.adxWindow + p.adxWindow ==> s.adx == 0.0
    ensures s.bbUpper.Some? <==> p.bbWindow >= 2 && t + 1 >= p.bbWindow
    ensures s.bbLower.Some? <==> p.bbWindow >= 2 && t + 1 >= p.bbWindow
    ensures t + 1 >= p.volWindow ==> s.volMa.Some?
  {
    LiftedRollingSumDefined(Closes(c), p.bbWindow);
    var closes := Closes(c);
    Snapshot(
      c[t].close, c[t].volume,
      Ema(closes, SpanAlpha(p.emaFast))[t], Ema(closes, SpanAlpha(p.emaSlow))[t],
      MacdColumn(closes, p)[t], MacdSignalColumn(closes, p)[t],
      RsiColumn(closes, p.rsiWindow)[t], AdxColumn(c, p.adxWindow)[t],
      UpperBand(closes, p.bbWindow, sd)[t], LowerBand(closes, p.bbWindow, sd)[t],
      VolMaColumn(Volumes(c), p.volWindow)[t])
  }

  // ---------------------------------------------------------------- the frame

  /** The DataFrame of one fetch; `ComputeIndicators` adds its derived columns in place. */
  class Frame {
    const candles: seq<Candle>
    var emaFast: seq<real>
    var emaSlow: seq<real>
    var macd: seq<real>
    var macdSignal: seq<real>
    var rsi: seq<real>
    var tr: seq<real>
    var plusDm: seq<real>
    var minusDm: seq<real>
    var trSum: seq<Option<real>>
    var plusDmSum: seq<Option<real>>
    var minusDmSum: seq<Option<real>>
    var plusDi: seq<Option<real>>
    var minusDi: seq<Option<real>>
    var dx: seq<Option<real>>
    var adx: seq<real>
    var bbUpper: seq<Option<real>>
    var bbLower: seq<Option<real>>
    var volMa: seq<Option<real>>

    /** Every derived column has one cell per candle. */
    predicate Shaped()
      reads this
    {
      var n := |candles|;
      && |emaFast| == n && |emaSlow| == n && |macd| == n && |macdSignal| == n && |rsi| == n
      && |tr| == n && |plusDm| == n && |minusDm| == n
      && |trSum| == n && |plusDmSum| == n && |minusDmSum| == n
      && |plusDi| == n && |minusDi| == n && |dx| == n && |adx| == n
      && |bbUpper| == n && |bbLower| == n && |volMa| == n
    }

    constructor (candles: seq<Candle>)
      ensures this.candles == candles
      ensures emaFast == emaSlow == macd == macdSignal == rsi == []
      ensures tr == plusDm == minusDm == adx == []
      ensures trSum == plusDmSum == minusDmSum == plusDi == minusDi == dx == []
      ensures bbUpper == bbLower == volMa == []
    {
      this.candles := candles;
      emaFast, emaSlow, macd, macdSignal, rsi := [], [], [], [], [];
      tr, plusDm, minusDm := [], [], [];
      trSum, plusDmSum, minusDmSum, plusDi, minusDi, dx := [], [], [], [], [], [];
      adx, bbUpper, bbLower, volMa := [], [], [], [];
    }

    /** `df.iloc[-1]` */
    function Latest(): (s: Snapshot)
      reads this
      requires Shaped() && |candles| > 0
      ensures s.close == candles[|candles| - 1].close && s.volume == candles[|candles| - 1].volume
      ensures s.emaFast == emaFast[|emaFast| - 1] && s.emaSlow == emaSlow[|emaSlow| - 1]
      ensures s.macd == macd[|macd| - 1] && s.macdSignal == macdSignal[|macdSignal| - 1]
      ensures s.rsi == rsi[|rsi| - 1] && s.adx == adx[|adx| - 1]
      ensures s.bbUpper == bbUpper[|bbUpper| - 1] && s.bbLower == bbLower[|bbLower| - 1]
      ensures s.volMa == volMa[|volMa| - 1]
    {
      var t := |candles| - 1;
      Snapshot(candles[t].close, candles[t].volume, emaFast[t], emaSlow[t], macd[t], macdSignal[t],
               rsi[t], adx[t], bbUpper[t], bbLower[t], volMa[t])
    }

    /** `compute_indicators(df)`: writes every derived column of the frame. */
    method ComputeIndicators(p: Params, sd: seq<real> -> real)
      requires Valid(p)
      modifies this
      ensures Shaped()
      ensures emaFast == Ema(Closes(candles), SpanAlpha(p.emaFast))
      ensures emaSlow == Ema(Closes(candles), SpanAlpha(p.emaSlow))
      ensures macd == MacdColumn(Closes(candles), p)
      ensures macdSignal == MacdSignalColumn(Closes(candles), p)
      ensures rsi == RsiColumn(Closes(candles), p.rsiWindow)
      ensures tr == TrColumn(candles)
      ensures plusDm == PlusDmColumn(candles) && minusDm == MinusDmColumn(candles)
      ensures trSum == TrSum(candles, p.adxWindow)
      ensures plusDmSum == PlusDmSum(candles, p.adxWindow)
      ensures minusDmSum == MinusDmSum(candles, p.adxWindow)
      ensures plusDi == PlusDiColumn(candles, p.adxWindow)
      ensures minusDi == MinusDiColumn(candles, p.adxWindow)
      ensures dx == DxColumn(candles, p.adxWindow)
      ensures adx == AdxColumn(candles, p.adxWindow)
      ensures bbUpper == UpperBand(Closes(candles), p.bbWindow, sd)
      ensures bbLower == LowerBand(Closes(candles), p.bbWindow, sd)
      ensures volMa == VolMaColumn(Volumes(candles), p.volWindow)
      ensures |candles| > 0 ==> Latest() == SnapshotAt(candles, p, sd, |candles| - 1)
    {
      hide Ema, MacdColumn, MacdSignalColumn, RsiColumn, TrColumn, PlusDmColumn, MinusDmColumn;
      hide TrSum, PlusDmSum, MinusDmSum, PlusDiColumn, MinusDiColumn, DxColumn, AdxColumn;
      hide UpperBand, LowerBand, VolMaColumn;
      AddTrendColumns(p);
      AddRsiColumn(p);
      AddAdxColumns(p);
      AddBandColumns(p, sd);
      AddVolumeColumn(p);
    }

    /** bot.py:55-61 */
    method AddTrendColumns(p: Params)
      requires Valid(p)
      modifies this`emaFast, this`emaSlow, this`macd, this`macdSignal
      ensures emaFast == Ema(Closes(candles), SpanAlpha(p.emaFast))
      ensures emaSlow == Ema(Closes(candles), SpanAlpha(p.emaSlow))
      ensures macd == MacdColumn(Closes(candles), p)
      ensures macdSignal == MacdSignalColumn(Closes(candles), p)
    {
      var closes := Closes(candles);
      emaFast := EmaColumn(closes, SpanAlpha(p.emaFast));
      emaSlow := EmaColumn(closes, SpanAlpha(p.emaSlow));
      macd, macdSignal := ComputeMacd(closes, p);
    }

    /** bot.py:63-70 */
    method AddRsiColumn(p: Params)
      requires Valid(p)
      modifies this`rsi
      ensures rsi == RsiColumn(Closes(candles), p.rsiWindow)
    {
      rsi := ComputeRsi(Closes(candles), p.rsiWindow);
    }

    /** bot.py:72-86 */
    method AddAdxColumns(p: Params)
      requires Valid(p)
      modifies this`tr, this`plusDm, this`minusDm, this`trSum, this`plusDmSum, this`minusDmSum
      modifies this`plusDi, this`minusDi, this`dx, this`adx
      ensures tr == TrColumn(candles)
      ensures plusDm == PlusDmColumn(candles) && minusDm == MinusDmColumn(candles)
      ensures trSum == TrSum(candles, p.adxWindow)
      ensures plusDmSum == PlusDmSum(candles, p.adxWindow)
      ensures minusDmSum == MinusDmSum(candles, p.adxWindow)
      ensures plusDi == PlusDiColumn(candles, p.adxWindow)
      ensures minusDi == MinusDiColumn(candles, p.adxWindow)
      ensures dx == DxColumn(candles, p.adxWindow)
      ensures adx == AdxColumn(candles, p.adxWindow)
    {
      hide TrColumn, PlusDmColumn, MinusDmColumn, TrSum, PlusDmSum, MinusDmSum;
      hide PlusDiColumn, MinusDiColumn, DxColumn, AdxColumn;
      var c := candles;
      var a0, a1, a2, a3, a4, a5, a6, a7, a8, a9 := ComputeAdx(c, p.adxWindow);
      tr, plusDm, minusDm, trSum, plusDmSum, minusDmSum, plusDi, minusDi, dx, adx :=
        a0, a1, a2, a3, a4, a5, a6, a7, a8, a9;
    }

    /** bot.py:88-91 */
    method AddBandColumns(p: Params, sd: seq<real> -> real)
      requires Valid(p)
      modifies this`bbUpper, this`bbLower
      ensures bbUpper == UpperBand(Closes(candles), p.bbWindow, sd)
      ensures bbLower == LowerBand(Closes(candles), p.bbWindow, sd)
    {
      bbUpper, bbLower := ComputeBands(Closes(candles), p.bbWindow, sd);
    }

    /** bot.py:93 */
    method AddVolumeColumn(p: Params)
      requires Valid(p)
      modifies this`volMa
      ensures volMa == VolMaColumn(Volumes(candles), p.volWindow)
    {
      volMa := ComputeVolumeAverage(Volumes(candles), p.volWindow);
    }
  }

  /** bot.py:58-61 */
  method ComputeMacd(closes: seq<real>, p: Params) returns (macd: seq<real>, signal: seq<real>)
    requires Valid(p)
    ensures macd == MacdColumn(closes, p)
    ensures signal == MacdSignalColumn(closes, p)
  {
    var fast := EmaColumn(closes, SpanAlpha(p.macdFast));
    var slow := EmaColumn(closes, SpanAlpha(p.macdSlow));
    macd := Difference(fast, slow);
    signal := EmaColumn(macd, SpanAlpha(p.macdSignal));
  }

  /** bot.py:63-70 */
  method ComputeRsi(closes: seq<real>, w: nat) returns (rsi: seq<real>)
    requires w >= 1
    ensures rsi == RsiColumn(closes, w)
  {
    var maUp := EmaColumn(Ups(closes), WilderAlpha(w));
    var maDown := EmaColumn(Downs(closes), WilderAlpha(w));
    if |closes| == 0 {
      rsi := [];
    } else {
      EmaColumnWithin(Ups(closes), WilderAlpha(w), 0.0, Max(0.0, MaxOf(Ups(closes))));
      EmaColumnWithin(Downs(closes), WilderAlpha(w), 0.0, Max(0.0, MaxOf(Downs(closes))));
      rsi := RsiFromAverages(maUp, maDown);
    }
  }

  /** bot.py:72-86 */
  method ComputeAdx(c: seq<Candle>, w: nat)
    returns (tr: seq<real>, plusDm: seq<real>, minusDm: seq<real>,
             trSum: seq<Option<real>>, plusDmSum: seq<Option<real>>, minusDmSum: seq<Option<real>>,
             plusDi: seq<Option<real>>, minusDi: seq<Option<real>>, dx: seq<Option<real>>,
             adx: seq<real>)
    requires w >= 1
    ensures tr == TrColumn(c) && plusDm == PlusDmColumn(c) && minusDm == MinusDmColumn(c)
    ensures trSum == TrSum(c, w) && plusDmSum == PlusDmSum(c, w) && minusDmSum == MinusDmSum(c, w)
    ensures plusDi == PlusDiColumn(c, w) && minusDi == MinusDiColumn(c, w)
    ensures dx == DxColumn(c, w)
    ensures adx == AdxColumn(c, w)
  {
    tr := TrColumn(c);
    plusDm := PlusDmColumn(c);
    minusDm := MinusDmColumn(c);
    trSum := RollingSumColumn(Lift(tr), w);
    plusDmSum := RollingSumColumn(Lift(plusDm), w);
    minusDmSum := RollingSumColumn(Lift(minusDm), w);
    plusDi := PercentColumn(plusDmSum, trSum);
    minusDi := PercentColumn(minusDmSum, trSum);
    dx := DxFromDi(plusDi, minusDi);
    var dxSum := RollingSumColumn(dx, w);
    adx := FillZero(MeanOf(dxSum, w));
  }

  /** bot.py:88-91 */
  method ComputeBands(closes: seq<real>, w: nat, sd: seq<real> -> real)
    returns (upper: seq<Option<real>>, lower: seq<Option<real>>)
    requires w >= 1
    ensures upper == UpperBand(closes, w, sd)
    ensures lower == LowerBand(closes, w, sd)
  {
    var closeSum := RollingSumColumn(Lift(closes), w);
    var sma := MeanOf(closeSum, w);
    var std := StdColumn(closes, w, sd);
    upper := Band(sma, std, 2.0);
    lower := Band(sma, std, -2.0);
  }

  /** bot.py:93 */
  method ComputeVolumeAverage(volumes: seq<real>, w: nat) returns (volMa: seq<Option<real>>)
    requires w >= 1
    ensures volMa == VolMaColumn(volumes, w)
  {
    var volumeSum := RollingSumColumn(Lift(volumes), w);
    volMa := BackFillColumn(MeanOf(volumeSum, w));
  }
}
