/**
 * The strategy parameters of the bot (bot.py:11-31), gathered into one
 * immutable value that every operation receives as an argument.
 */
module Config {

  datatype Params = Params(
    timeframes: seq<string>,  // evaluated in this order by the consensus loop
    limit: nat,               // number of candles requested per timeframe
    emaFast: nat,             // span of the fast EMA
    emaSlow: nat,             // span of the slow EMA
    rsiWindow: nat,           // Wilder window of the RSI (centre of mass rsiWindow - 1)
    adxWindow: nat,           // rolling window of TR, +dm, -dm and of DX
    bbWindow: nat,            // rolling window of the Bollinger bands
    volWindow: nat,           // rolling window of the volume average
    macdFast: nat,
    macdSlow: nat,
    macdSignal: nat,
    adxThreshold: real,
    rsiBuyMin: real,
    rsiBuyMax: real,
    rsiSellMin: real,
    rsiSellMax: real)

  /**
   * The settings the model accepts. pandas refuses a span below 1 and a
   * negative centre of mass (`com = w - 1` for the RSI); the model also
   * takes every rolling window to be at least 1. The shipped RSI, ADX,
   * band and volume windows are 7, 14, 20 and 20.
   */
  predicate Valid(p: Params) {
    && p.emaFast >= 1 && p.emaSlow >= 1
    && p.macdFast >= 1 && p.macdSlow >= 1 && p.macdSignal >= 1
    && p.rsiWindow >= 1 && p.adxWindow >= 1 && p.bbWindow >= 1 && p.volWindow >= 1
  }

  /** The values the bot ships with. */
  function Default(): (p: Params)
    ensures Valid(p)
    ensures p.bbWindow >= 2 && p.limit > p.adxWindow + p.adxWindow
    ensures p.limit > p.bbWindow && p.limit > p.volWindow && |p.timeframes| == 5
  {
    Params(["1m", "5m", "15m", "30m", "1h"], 100,
           7, 25, 7, 14, 20, 20, 12, 26, 9,
           25.0, 50.0, 65.0, 35.0, 50.0)
  }

  /** Smoothing factor of `ewm(span = span)`. */
  function SpanAlpha(span: nat): (a: real)
    requires span >= 1
    ensures 0.0 < a <= 1.0
  {
    2.0 / (span as real + 1.0)
  }

  /** Smoothing factor of `ewm(com = window - 1)`, Wilder's average over `window` periods. */
  function WilderAlpha(window: nat): (a: real)
    requires window >= 1
    ensures 0.0 < a <= 1.0
  {
    1.0 / (1.0 + (window - 1) as real)
  }
}
