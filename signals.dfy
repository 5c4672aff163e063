/**
 * The classifier `evaluate_conditions` (bot.py:96-116): six predicates
 * for each direction over the latest indicator row. A comparison with a
 * NaN cell is false in Python, so every predicate over an `Option` cell
 * fails on `None`.
 */
module Signals {
  import opened Wrappers
  import opened Config
  import opened Indicators

  datatype Signal = Buy | Sell | Neutral

  /** `x >= y` where `y` may be NaN. */
  predicate AtLeast(x: real, y: Option<real>) {
    y.Some? && x >= y.value
  }

  /** `x > y` where `y` may be NaN. */
  predicate Above(x: real, y: Option<real>) {
    y.Some? && x > y.value
  }

  /** `x < y` where `y` may be NaN. */
  predicate Below(x: real, y: Option<real>) {
    y.Some? && x < y.value
  }

  /**
   * `[ema_buy, macd_buy, rsi_buy, adx_ok, vol_ok, bb_buy]`: a missing
   * volume average or upper band makes its check false.
   */
  function BuyChecks(s: Snapshot, p: Params): (r: seq<bool>)
    ensures |r| == 6
    ensures r[0] ==> s.emaFast != s.emaSlow
    ensures r[4] ==> s.volMa.Some? && s.volume >= s.volMa.value
    ensures r[5] ==> s.bbUpper.Some? && s.close > s.bbUpper.value
    ensures s.volMa.None? || s.bbUpper.None? ==> !All(r)
  {
    [ s.emaFast > s.emaSlow,
      s.macd > s.macdSignal,
      p.rsiBuyMin <= s.rsi <= p.rsiBuyMax,
      s.adx >= p.adxThreshold,
      AtLeast(s.volume, s.volMa),
      Above(s.close, s.bbUpper) ]
  }

  /**
   * `[ema_sell, macd_sell, rsi_sell, adx_ok, vol_ok, bb_sell]`: a missing
   * volume average or lower band makes its check false.
   */
  function SellChecks(s: Snapshot, p: Params): (r: seq<bool>)
    ensures |r| == 6
    ensures r[0] ==> s.emaFast != s.emaSlow
    ensures r[4] ==> s.volMa.Some? && s.volume >= s.volMa.value
    ensures r[5] ==> s.bbLower.Some? && s.close < s.bbLower.value
    ensures s.volMa.None? || s.bbLower.None? ==> !All(r)
  {
    [ s.emaFast < s.emaSlow,
      s.macd < s.macdSignal,
      p.rsiSellMin <= s.rsi <= p.rsiSellMax,
      s.adx >= p.adxThreshold,
      AtLeast(s.volume, s.volMa),
      Below(s.close, s.bbLower) ]
  }

  /** Python's `all(...)` over a list. */
  predicate All(bs: seq<bool>) {
    forall i :: 0 <= i < |bs| ==> bs[i]
  }

  /**
   * BUY when every buy check holds, else SELL when every sell check
   * holds, else NEUTRAL. Because the EMA checks exclude each other, the
   * SELL branch is reached exactly when the sell checks hold: the order of
   * the two tests does not matter, although an RSI of 50 lies in both
   * default bands.
   */
  function Evaluate(s: Snapshot, p: Params): (r: Signal)
    ensures r == Buy <==>
      && s.emaFast > s.emaSlow && s.macd > s.macdSignal
      && p.rsiBuyMin <= s.rsi <= p.rsiBuyMax
      && s.adx >= p.adxThreshold && AtLeast(s.volume, s.volMa)
      && Above(s.close, s.bbUpper)
    ensures r == Sell <==>
      && s.emaFast < s.emaSlow && s.macd < s.macdSignal
      && p.rsiSellMin <= s.rsi <= p.rsiSellMax
      && s.adx >= p.adxThreshold && AtLeast(s.volume, s.volMa)
      && Below(s.close, s.bbLower)
    ensures s.adx < p.adxThreshold || !AtLeast(s.volume, s.volMa) ==> r == Neutral
    ensures s.emaFast == s.emaSlow || s.macd == s.macdSignal ==> r == Neutral
  {
    AllOfSix(BuyChecks(s, p));
    AllOfSix(SellChecks(s, p));
    if All(BuyChecks(s, p)) then Buy
    else if All(SellChecks(s, p)) then Sell
    else Neutral
  }

  lemma AllOfSix(bs: seq<bool>)
    requires |bs| == 6
    ensures All(bs) <==> bs[0] && bs[1] && bs[2] && bs[3] && bs[4] && bs[5]
  {
    if bs[0] && bs[1] && bs[2] && bs[3] && bs[4] && bs[5] {
      forall i | 0 <= i < |bs| ensures bs[i] {
        if i < 3 {
          assert i == 0 || i == 1 || i == 2;
        } else {
          assert i == 3 || i == 4 || i == 5;
        }
      }
    }
  }

  /** A snapshot that meets five of the six buy checks and fails the k-th is NEUTRAL, never BUY nor SELL. */
  lemma BuyVeto(s: Snapshot, p: Params, k: nat)
    requires k < 6
    requires !BuyChecks(s, p)[k]
    requires forall i :: 0 <= i < 6 && i != k ==> BuyChecks(s, p)[i]
    ensures Evaluate(s, p) == Neutral
  {
    if k != 0 {
      assert BuyChecks(s, p)[0];
    } else {
      assert BuyChecks(s, p)[1];
    }
  }

  /** The mirror: five of six sell checks and a failing k-th give NEUTRAL. */
  lemma SellVeto(s: Snapshot, p: Params, k: nat)
    requires k < 6
    requires !SellChecks(s, p)[k]
    requires forall i :: 0 <= i < 6 && i != k ==> SellChecks(s, p)[i]
    ensures Evaluate(s, p) == Neutral
  {
    if k != 0 {
      assert SellChecks(s, p)[0];
    } else {
      assert SellChecks(s, p)[1];
    }
  }

  /** BUY and SELL are never both met, so testing SELL first would classify every snapshot the same way. */
  lemma BuyAndSellExclusive(s: Snapshot, p: Params)
    ensures !(All(BuyChecks(s, p)) && All(SellChecks(s, p)))
  {
    if All(BuyChecks(s, p)) {
      assert BuyChecks(s, p)[0];
      assert !SellChecks(s, p)[0];
    }
  }
}
