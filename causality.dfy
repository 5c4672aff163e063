/**
 * Which rows a cell of `compute_indicators` (bot.py:54-94) depends on.
 * Every column except the volume average is causal: cutting the candles
 * after row `t` leaves rows `0..t` unchanged. The backward fill of the
 * volume average (bot.py:93) is the exception: its first `w - 1` rows
 * take the first full-window mean, which is computed from later volumes.
 */
module Causality {
  import opened Wrappers
  import opened Config
  import opened Smoothing
  import opened Rolling
  import opened Indicators

  // ---------------------------------------------------------------- building blocks

  lemma {:induction false} EmaAtPrefix(xs: seq<real>, alpha: real, n: nat, t: nat)
    requires t < n <= |xs|
    ensures EmaAt(xs[..n], alpha, t) == EmaAt(xs, alpha, t)
  {
    if t > 0 {
      EmaAtPrefix(xs, alpha, n, t - 1);
    }
  }

  /** The average of a prefix is the prefix of the average. */
  lemma EmaPrefix(xs: seq<real>, alpha: real, n: nat)
    requires n <= |xs|
    ensures Ema(xs[..n], alpha) == Ema(xs, alpha)[..n]
  {
    forall t | 0 <= t < n
      ensures Ema(xs[..n], alpha)[t] == Ema(xs, alpha)[t]
    {
      EmaAtPrefix(xs, alpha, n, t);
    }
  }

  /** A rolling sum over a prefix is the prefix of the rolling sum. */
  lemma RollingSumPrefix(xs: seq<Option<real>>, w: nat, n: nat)
    requires w >= 1 && n <= |xs|
    ensures RollingSum(xs[..n], w) == RollingSum(xs, w)[..n]
    ensures RollingMean(xs[..n], w) == RollingMean(xs, w)[..n]
  {
    forall t | 0 <= t < n
      ensures RollingSum(xs[..n], w)[t] == RollingSum(xs, w)[t]
    {
      assert Window(xs[..n], w, t) == Window(xs, w, t);
    }
  }

  lemma LiftPrefix(xs: seq<real>, n: nat)
    requires n <= |xs|
    ensures Lift(xs[..n]) == Lift(xs)[..n]
  {
  }

  lemma CandlePrefix(c: seq<Candle>, n: nat)
    requires n <= |c|
    ensures Closes(c[..n]) == Closes(c)[..n]
    ensures Volumes(c[..n]) == Volumes(c)[..n]
    ensures TrColumn(c[..n]) == TrColumn(c)[..n]
    ensures PlusDmColumn(c[..n]) == PlusDmColumn(c)[..n]
    ensures MinusDmColumn(c[..n]) == MinusDmColumn(c)[..n]
  {
    hide TrColumn, PlusDmColumn, MinusDmColumn;
    MovesColumnsPrefix(c, n);
  }

  lemma MovesColumnsPrefix(c: seq<Candle>, n: nat)
    requires n <= |c|
    ensures TrColumn(c[..n]) == TrColumn(c)[..n]
    ensures PlusDmColumn(c[..n]) == PlusDmColumn(c)[..n]
    ensures MinusDmColumn(c[..n]) == MinusDmColumn(c)[..n]
  {
    forall t | 0 <= t < n
      ensures TrColumn(c[..n])[t] == TrColumn(c)[t]
      ensures PlusDmColumn(c[..n])[t] == PlusDmColumn(c)[t]
      ensures MinusDmColumn(c[..n])[t] == MinusDmColumn(c)[t]
    {
      assert TrueRangeAt(c[..n], t) == TrueRangeAt(c, t);
      assert PlusDmAt(c[..n], t) == PlusDmAt(c, t);
      assert MinusDmAt(c[..n], t) == MinusDmAt(c, t);
    }
  }

  // ---------------------------------------------------------------- columns

  lemma MacdPrefix(closes: seq<real>, p: Params, n: nat)
    requires Valid(p) && n <= |closes|
    ensures MacdColumn(closes[..n], p) == MacdColumn(closes, p)[..n]
    ensures MacdSignalColumn(closes[..n], p) == MacdSignalColumn(closes, p)[..n]
  {
    EmaPrefix(closes, SpanAlpha(p.macdFast), n);
    EmaPrefix(closes, SpanAlpha(p.macdSlow), n);
    EmaPrefix(MacdColumn(closes, p), SpanAlpha(p.macdSignal), n);
  }

  lemma MovesPrefix(xs: seq<real>, n: nat)
    requires 0 < n <= |xs|
    ensures Ups(xs[..n]) == Ups(xs)[..n - 1]
    ensures Downs(xs[..n]) == Downs(xs)[..n - 1]
  {
  }

  lemma RsiFromAveragesPrefix(maUp: seq<real>, maDown: seq<real>, k: nat)
    requires |maUp| == |maDown| && k <= |maUp|
    requires forall i :: 0 <= i < |maUp| ==> maUp[i] >= 0.0 && maDown[i] >= 0.0
    ensures RsiFromAverages(maUp[..k], maDown[..k]) == RsiFromAverages(maUp, maDown)[..k + 1]
  {
  }

  lemma RsiPrefix(xs: seq<real>, w: nat, n: nat)
    requires w >= 1 && n <= |xs|
    ensures RsiColumn(xs[..n], w) == RsiColumn(xs, w)[..n]
  {
    if n > 0 {
      hide RsiColumn, RsiFromAverages, Ema;
      var alpha := WilderAlpha(w);
      RsiFromMoves(xs, w);
      RsiFromMoves(xs[..n], w);
      MovesPrefix(xs, n);
      EmaPrefix(Ups(xs), alpha, n - 1);
      EmaPrefix(Downs(xs), alpha, n - 1);
      RsiFromAveragesPrefix(Ema(Ups(xs), alpha), Ema(Downs(xs), alpha), n - 1);
    }
  }

  /** The RSI column is built from the two Wilder averages, both non-negative. */
  lemma RsiFromMoves(xs: seq<real>, w: nat)
    requires w >= 1 && |xs| > 0
    ensures forall i :: 0 <= i < |xs| - 1 ==>
      Ema(Ups(xs), WilderAlpha(w))[i] >= 0.0 && Ema(Downs(xs), WilderAlpha(w))[i] >= 0.0
    ensures RsiColumn(xs, w) == RsiFromAverages(Ema(Ups(xs), WilderAlpha(w)), Ema(Downs(xs), WilderAlpha(w)))
  {
    EmaColumnWithin(Ups(xs), WilderAlpha(w), 0.0, Max(0.0, MaxOf(Ups(xs))));
    EmaColumnWithin(Downs(xs), WilderAlpha(w), 0.0, Max(0.0, MaxOf(Downs(xs))));
  }

  lemma AdxPrefix(c: seq<Candle>, w: nat, n: nat)
    requires w >= 1 && n <= |c|
    ensures DxColumn(c[..n], w) == DxColumn(c, w)[..n]
    ensures AdxColumn(c[..n], w) == AdxColumn(c, w)[..n]
  {
    CandlePrefix(c, n);
    LiftPrefix(TrColumn(c), n);
    LiftPrefix(PlusDmColumn(c), n);
    LiftPrefix(MinusDmColumn(c), n);
    RollingSumPrefix(Lift(TrColumn(c)), w, n);
    RollingSumPrefix(Lift(PlusDmColumn(c)), w, n);
    RollingSumPrefix(Lift(MinusDmColumn(c)), w, n);
    assert PlusDiColumn(c[..n], w) == PlusDiColumn(c, w)[..n];
    assert MinusDiColumn(c[..n], w) == MinusDiColumn(c, w)[..n];
    assert DxColumn(c[..n], w) == DxColumn(c, w)[..n];
    RollingSumPrefix(DxColumn(c, w), w, n);
  }

  lemma StdPrefix(xs: seq<real>, w: nat, sd: seq<real> -> real, n: nat)
    requires n <= |xs|
    ensures StdColumn(xs[..n], w, sd) == StdColumn(xs, w, sd)[..n]
  {
    forall t | 0 <= t < n
      ensures StdColumn(xs[..n], w, sd)[t] == StdColumn(xs, w, sd)[t]
    {
      if w >= 2 && t + 1 >= w {
        assert xs[..n][t + 1 - w..t + 1] == xs[t + 1 - w..t + 1];
      }
    }
  }

  lemma BandsPrefix(xs: seq<real>, w: nat, sd: seq<real> -> real, n: nat)
    requires w >= 1 && n <= |xs|
    ensures UpperBand(xs[..n], w, sd) == UpperBand(xs, w, sd)[..n]
    ensures LowerBand(xs[..n], w, sd) == LowerBand(xs, w, sd)[..n]
  {
    LiftPrefix(xs, n);
    RollingSumPrefix(Lift(xs), w, n);
    StdPrefix(xs, w, sd, n);
  }

  /** From the row that fills the window on, the volume average ignores later rows. */
  lemma VolumeAveragePrefix(vs: seq<real>, w: nat, n: nat, t: nat)
    requires w >= 1 && t < n <= |vs| && t + 1 >= w
    ensures VolMaColumn(vs[..n], w)[t] == VolMaColumn(vs, w)[t]
  {
    LiftPrefix(vs, n);
    RollingSumPrefix(Lift(vs), w, n);
  }

  /** Before it, it does not: two volumes give row 0 a value that one volume does not. */
  lemma VolumeAverageLooksAhead()
    ensures VolMaColumn([1.0, 3.0], 2)[0] == Some(2.0)
    ensures VolMaColumn([1.0], 2)[0] == None
  {
    TwoVolumesFillRowZero();
    OneVolumeLeavesRowZero();
  }

  lemma TwoVolumesFillRowZero()
    ensures VolMaColumn([1.0, 3.0], 2)[0] == Some(2.0)
  {
    var xs := Lift([1.0, 3.0]);
    assert xs == [Some(1.0), Some(3.0)];
    var win := Window(xs, 2, 1);
    assert win == xs;
    assert SumDefined(win) == 4.0 && CountDefined(win) == 2 by {
      assert win[..1] == [Some(1.0)];
    }
    var means := RollingMean(xs, 2);
    assert means[1] == Some(2.0);
    RollingSumDefinedIff(xs, 2, 0);
    BackFillTakesFirstDefined(means, 0, 1);
  }

  lemma OneVolumeLeavesRowZero()
    ensures VolMaColumn([1.0], 2)[0] == None
  {
    var xs := Lift([1.0]);
    RollingSumDefinedIff(xs, 2, 0);
    BackFillOfUndefined(RollingMean(xs, 2), 0);
  }

  // ---------------------------------------------------------------- one row

  /**
   * Row `t` of the frame is the same whether the candles end at row `t`
   * or go on: every cell but the volume average, and the volume average
   * too once row `t` fills its window.
   */
  lemma NoLookahead(c: seq<Candle>, p: Params, sd: seq<real> -> real, t: nat)
    requires Valid(p) && t < |c|
    ensures var s, s' := SnapshotAt(c, p, sd, t), SnapshotAt(c[..t + 1], p, sd, t);
      && s'.close == s.close && s'.volume == s.volume
      && s'.emaFast == s.emaFast && s'.emaSlow == s.emaSlow
      && s'.macd == s.macd && s'.macdSignal == s.macdSignal
      && s'.rsi == s.rsi && s'.adx == s.adx
      && s'.bbUpper == s.bbUpper && s'.bbLower == s.bbLower
      && (t + 1 >= p.volWindow ==> s'.volMa == s.volMa)
  {
    var n := t + 1;
    var closes := Closes(c);
    CandlePrefix(c, n);
    EmaPrefix(closes, SpanAlpha(p.emaFast), n);
    EmaPrefix(closes, SpanAlpha(p.emaSlow), n);
    MacdPrefix(closes, p, n);
    RsiPrefix(closes, p.rsiWindow, n);
    AdxPrefix(c, p.adxWindow, n);
    BandsPrefix(closes, p.bbWindow, sd, n);
    if t + 1 >= p.volWindow {
      VolumeAveragePrefix(Volumes(c), p.volWindow, n, t);
    }
  }
}
