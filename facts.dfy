/**
 * What the indicator engine guarantees about its columns: warm-up
 * windows, division guards and the behaviour on a flat market
 * (bot.py:54-94, 109-110).
 */
module IndicatorFacts {
  import opened Wrappers
  import opened Config
  import opened Smoothing
  import opened Rolling
  import opened Indicators
  import opened Signals

  /** Every candle closes at the same price. */
  predicate FlatCloses(c: seq<Candle>) {
    Flat(Closes(c))
  }

  /** On constant closes both EMAs sit on the close, and MACD and its signal line are 0. */
  lemma TrendOfFlatCloses(c: seq<Candle>, p: Params, t: nat)
    requires Valid(p) && t < |c| && FlatCloses(c)
    ensures Ema(Closes(c), SpanAlpha(p.emaFast))[t] == c[0].close
    ensures Ema(Closes(c), SpanAlpha(p.emaSlow))[t] == c[0].close
    ensures MacdColumn(Closes(c), p)[t] == 0.0
    ensures MacdSignalColumn(Closes(c), p)[t] == 0.0
  {
    var closes := Closes(c);
    EmaOfConstant(closes, SpanAlpha(p.emaFast), c[0].close);
    EmaOfConstant(closes, SpanAlpha(p.emaSlow), c[0].close);
    EmaOfConstant(closes, SpanAlpha(p.macdFast), c[0].close);
    EmaOfConstant(closes, SpanAlpha(p.macdSlow), c[0].close);
    EmaOfConstant(MacdColumn(closes, p), SpanAlpha(p.macdSignal), 0.0);
  }

  /**
   * The RSI cell: 50 on row 0 and wherever the smoothed fall is 0,
   * otherwise `100 - 100 / (1 + up / down)`; always in [0, 100).
   */
  lemma RsiCell(xs: seq<real>, w: nat, t: nat)
    requires w >= 1 && t < |xs|
    ensures 0.0 <= RsiColumn(xs, w)[t] < 100.0
    ensures t == 0 ==> RsiColumn(xs, w)[t] == 50.0
    ensures t > 0 ==>
      var up := Ema(Ups(xs), WilderAlpha(w))[t - 1];
      var down := Ema(Downs(xs), WilderAlpha(w))[t - 1];
      && up >= 0.0 && down >= 0.0
      && (down == 0.0 ==> RsiColumn(xs, w)[t] == 50.0)
      && (down > 0.0 ==> RsiColumn(xs, w)[t] == 100.0 * up / (up + down))
  {
    var alpha := WilderAlpha(w);
    EmaColumnWithin(Ups(xs), alpha, 0.0, Max(0.0, MaxOf(Ups(xs))));
    EmaColumnWithin(Downs(xs), alpha, 0.0, Max(0.0, MaxOf(Downs(xs))));
    var maUp, maDown := Ema(Ups(xs), alpha), Ema(Downs(xs), alpha);
    assert RsiColumn(xs, w) == RsiFromAverages(maUp, maDown);
    if t > 0 {
      assert RsiColumn(xs, w)[t] == RsiValue(maUp[t - 1], maDown[t - 1]);
    }
  }

  /** With no falling close the smoothed fall stays 0, so the guard yields 50 on every row. */
  lemma RsiWithoutDownMoves(xs: seq<real>, w: nat)
    requires w >= 1
    requires forall i :: 0 <= i < |xs| - 1 ==> xs[i] <= xs[i + 1]
    ensures forall t :: 0 <= t < |xs| ==> RsiColumn(xs, w)[t] == 50.0
  {
    if |xs| > 0 {
      EmaOfConstant(Downs(xs), WilderAlpha(w), 0.0);
      forall t | 0 <= t < |xs| ensures RsiColumn(xs, w)[t] == 50.0 {
        RsiCell(xs, w, t);
      }
    }
  }

  /** +dm and -dm are non-negative and never both positive; TR covers the bar's range. */
  lemma DirectionalMovement(c: seq<Candle>, t: nat)
    requires t < |c|
    ensures PlusDmColumn(c)[t] >= 0.0 && MinusDmColumn(c)[t] >= 0.0
    ensures PlusDmColumn(c)[t] == 0.0 || MinusDmColumn(c)[t] == 0.0
    ensures TrColumn(c)[t] >= c[t].high - c[t].low
  {
  }

  /**
   * DX is defined exactly when the ADX window is full, the summed true
   * range is not 0 and the directional sums do not add up to 0.
   */
  lemma DxDefinedIff(c: seq<Candle>, w: nat, t: nat)
    requires w >= 1 && t < |c|
    ensures DxColumn(c, w)[t].Some? <==>
      && t + 1 >= w
      && SumDefined(Lift(TrColumn(c))[t + 1 - w..t + 1]) != 0.0
      && SumDefined(Lift(PlusDmColumn(c))[t + 1 - w..t + 1])
         + SumDefined(Lift(MinusDmColumn(c))[t + 1 - w..t + 1]) != 0.0
  {
    RollingSumOfLift(TrColumn(c), w, t);
    RollingSumOfLift(PlusDmColumn(c), w, t);
    RollingSumOfLift(MinusDmColumn(c), w, t);
    if t + 1 >= w {
      RollingSumDefinedIff(Lift(TrColumn(c)), w, t);
      RollingSumDefinedIff(Lift(PlusDmColumn(c)), w, t);
      RollingSumDefinedIff(Lift(MinusDmColumn(c)), w, t);
      var tr := SumDefined(Lift(TrColumn(c))[t + 1 - w..t + 1]);
      var plus := SumDefined(Lift(PlusDmColumn(c))[t + 1 - w..t + 1]);
      var minus := SumDefined(Lift(MinusDmColumn(c))[t + 1 - w..t + 1]);
      if tr != 0.0 {
        SumOfQuotients(plus, minus, tr);
      }
    }
  }

  lemma SumOfQuotients(a: real, b: real, d: real)
    requires d != 0.0
    ensures 100.0 * (a / d) + 100.0 * (b / d) == 0.0 <==> a + b == 0.0
  {
    assert a / d + b / d == (a + b) / d;
  }

  /** ADX is 0 at any row whose trailing window holds an undefined DX. */
  lemma AdxZeroOnUndefinedDx(c: seq<Candle>, w: nat, t: nat, i: nat)
    requires w >= 1 && t < |c|
    requires i <= t && t < i + w
    requires DxColumn(c, w)[i].None?
    ensures AdxColumn(c, w)[t] == 0.0
  {
    RollingSumDefinedIff(DxColumn(c, w), w, t);
  }

  /**
   * Both bands are defined from the row that fills the window on (and
   * never for a one-row window, whose sample deviation is NaN), and the
   * upper band is never below the lower one.
   */
  lemma BandsOrdered(xs: seq<real>, w: nat, sd: seq<real> -> real, t: nat)
    requires w >= 1 && t < |xs| && StdDevLaw(sd)
    ensures UpperBand(xs, w, sd)[t].Some? <==> w >= 2 && t + 1 >= w
    ensures LowerBand(xs, w, sd)[t].Some? <==> w >= 2 && t + 1 >= w
    ensures UpperBand(xs, w, sd)[t].Some? ==>
            UpperBand(xs, w, sd)[t].value >= LowerBand(xs, w, sd)[t].value
  {
    RollingSumOfLift(xs, w, t);
    if w >= 2 && t + 1 >= w {
      assert sd(xs[t + 1 - w..t + 1]) >= 0.0;
    }
  }

  /** On a window of equal closes both bands collapse onto that close. */
  lemma BandsOfFlatWindow(xs: seq<real>, w: nat, sd: seq<real> -> real, t: nat)
    requires w >= 2 && t < |xs| && t + 1 >= w && StdDevLaw(sd)
    requires forall i :: t + 1 - w <= i <= t ==> xs[i] == xs[t]
    ensures UpperBand(xs, w, sd)[t] == Some(xs[t])
    ensures LowerBand(xs, w, sd)[t] == Some(xs[t])
  {
    var win := xs[t + 1 - w..t + 1];
    assert Flat(win) by {
      assert win[0] == xs[t + 1 - w];
    }
    assert sd(win) == 0.0;
    RollingMeanOfConstant(Lift(xs), w, t, xs[t]);
  }

  /**
   * Once the column has `w` rows, every volume average is defined: rows
   * from `w - 1` on hold their own window's mean, earlier rows the first
   * full-window mean. A shorter column has no average at all.
   */
  lemma VolumeAverageBackFilled(vs: seq<real>, w: nat)
    requires w >= 1
    ensures |vs| >= w ==> forall t :: 0 <= t < |vs| ==>
      && VolMaColumn(vs, w)[t].Some?
      && VolMaColumn(vs, w)[t] == RollingMean(Lift(vs), w)[if t + 1 >= w then t else w - 1]
    ensures |vs| < w ==> forall t :: 0 <= t < |vs| ==> VolMaColumn(vs, w)[t].None?
  {
    var means := RollingMean(Lift(vs), w);
    forall t | 0 <= t < |vs| ensures means[t].Some? <==> t + 1 >= w {
      RollingSumOfLift(vs, w, t);
    }
    if |vs| >= w {
      forall t | 0 <= t < |vs|
        ensures VolMaColumn(vs, w)[t] == means[if t + 1 >= w then t else w - 1]
      {
        BackFillTakesFirstDefined(means, t, if t + 1 >= w then t else w - 1);
      }
    } else {
      forall t | 0 <= t < |vs| ensures VolMaColumn(vs, w)[t].None? {
        BackFillOfUndefined(means, t);
      }
    }
  }

  /**
   * A series at least as long as the Bollinger and volume windows gives a
   * last row with every cell defined (EMA, MACD, RSI and ADX always are).
   */
  lemma LastRowDefined(c: seq<Candle>, p: Params, sd: seq<real> -> real)
    requires Valid(p) && StdDevLaw(sd)
    requires p.bbWindow >= 2 && |c| >= p.bbWindow && |c| >= p.volWindow
    ensures SnapshotAt(c, p, sd, |c| - 1).bbUpper.Some?
    ensures SnapshotAt(c, p, sd, |c| - 1).bbLower.Some?
    ensures SnapshotAt(c, p, sd, |c| - 1).volMa.Some?
  {
    BandsOrdered(Closes(c), p.bbWindow, sd, |c| - 1);
    VolumeAverageBackFilled(Volumes(c), p.volWindow);
  }

  /**
   * With the shipped settings a full fetch of `limit` candles has a last
   * row with both bands and the volume average defined, and that row lies
   * past the `2 * adxWindow - 2` rows on which ADX is forced to 0.
   */
  lemma ShippedSettingsDefineLastRow(c: seq<Candle>, sd: seq<real> -> real)
    requires StdDevLaw(sd) && |c| == Default().limit
    ensures var s := SnapshotAt(c, Default(), sd, |c| - 1);
      s.bbUpper.Some? && s.bbLower.Some? && s.volMa.Some?
    ensures |c| - 1 >= 2 * Default().adxWindow - 2
  {
    LastRowDefined(c, Default(), sd);
  }

  /**
   * A flat close series: both EMAs equal the close, MACD and its signal
   * are 0, RSI is 50, full-window bands sit on the close, and the row is
   * classified NEUTRAL.
   */
  lemma FlatSeriesIsNeutral(c: seq<Candle>, p: Params, sd: seq<real> -> real)
    requires Valid(p) && |c| > 0 && FlatCloses(c) && StdDevLaw(sd)
    ensures var s := SnapshotAt(c, p, sd, |c| - 1);
      && s.emaFast == s.emaSlow == s.close
      && s.macd == s.macdSignal == 0.0
      && s.rsi == 50.0
      && (p.bbWindow >= 2 && |c| >= p.bbWindow ==> s.bbUpper == s.bbLower == Some(s.close))
      && Evaluate(s, p) == Neutral
  {
    var t := |c| - 1;
    TrendOfFlatCloses(c, p, t);
    RsiWithoutDownMoves(Closes(c), p.rsiWindow);
    if p.bbWindow >= 2 && |c| >= p.bbWindow {
      BandsOfFlatWindow(Closes(c), p.bbWindow, sd, t);
    }
  }
}
