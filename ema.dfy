/**
 * Exponential smoothing as pandas computes `ewm(..., adjust=False).mean()`
 * on a series without missing values (bot.py:55-61, 66-67): the first
 * average is the first value, every later one moves a fraction `alpha` of
 * the way towards the new value.
 */
module Smoothing {

  /** One step of the recurrence: move a fraction `alpha` from `e` towards `x`. */
  function Mix(alpha: real, x: real, e: real): real {
    alpha * x + (1.0 - alpha) * e
  }

  /** The average after row `t`. */
  function EmaAt(xs: seq<real>, alpha: real, t: nat): real
    requires t < |xs|
    decreases t
  {
    if t == 0 then xs[0] else Mix(alpha, xs[t], EmaAt(xs, alpha, t - 1))
  }

  /**
   * The whole smoothed column: it starts at the first value, and every
   * later row mixes its value into the average of the row before.
   */
  function Ema(xs: seq<real>, alpha: real): (r: seq<real>)
    ensures |r| == |xs|
    ensures |xs| > 0 ==> r[0] == xs[0]
    ensures forall t :: 0 < t < |xs| ==> r[t] == Mix(alpha, xs[t], r[t - 1])
  {
    seq(|xs|, t requires 0 <= t < |xs| => EmaAt(xs, alpha, t))
  }

  /** The recurrence, run row by row into a fresh buffer. */
  method EmaColumn(xs: seq<real>, alpha: real) returns (r: seq<real>)
    ensures |r| == |xs|
    ensures r == Ema(xs, alpha)
  {
    var a := new real[|xs|];
    if |xs| > 0 {
      a[0] := xs[0];
      var t := 1;
      while t < |xs|
        invariant 1 <= t <= |xs|
        invariant forall k :: 0 <= k < t ==> a[k] == EmaAt(xs, alpha, k)
      {
        a[t] := Mix(alpha, xs[t], a[t - 1]);
        t := t + 1;
      }
    }
    r := a[..];
  }

  /** `alpha * d`, named so that the bound proofs below stay linear. */
  function Scale(alpha: real, d: real): real {
    alpha * d
  }

  lemma ProductNonNegative(a: real, b: real)
    requires 0.0 <= a && 0.0 <= b
    ensures 0.0 <= a * b
  {
  }

  /** Scaling by a factor in [0, 1] keeps a number between zero and itself. */
  lemma ScaledBetween(alpha: real, d: real)
    requires 0.0 <= alpha <= 1.0
    ensures 0.0 <= d ==> 0.0 <= Scale(alpha, d) <= d
    ensures d < 0.0 ==> d <= Scale(alpha, d) <= 0.0
  {
    var beta := 1.0 - alpha;
    assert alpha * d + beta * d == d;
    if 0.0 <= d {
      ProductNonNegative(alpha, d);
      ProductNonNegative(beta, d);
    } else {
      ProductNonNegative(alpha, -d);
      ProductNonNegative(beta, -d);
      assert alpha * (-d) == -(alpha * d);
      assert beta * (-d) == -(beta * d);
    }
  }

  lemma StepTowards(alpha: real, x: real, e: real)
    ensures Mix(alpha, x, e) == e + Scale(alpha, x - e)
  {
  }

  /** A convex step stays between the bounds of what it combines. */
  lemma ConvexStep(alpha: real, x: real, e: real, lo: real, hi: real)
    requires 0.0 <= alpha <= 1.0
    requires lo <= x <= hi && lo <= e <= hi
    ensures lo <= Mix(alpha, x, e) <= hi
  {
    hide Mix, Scale;
    StepTowards(alpha, x, e);
    ScaledBetween(alpha, x - e);
  }

  /** The average never leaves the range of the values seen so far. */
  lemma {:induction false} EmaWithin(xs: seq<real>, alpha: real, lo: real, hi: real, t: nat)
    requires 0.0 <= alpha <= 1.0
    requires t < |xs|
    requires forall i :: 0 <= i <= t ==> lo <= xs[i] <= hi
    ensures lo <= EmaAt(xs, alpha, t) <= hi
  {
    if t > 0 {
      EmaWithin(xs, alpha, lo, hi, t - 1);
      ConvexStep(alpha, xs[t], EmaAt(xs, alpha, t - 1), lo, hi);
    }
  }

  /** Column form of EmaWithin. */
  lemma EmaColumnWithin(xs: seq<real>, alpha: real, lo: real, hi: real)
    requires 0.0 <= alpha <= 1.0
    requires forall i :: 0 <= i < |xs| ==> lo <= xs[i] <= hi
    ensures forall t :: 0 <= t < |xs| ==> lo <= Ema(xs, alpha)[t] <= hi
  {
    forall t | 0 <= t < |xs|
      ensures lo <= Ema(xs, alpha)[t] <= hi
    {
      EmaWithin(xs, alpha, lo, hi, t);
    }
  }

  /** A constant series is its own average. */
  lemma EmaOfConstant(xs: seq<real>, alpha: real, c: real)
    requires 0.0 <= alpha <= 1.0
    requires forall i :: 0 <= i < |xs| ==> xs[i] == c
    ensures forall t :: 0 <= t < |xs| ==> Ema(xs, alpha)[t] == c
  {
    EmaColumnWithin(xs, alpha, c, c);
  }
}
