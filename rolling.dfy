/**
 * Trailing windows as pandas computes `rolling(window=w).sum()` and
 * `.mean()` with the default `min_periods = w` (bot.py:80-82, 86, 88, 93),
 * and the backward fill `fillna(method="bfill")` (bot.py:93).
 *
 * pandas runs one pass over the column: it keeps the sum of the values
 * in the window that are not NaN and how many there are, adds the newest
 * value, drops the one that falls out, and reports the sum only when at
 * least `w` values were observed.
 */
module Rolling {
  import opened Wrappers

  /** What a cell contributes to a running sum: NaN contributes nothing. */
  function Val(x: Option<real>): real {
    if x.Some? then x.value else 0.0
  }

  /** Sum of the defined cells of a window. */
  function SumDefined(s: seq<Option<real>>): real {
    if |s| == 0 then 0.0 else SumDefined(s[..|s| - 1]) + Val(s[|s| - 1])
  }

  /** Number of defined cells of a window (pandas' `nobs`). */
  function CountDefined(s: seq<Option<real>>): (n: nat)
    ensures n <= |s|
  {
    if |s| == 0 then 0 else CountDefined(s[..|s| - 1]) + (if s[|s| - 1].Some? then 1 else 0)
  }

  /** First row of the window of width `w` that ends just before row `e`. */
  function WindowStart(e: nat, w: nat): nat {
    if e >= w then e - w else 0
  }

  /** The window of width `w` ending at row `t` (shorter at the top of the column). */
  function Window(xs: seq<Option<real>>, w: nat, t: nat): seq<Option<real>>
    requires t < |xs|
  {
    xs[WindowStart(t + 1, w)..t + 1]
  }

  /** Cell `t` of `rolling(window=w).sum()`. */
  function RollingSumAt(xs: seq<Option<real>>, w: nat, t: nat): Option<real>
    requires w >= 1 && t < |xs|
  {
    var win := Window(xs, w, t);
    if CountDefined(win) >= w then Some(SumDefined(win)) else None
  }

  /**
   * `rolling(window=w).sum()`: undefined on the first `w - 1` rows, and
   * every defined cell is the sum of exactly the last `w` rows.
   */
  function RollingSum(xs: seq<Option<real>>, w: nat): (r: seq<Option<real>>)
    requires w >= 1
    ensures |r| == |xs|
    ensures forall t :: 0 <= t < |r| && t + 1 < w ==> r[t].None?
    ensures forall t :: 0 <= t < |r| && r[t].Some? ==>
      t + 1 >= w && r[t].value == SumDefined(xs[t + 1 - w..t + 1])
  {
    seq(|xs|, t requires 0 <= t < |xs| => RollingSumAt(xs, w, t))
  }

  /** A full window of `w` observations divided by `w`: `rolling(window=w).mean()`. */
  function MeanOf(sums: seq<Option<real>>, w: nat): (r: seq<Option<real>>)
    requires w >= 1
    ensures |r| == |sums|
  {
    seq(|sums|, t requires 0 <= t < |sums| =>
      if sums[t].Some? then Some(sums[t].value / w as real) else None)
  }

  function RollingMean(xs: seq<Option<real>>, w: nat): (r: seq<Option<real>>)
    requires w >= 1
    ensures |r| == |xs|
    ensures forall t :: 0 <= t < |r| ==> (r[t].Some? <==> RollingSum(xs, w)[t].Some?)
    ensures forall t :: 0 <= t < |r| && r[t].Some? ==>
      t + 1 >= w && r[t].value == SumDefined(xs[t + 1 - w..t + 1]) / w as real
  {
    MeanOf(RollingSum(xs, w), w)
  }

  /** A column without NaN. */
  function Lift(xs: seq<real>): (r: seq<Option<real>>)
    ensures |r| == |xs|
  {
    seq(|xs|, i requires 0 <= i < |xs| => Some(xs[i]))
  }

  /** `fillna(0)`. */
  function FillZero(xs: seq<Option<real>>): (r: seq<real>)
    ensures |r| == |xs|
    ensures forall i :: 0 <= i < |xs| ==>
      (xs[i].Some? ==> r[i] == xs[i].value) && (xs[i].None? ==> r[i] == 0.0)
  {
    seq(|xs|, i requires 0 <= i < |xs| => Val(xs[i]))
  }

  // ---------------------------------------------------------------- the pass

  lemma SnocStep(s: seq<Option<real>>, x: Option<real>)
    ensures SumDefined(s + [x]) == SumDefined(s) + Val(x)
    ensures CountDefined(s + [x]) == CountDefined(s) + (if x.Some? then 1 else 0)
  {
    assert (s + [x])[..|s|] == s;
  }

  lemma {:induction false} DropFirst(s: seq<Option<real>>)
    requires |s| >= 1
    ensures SumDefined(s) == Val(s[0]) + SumDefined(s[1..])
    ensures CountDefined(s) == (if s[0].Some? then 1 else 0) + CountDefined(s[1..])
  {
    if |s| > 1 {
      var init := s[..|s| - 1];
      DropFirst(init);
      assert init[1..] == s[1..][..|s[1..]| - 1];
    } else {
      assert s[..|s| - 1] == [] && s[1..] == [];
    }
  }

  /**
   * Moving from the window that ends before row t to the one that ends at
   * row t adds row t and, once the window is full, drops row t - w.
   */
  lemma Slide(xs: seq<Option<real>>, w: nat, t: nat)
    requires w >= 1 && t < |xs|
    ensures SumDefined(xs[WindowStart(t + 1, w)..t + 1]) ==
            SumDefined(xs[WindowStart(t, w)..t]) + Val(xs[t]) - (if t >= w then Val(xs[t - w]) else 0.0)
    ensures CountDefined(xs[WindowStart(t + 1, w)..t + 1]) ==
            CountDefined(xs[WindowStart(t, w)..t]) + (if xs[t].Some? then 1 else 0)
            - (if t >= w && xs[t - w].Some? then 1 else 0)
  {
    var lo := WindowStart(t, w);
    var grown := xs[lo..t + 1];
    assert grown == xs[lo..t] + [xs[t]];
    SnocStep(xs[lo..t], xs[t]);
    if t >= w {
      DropFirst(grown);
      assert grown[0] == xs[t - w] && grown[1..] == xs[t + 1 - w..t + 1];
    }
  }

  /** The running sum, one row at a time, into a fresh buffer. */
  method RollingSumColumn(xs: seq<Option<real>>, w: nat) returns (r: seq<Option<real>>)
    requires w >= 1
    ensures r == RollingSum(xs, w)
  {
    var a := new Option<real>[|xs|];
    var sum: real, nobs: int := 0.0, 0;
    var t := 0;
    while t < |xs|
      invariant 0 <= t <= |xs|
      invariant sum == SumDefined(xs[WindowStart(t, w)..t])
      invariant nobs == CountDefined(xs[WindowStart(t, w)..t])
      invariant forall k :: 0 <= k < t ==> a[k] == RollingSumAt(xs, w, k)
    {
      Slide(xs, w, t);
      // the newest value enters the window
      if xs[t].Some? {
        sum, nobs := sum + xs[t].value, nobs + 1;
      }
      // the oldest value leaves it
      if t >= w && xs[t - w].Some? {
        sum, nobs := sum - xs[t - w].value, nobs - 1;
      }
      a[t] := if nobs >= w then Some(sum) else None;
      t := t + 1;
    }
    r := a[..];
  }

  // ---------------------------------------------------------------- facts

  lemma {:induction false} CountAtMostLength(s: seq<Option<real>>)
    ensures CountDefined(s) <= |s|
    ensures CountDefined(s) == |s| <==> forall i :: 0 <= i < |s| ==> s[i].Some?
  {
    if |s| > 0 {
      var init := s[..|s| - 1];
      CountAtMostLength(init);
      if CountDefined(s) == |s| {
        forall i | 0 <= i < |s| ensures s[i].Some? {
          if i < |s| - 1 { assert s[i] == init[i]; }
        }
      }
      if forall i :: 0 <= i < |s| ==> s[i].Some? {
        assert forall i :: 0 <= i < |init| ==> init[i] == s[i];
      }
    }
  }

  /**
   * With `min_periods = w`, a rolling cell is defined exactly when the
   * column has `w` rows up to it and none of them is NaN.
   */
  lemma RollingSumDefinedIff(xs: seq<Option<real>>, w: nat, t: nat)
    requires w >= 1 && t < |xs|
    ensures RollingSumAt(xs, w, t).Some? <==>
            t + 1 >= w && forall i :: t + 1 - w <= i <= t ==> xs[i].Some?
    ensures RollingSumAt(xs, w, t).Some? ==>
            RollingSumAt(xs, w, t).value == SumDefined(xs[t + 1 - w..t + 1])
  {
    var win := Window(xs, w, t);
    CountAtMostLength(win);
    if t + 1 >= w {
      assert forall i :: t + 1 - w <= i <= t ==> xs[i] == win[i - (t + 1 - w)];
    }
  }

  /** Every cell of a column without NaN is defined once the window is full. */
  lemma RollingSumOfLift(xs: seq<real>, w: nat, t: nat)
    requires w >= 1 && t < |xs|
    ensures RollingSumAt(Lift(xs), w, t).Some? <==> t + 1 >= w
  {
    RollingSumDefinedIff(Lift(xs), w, t);
  }

  /**
   * When the first `k` cells are undefined, no window ending before row
   * `k + w - 1` holds `w` observations, so the rolling sum is undefined
   * there. With `k = 0` this is the warm-up of `w - 1` rows.
   */
  lemma RollingSumWarmUp(xs: seq<Option<real>>, w: nat, k: nat)
    requires w >= 1
    requires forall i :: 0 <= i < |xs| && i < k ==> xs[i].None?
    ensures forall t :: 0 <= t < |xs| && t + 1 < k + w ==> RollingSum(xs, w)[t].None?
  {
    forall t | 0 <= t < |xs| && t + 1 < k + w
      ensures RollingSum(xs, w)[t].None?
    {
      RollingSumDefinedIff(xs, w, t);
      if t + 1 >= w {
        assert xs[t + 1 - w].None?;
      }
    }
  }

  /** Column form of RollingSumOfLift. */
  lemma LiftedRollingSumDefined(xs: seq<real>, w: nat)
    requires w >= 1
    ensures forall t :: 0 <= t < |xs| ==> (RollingSum(Lift(xs), w)[t].Some? <==> t + 1 >= w)
  {
    forall t | 0 <= t < |xs|
      ensures RollingSum(Lift(xs), w)[t].Some? <==> t + 1 >= w
    {
      RollingSumOfLift(xs, w, t);
    }
  }

  lemma {:induction false} SumOfNonNegative(s: seq<Option<real>>)
    requires forall i :: 0 <= i < |s| && s[i].Some? ==> s[i].value >= 0.0
    ensures SumDefined(s) >= 0.0
  {
    if |s| > 0 {
      SumOfNonNegative(s[..|s| - 1]);
    }
  }

  /** A rolling sum of a column without negative values has no negative cell. */
  lemma RollingSumNonNegative(xs: seq<Option<real>>, w: nat)
    requires w >= 1
    requires forall i :: 0 <= i < |xs| && xs[i].Some? ==> xs[i].value >= 0.0
    ensures forall t :: 0 <= t < |xs| && RollingSum(xs, w)[t].Some? ==> RollingSum(xs, w)[t].value >= 0.0
  {
    forall t | 0 <= t < |xs| && RollingSum(xs, w)[t].Some?
      ensures RollingSum(xs, w)[t].value >= 0.0
    {
      SumOfNonNegative(xs[t + 1 - w..t + 1]);
    }
  }

  lemma {:induction false} SumOfConstant(s: seq<Option<real>>, c: real)
    requires forall i :: 0 <= i < |s| ==> s[i] == Some(c)
    ensures SumDefined(s) == |s| as real * c
  {
    if |s| > 0 {
      SumOfConstant(s[..|s| - 1], c);
    }
  }

  /** The mean of a full window of equal values is that value. */
  lemma RollingMeanOfConstant(xs: seq<Option<real>>, w: nat, t: nat, c: real)
    requires w >= 1 && t < |xs| && t + 1 >= w
    requires forall i :: t + 1 - w <= i <= t ==> xs[i] == Some(c)
    ensures RollingMean(xs, w)[t] == Some(c)
  {
    RollingSumDefinedIff(xs, w, t);
    var win := xs[t + 1 - w..t + 1];
    SumOfConstant(win, c);
    assert SumDefined(win) / w as real == c;
  }

  // ---------------------------------------------------------------- bfill

  /** `bfill`: the first defined cell at or after row `t`, if any. */
  function BackFillAt(xs: seq<Option<real>>, t: nat): (r: Option<real>)
    requires t <= |xs|
    ensures r.Some? ==> exists k :: t <= k < |xs| && xs[k] == r
    ensures r.None? ==> forall k :: t <= k < |xs| ==> xs[k].None?
    decreases |xs| - t
  {
    if t == |xs| then None else if xs[t].Some? then xs[t] else BackFillAt(xs, t + 1)
  }

  /**
   * `fillna(method="bfill")`: defined cells keep their value; an undefined
   * cell takes a value that occurs further down, and stays undefined only
   * when nothing at or below it is defined.
   */
  function BackFill(xs: seq<Option<real>>): (r: seq<Option<real>>)
    ensures |r| == |xs|
    ensures forall t :: 0 <= t < |xs| && xs[t].Some? ==> r[t] == xs[t]
    ensures forall t :: 0 <= t < |xs| && r[t].Some? ==> exists k :: t <= k < |xs| && xs[k] == r[t]
    ensures forall t :: 0 <= t < |xs| && r[t].None? ==> forall k :: t <= k < |xs| ==> xs[k].None?
  {
    seq(|xs|, t requires 0 <= t < |xs| => BackFillAt(xs, t))
  }

  /** The fill, run from the last row upwards carrying the next defined value. */
  method BackFillColumn(xs: seq<Option<real>>) returns (r: seq<Option<real>>)
    ensures r == BackFill(xs)
  {
    var a := new Option<real>[|xs|];
    var next: Option<real> := None;
    var t := |xs|;
    while t > 0
      invariant 0 <= t <= |xs|
      invariant next == BackFillAt(xs, t)
      invariant forall k :: t <= k < |xs| ==> a[k] == BackFillAt(xs, k)
    {
      t := t - 1;
      if xs[t].Some? {
        next := xs[t];
      }
      a[t] := next;
    }
    r := a[..];
  }

  /** Rows before the first defined cell take its value; defined cells keep theirs. */
  lemma {:induction false} BackFillTakesFirstDefined(xs: seq<Option<real>>, t: nat, k: nat)
    requires t <= k < |xs| && xs[k].Some?
    requires forall i :: t <= i < k ==> xs[i].None?
    ensures BackFill(xs)[t] == xs[k]
  {
    FirstDefinedFrom(xs, t, k);
  }

  lemma {:induction false} FirstDefinedFrom(xs: seq<Option<real>>, t: nat, k: nat)
    requires t <= k < |xs| && xs[k].Some?
    requires forall i :: t <= i < k ==> xs[i].None?
    ensures BackFillAt(xs, t) == xs[k]
    decreases k - t
  {
    if t < k {
      FirstDefinedFrom(xs, t + 1, k);
    }
  }

  /** A column with no defined cell stays undefined. */
  lemma {:induction false} BackFillOfUndefined(xs: seq<Option<real>>, t: nat)
    requires t <= |xs|
    requires forall i :: 0 <= i < |xs| ==> xs[i].None?
    ensures BackFillAt(xs, t) == None
    decreases |xs| - t
  {
    if t < |xs| {
      BackFillOfUndefined(xs, t + 1);
    }
  }
}
