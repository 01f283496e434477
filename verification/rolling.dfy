/**
 * Fixed-size rolling windows (`s.rolling(w).mean()/.max()/.min()`).
 *
 * pandas' default `min_periods` equals the window, so the value at row k is
 * defined exactly when the w rows ending at k exist and are all defined.
 */
module Rolling {
  import opened Wrappers
  import opened Numeric
  import opened Series

  /** The w rows ending at row k exist and are all defined. */
  predicate WindowReady(c: Column, k: int, w: nat)
  {
    && w >= 1
    && w - 1 <= k < |c|
    && forall j :: k + 1 - w <= j <= k ==> c[j].Some?
  }

  /** The values of the w rows ending at row k, oldest first. */
  function Window(c: Column, k: int, w: nat): (xs: seq<real>)
    requires WindowReady(c, k, w)
    ensures |xs| == w
    ensures forall i :: 0 <= i < w ==> xs[i] == c[k + 1 - w + i].value
  {
    seq(w, i requires 0 <= i < w => c[k + 1 - w + i].value)
  }

  function RollingMean(c: Column, w: nat): (r: Column)
    requires w >= 1
    ensures |r| == |c|
    ensures forall k :: 0 <= k < |c| ==>
      r[k] == (if WindowReady(c, k, w) then Some(Sum(Window(c, k, w)) / w as real) else None)
  {
    seq(|c|, k requires 0 <= k < |c| =>
      if WindowReady(c, k, w) then Some(Sum(Window(c, k, w)) / w as real) else None)
  }

  function RollingMax(c: Column, w: nat): (r: Column)
    requires w >= 1
    ensures |r| == |c|
    ensures forall k :: 0 <= k < |c| ==>
      r[k] == (if WindowReady(c, k, w) then Some(MaxOf(Window(c, k, w))) else None)
  {
    seq(|c|, k requires 0 <= k < |c| =>
      if WindowReady(c, k, w) then Some(MaxOf(Window(c, k, w))) else None)
  }

  function RollingMin(c: Column, w: nat): (r: Column)
    requires w >= 1
    ensures |r| == |c|
    ensures forall k :: 0 <= k < |c| ==>
      r[k] == (if WindowReady(c, k, w) then Some(MinOf(Window(c, k, w))) else None)
  {
    seq(|c|, k requires 0 <= k < |c| =>
      if WindowReady(c, k, w) then Some(MinOf(Window(c, k, w))) else None)
  }

  /** On a fully defined column the window is the slice of the underlying values. */
  lemma WindowOfLift(xs: seq<real>, k: int, w: nat)
    requires w >= 1 && w - 1 <= k < |xs|
    ensures WindowReady(Lift(xs), k, w)
    ensures Window(Lift(xs), k, w) == xs[k + 1 - w..k + 1]
  {
  }

  /**
   * The rolling mean of a fully defined column is defined exactly from row
   * w-1 on, and is there the mean of the last w values.
   */
  lemma RollingMeanOfLift(xs: seq<real>, w: nat, k: nat)
    requires w >= 1 && k < |xs|
    ensures RollingMean(Lift(xs), w)[k].Some? <==> k >= w - 1
    ensures k >= w - 1 ==> RollingMean(Lift(xs), w)[k] == Some(Sum(xs[k + 1 - w..k + 1]) / w as real)
  {
    if k >= w - 1 {
      WindowOfLift(xs, k, w);
    }
  }
}
