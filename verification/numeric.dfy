/** Exact real arithmetic shared by the indicators: sums, extrema and ratios. */
module Numeric {

  function Abs(x: real): (r: real)
    ensures r >= 0.0
    ensures r == x || r == -x
  {
    if x < 0.0 then -x else x
  }

  function Max(x: real, y: real): (r: real)
    ensures r >= x && r >= y
    ensures r == x || r == y
  {
    if x >= y then x else y
  }

  /** Sum of a sequence, accumulated from the left. */
  function Sum(xs: seq<real>): real
  {
    if |xs| == 0 then 0.0 else Sum(xs[..|xs| - 1]) + xs[|xs| - 1]
  }

  /** Largest element of a non-empty sequence. */
  function MaxOf(xs: seq<real>): (m: real)
    requires |xs| > 0
    ensures forall i :: 0 <= i < |xs| ==> xs[i] <= m
    ensures exists i :: 0 <= i < |xs| && xs[i] == m
  {
    if |xs| == 1 then xs[0]
    else
      var m' := MaxOf(xs[..|xs| - 1]);
      assert forall i :: 0 <= i < |xs| - 1 ==> xs[..|xs| - 1][i] == xs[i];
      if xs[|xs| - 1] > m' then xs[|xs| - 1] else m'
  }

  /** Smallest element of a non-empty sequence. */
  function MinOf(xs: seq<real>): (m: real)
    requires |xs| > 0
    ensures forall i :: 0 <= i < |xs| ==> m <= xs[i]
    ensures exists i :: 0 <= i < |xs| && xs[i] == m
  {
    if |xs| == 1 then xs[0]
    else
      var m' := MinOf(xs[..|xs| - 1]);
      assert forall i :: 0 <= i < |xs| - 1 ==> xs[..|xs| - 1][i] == xs[i];
      if xs[|xs| - 1] < m' then xs[|xs| - 1] else m'
  }

  /** The sum of n copies of c is n times c. */
  lemma {:induction false} SumConstant(xs: seq<real>, c: real)
    requires forall i :: 0 <= i < |xs| ==> xs[i] == c
    ensures Sum(xs) == |xs| as real * c
  {
    if |xs| > 0 {
      SumConstant(xs[..|xs| - 1], c);
    }
  }

  /** A sum of non-negative terms is non-negative. */
  lemma {:induction false} SumNonNegative(xs: seq<real>)
    requires forall i :: 0 <= i < |xs| ==> xs[i] >= 0.0
    ensures Sum(xs) >= 0.0
  {
    if |xs| > 0 {
      SumNonNegative(xs[..|xs| - 1]);
    }
  }

  /** The convex combination of x and y with weight t on y. */
  function Blend(x: real, y: real, t: real): real
  {
    (1.0 - t) * x + t * y
  }

  /** A convex combination of two points of [lo, hi] stays in [lo, hi]. */
  lemma BlendWithin(x: real, y: real, t: real, lo: real, hi: real)
    requires 0.0 < t < 1.0
    requires lo <= x <= hi && lo <= y <= hi
    ensures lo <= Blend(x, y, t) <= hi
  {
    MulNonNegative(1.0 - t, x - lo);
    MulNonNegative(t, y - lo);
    MulNonNegative(1.0 - t, hi - x);
    MulNonNegative(t, hi - y);
  }

  lemma MulNonNegative(a: real, b: real)
    requires a >= 0.0 && b >= 0.0
    ensures a * b >= 0.0
  {
  }

  lemma MulPositive(a: real, b: real)
    requires a > 0.0 && b > 0.0
    ensures a * b > 0.0
  {
  }

  /** Dividing a product by one of its non-zero factors leaves the other. */
  lemma QuotientOf(c: real, a: real, b: real)
    requires a != 0.0 && c == a * b
    ensures c / a == b
  {
    var q := c / a;
    assert q * a == c;
    assert (q - b) * a == 0.0;
  }

  /** Growing prev = before/first by the return r = after/before - 1 gives after/first. */
  lemma ChainRatio(first: real, before: real, after: real, prev: real, r: real)
    requires first != 0.0 && before != 0.0
    requires prev == before / first && r == after / before - 1.0
    ensures prev * (1.0 + r) == after / first
  {
    var ratio := after / before;
    assert 1.0 + r == ratio;
    assert before * ratio == after;
  }

  lemma DivNonNegative(a: real, b: real)
    requires a >= 0.0 && b > 0.0
    ensures a / b >= 0.0
  {
  }

  /** The maximum of a slice bounds each of its elements and is one of them. */
  lemma MaxOfSlice(xs: seq<real>, lo: nat, hi: nat)
    requires lo < hi <= |xs|
    ensures forall j :: lo <= j < hi ==> xs[j] <= MaxOf(xs[lo..hi])
    ensures exists j :: lo <= j < hi && xs[j] == MaxOf(xs[lo..hi])
  {
    var window := xs[lo..hi];
    assert forall j :: lo <= j < hi ==> xs[j] == window[j - lo];
    var i :| 0 <= i < |window| && window[i] == MaxOf(window);
    assert xs[lo + i] == MaxOf(window);
  }

  /** The minimum of a slice bounds each of its elements and is one of them. */
  lemma MinOfSlice(xs: seq<real>, lo: nat, hi: nat)
    requires lo < hi <= |xs|
    ensures forall j :: lo <= j < hi ==> MinOf(xs[lo..hi]) <= xs[j]
    ensures exists j :: lo <= j < hi && xs[j] == MinOf(xs[lo..hi])
  {
    var window := xs[lo..hi];
    assert forall j :: lo <= j < hi ==> xs[j] == window[j - lo];
    var i :| 0 <= i < |window| && window[i] == MinOf(window);
    assert xs[lo + i] == MinOf(window);
  }
}
