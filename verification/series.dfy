/**
 * The fragment of pandas column semantics the backtest scripts rely on.
 *
 * A float column is a `seq<Option<real>>` in which `None` is NaN. As in pandas,
 * every comparison involving NaN is false, arithmetic propagates NaN, and the
 * boolean operators work on plain `bool` masks. All operations are aligned by
 * position (the scripts only ever combine columns of one frame).
 */
module Series {
  import opened Wrappers
  import opened Numeric

  type Column = seq<Option<real>>
  type Mask = seq<bool>

  /** A column with every cell defined. */
  function Lift<T>(xs: seq<T>): (c: seq<Option<T>>)
    ensures |c| == |xs|
    ensures forall k :: 0 <= k < |xs| ==> c[k] == Some(xs[k])
  {
    seq(|xs|, k requires 0 <= k < |xs| => Some(xs[k]))
  }

  /** `s.shift(1)`: every cell moves one row down and the first row becomes NaN. */
  function Shift<T>(c: seq<Option<T>>): (r: seq<Option<T>>)
    ensures |r| == |c|
    ensures |r| > 0 ==> r[0] == None
    ensures forall k :: 0 < k < |r| ==> r[k] == c[k - 1]
  {
    if |c| == 0 then [] else [None] + c[..|c| - 1]
  }

  /** `s.fillna(v)` with a scalar. */
  function FillNa<T>(c: seq<Option<T>>, v: T): (r: seq<T>)
    ensures |r| == |c|
    ensures forall k :: 0 <= k < |c| ==> r[k] == c[k].GetOr(v)
  {
    seq(|c|, k requires 0 <= k < |c| => c[k].GetOr(v))
  }

  /** `s.fillna(other)` with an aligned series. */
  function FillNaFrom<T>(c: seq<Option<T>>, other: seq<T>): (r: seq<T>)
    requires |c| == |other|
    ensures |r| == |c|
    ensures forall k :: 0 <= k < |c| ==> r[k] == c[k].GetOr(other[k])
  {
    seq(|c|, k requires 0 <= k < |c| => c[k].GetOr(other[k]))
  }

  datatype Cmp = Gt | Lt | Ge | Le

  predicate Holds(op: Cmp, x: real, y: real)
  {
    match op
    case Gt => x > y
    case Lt => x < y
    case Ge => x >= y
    case Le => x <= y
  }

  /** Element-wise comparison of two columns; NaN on either side gives false. */
  function Compare(a: Column, op: Cmp, b: Column): (m: Mask)
    requires |a| == |b|
    ensures |m| == |a|
    ensures forall k :: 0 <= k < |a| ==>
      (m[k] <==> a[k].Some? && b[k].Some? && Holds(op, a[k].value, b[k].value))
  {
    seq(|a|, k requires 0 <= k < |a| => a[k].Some? && b[k].Some? && Holds(op, a[k].value, b[k].value))
  }

  /** Comparison of a column with a scalar; NaN gives false. */
  function CompareConst(a: Column, op: Cmp, v: real): (m: Mask)
    ensures |m| == |a|
    ensures forall k :: 0 <= k < |a| ==> (m[k] <==> a[k].Some? && Holds(op, a[k].value, v))
  {
    seq(|a|, k requires 0 <= k < |a| => a[k].Some? && Holds(op, a[k].value, v))
  }

  function And(a: Mask, b: Mask): (m: Mask)
    requires |a| == |b|
    ensures |m| == |a|
    ensures forall k :: 0 <= k < |a| ==> (m[k] <==> a[k] && b[k])
  {
    seq(|a|, k requires 0 <= k < |a| => a[k] && b[k])
  }

  function Or(a: Mask, b: Mask): (m: Mask)
    requires |a| == |b|
    ensures |m| == |a|
    ensures forall k :: 0 <= k < |a| ==> (m[k] <==> a[k] || b[k])
  {
    seq(|a|, k requires 0 <= k < |a| => a[k] || b[k])
  }

  function Not(a: Mask): (m: Mask)
    ensures |m| == |a|
    ensures forall k :: 0 <= k < |a| ==> (m[k] <==> !a[k])
  {
    seq(|a|, k requires 0 <= k < |a| => !a[k])
  }

  /** `a - b`, NaN-propagating. */
  function Sub(a: Column, b: Column): (r: Column)
    requires |a| == |b|
    ensures |r| == |a|
    ensures forall k :: 0 <= k < |a| ==>
      r[k] == (if a[k].Some? && b[k].Some? then Some(a[k].value - b[k].value) else None)
  {
    seq(|a|, k requires 0 <= k < |a| =>
      if a[k].Some? && b[k].Some? then Some(a[k].value - b[k].value) else None)
  }

  /** Product of two cells, NaN-propagating. */
  function Times(x: Option<real>, y: Option<real>): (r: Option<real>)
    ensures r.Some? <==> x.Some? && y.Some?
    ensures r.Some? ==> r.value == x.value * y.value
  {
    if x.Some? && y.Some? then Some(x.value * y.value) else None
  }

  /** `a * b`, NaN-propagating. */
  function Mul(a: Column, b: Column): (r: Column)
    requires |a| == |b|
    ensures |r| == |a|
    ensures forall k :: 0 <= k < |a| ==> r[k] == Times(a[k], b[k])
  {
    seq(|a|, k requires 0 <= k < |a| => Times(a[k], b[k]))
  }

  /** `v + a` with a scalar v. */
  function AddConst(a: Column, v: real): (r: Column)
    ensures |r| == |a|
    ensures forall k :: 0 <= k < |a| ==> r[k] == (if a[k].Some? then Some(v + a[k].value) else None)
  {
    seq(|a|, k requires 0 <= k < |a| => if a[k].Some? then Some(v + a[k].value) else None)
  }

  /** `a * v` with a scalar v. */
  function MulConst(a: Column, v: real): (r: Column)
    ensures |r| == |a|
    ensures forall k :: 0 <= k < |a| ==> r[k] == Times(a[k], Some(v))
  {
    seq(|a|, k requires 0 <= k < |a| => Times(a[k], Some(v)))
  }

  /** `-a`. */
  function Neg(a: Column): (r: Column)
    ensures |r| == |a|
    ensures forall k :: 0 <= k < |a| ==> r[k] == (if a[k].Some? then Some(-a[k].value) else None)
  {
    seq(|a|, k requires 0 <= k < |a| => if a[k].Some? then Some(-a[k].value) else None)
  }

  /** `abs(a)`. */
  function AbsCol(a: Column): (r: Column)
    ensures |r| == |a|
    ensures forall k :: 0 <= k < |a| ==> r[k] == (if a[k].Some? then Some(Abs(a[k].value)) else None)
  {
    seq(|a|, k requires 0 <= k < |a| => if a[k].Some? then Some(Abs(a[k].value)) else None)
  }

  /** Larger of two cells, skipping NaN (the reduction of `DataFrame.max(axis=1)`). */
  function MaxSkipNa(x: Option<real>, y: Option<real>): (r: Option<real>)
    ensures r.None? <==> x.None? && y.None?
    ensures r.Some? && x.Some? ==> x.value <= r.value
    ensures r.Some? && y.Some? ==> y.value <= r.value
    ensures r == x || r == y
  {
    if x.None? then y
    else if y.None? then x
    else Some(Max(x.value, y.value))
  }

  /** `pd.concat([a, b, c], axis=1).max(axis=1)`: row-wise maximum, NaN skipped. */
  function RowMax3(a: Column, b: Column, c: Column): (r: Column)
    requires |a| == |b| == |c|
    ensures |r| == |a|
    ensures forall k :: 0 <= k < |a| ==> r[k] == MaxSkipNa(MaxSkipNa(a[k], b[k]), c[k])
  {
    seq(|a|, k requires 0 <= k < |a| => MaxSkipNa(MaxSkipNa(a[k], b[k]), c[k]))
  }

  /** `s.diff()`: difference with the previous row; the first row is NaN. */
  function Diff(a: Column): (r: Column)
    ensures |r| == |a|
    ensures |a| > 0 ==> r[0] == None
    ensures forall k :: 0 < k < |a| ==>
      r[k] == (if a[k].Some? && a[k - 1].Some? then Some(a[k].value - a[k - 1].value) else None)
  {
    seq(|a|, k requires 0 <= k < |a| =>
      if k > 0 && a[k].Some? && a[k - 1].Some? then Some(a[k].value - a[k - 1].value) else None)
  }

  /**
   * `s.pct_change()`: relative change from the previous row; the first row is
   * NaN. A zero previous value (where floating point gives inf or NaN) is
   * undefined here as well.
   */
  function PctChange(a: Column): (r: Column)
    ensures |r| == |a|
    ensures |a| > 0 ==> r[0] == None
    ensures forall k :: 0 < k < |a| ==>
      r[k] == (if a[k].Some? && a[k - 1].Some? && a[k - 1].value != 0.0
               then Some(a[k].value / a[k - 1].value - 1.0) else None)
  {
    seq(|a|, k requires 0 <= k < |a| =>
      if k > 0 && a[k].Some? && a[k - 1].Some? && a[k - 1].value != 0.0
      then Some(a[k].value / a[k - 1].value - 1.0) else None)
  }

  /** Product of the defined cells of a column (NaN cells are skipped). */
  function SkipNaProduct(c: Column): real
  {
    if |c| == 0 then 1.0 else SkipNaProduct(c[..|c| - 1]) * c[|c| - 1].GetOr(1.0)
  }

  /**
   * `s.cumprod()`: a NaN cell stays NaN, every other cell is the product of
   * all defined cells up to and including it.
   */
  function CumProd(c: Column): (r: Column)
    ensures |r| == |c|
    ensures forall k :: 0 <= k < |c| ==> (r[k].Some? <==> c[k].Some?)
  {
    seq(|c|, k requires 0 <= k < |c| => if c[k].Some? then Some(SkipNaProduct(c[..k + 1])) else None)
  }

  /** The closest defined cell at or above row k, if any. */
  function LastDefined<T>(c: seq<Option<T>>, k: nat): Option<T>
    requires k < |c|
  {
    if c[k].Some? then c[k] else if k == 0 then None else LastDefined(c, k - 1)
  }

  /** `s.ffill()`: a NaN cell takes the closest defined cell above it, if any. */
  function FFill<T>(c: seq<Option<T>>): (r: seq<Option<T>>)
    ensures |r| == |c|
    ensures forall k :: 0 <= k < |c| && c[k].Some? ==> r[k] == c[k]
    ensures |c| > 0 && c[0].None? ==> r[0] == None
    ensures forall k :: 0 < k < |c| && c[k].None? ==> r[k] == r[k - 1]
  {
    seq(|c|, k requires 0 <= k < |c| => LastDefined(c, k))
  }

  /** `s.replace(0, np.nan)` on an integer column. */
  function ReplaceZero(s: seq<int>): (r: seq<Option<int>>)
    ensures |r| == |s|
    ensures forall k :: 0 <= k < |s| ==> r[k] == (if s[k] == 0 then None else Some(s[k]))
  {
    seq(|s|, k requires 0 <= k < |s| => if s[k] == 0 then None else Some(s[k]))
  }

  /** An integer column of zeros (`pd.Series(0, index=...)`, `df['Signal'] = 0`). */
  function Zeros(n: nat): (s: seq<int>)
    ensures |s| == n
    ensures forall k :: 0 <= k < n ==> s[k] == 0
  {
    seq(n, k requires 0 <= k < n => 0)
  }

  /** Masked assignment `s[mask] = v` / `df.loc[mask, col] = v`: later writes win. */
  function Put(s: seq<int>, mask: Mask, v: int): (r: seq<int>)
    requires |s| == |mask|
    ensures |r| == |s|
    ensures forall k :: 0 <= k < |s| ==> r[k] == (if mask[k] then v else s[k])
  {
    seq(|s|, k requires 0 <= k < |s| => if mask[k] then v else s[k])
  }

  /** An integer column read as floats. */
  function ToReal(s: seq<int>): (r: seq<real>)
    ensures |r| == |s|
    ensures forall k :: 0 <= k < |s| ==> r[k] == s[k] as real
  {
    seq(|s|, k requires 0 <= k < |s| => s[k] as real)
  }

  /** `s.expanding().max()`: the running maximum. */
  function ExpandingMax(xs: seq<real>): (r: seq<real>)
    ensures |r| == |xs|
    ensures forall k :: 0 <= k < |xs| ==> r[k] == MaxOf(xs[..k + 1])
  {
    seq(|xs|, k requires 0 <= k < |xs| => MaxOf(xs[..k + 1]))
  }

  /**
   * `a / b`, NaN-propagating. Division by zero, which floating point turns
   * into an infinity or NaN, is undefined here.
   */
  function Div(a: Column, b: Column): (r: Column)
    requires |a| == |b|
    ensures |r| == |a|
    ensures forall k :: 0 <= k < |a| ==>
      r[k] == (if a[k].Some? && b[k].Some? && b[k].value != 0.0 then Some(a[k].value / b[k].value) else None)
  {
    seq(|a|, k requires 0 <= k < |a| =>
      if a[k].Some? && b[k].Some? && b[k].value != 0.0 then Some(a[k].value / b[k].value) else None)
  }

  /** `s == v` on an integer column. */
  function IsValue(s: seq<int>, v: int): (m: Mask)
    ensures |m| == |s|
    ensures forall k :: 0 <= k < |s| ==> (m[k] <==> s[k] == v)
  {
    seq(|s|, k requires 0 <= k < |s| => s[k] == v)
  }

  /** `(1 + rets).cumprod()`: the growth of one unit invested at the returns rets. */
  function Growth(rets: Column): (g: Column)
    ensures |g| == |rets|
    ensures forall k :: 0 <= k < |rets| ==> (g[k].Some? <==> rets[k].Some?)
  {
    CumProd(AddConst(rets, 1.0))
  }

  // ---------------------------------------------------------------------------
  // Properties of the column operations
  // ---------------------------------------------------------------------------

  /** The cumulative product grows by one factor per defined row. */
  lemma CumProdStep(c: Column, k: nat)
    requires 0 < k < |c|
    requires c[k].Some?
    ensures SkipNaProduct(c[..k + 1]) == SkipNaProduct(c[..k]) * c[k].value
  {
    assert c[..k + 1][..k] == c[..k];
  }

  /** A column whose defined cells are all 1 has a cumulative product of 1 wherever defined. */
  lemma {:induction false} CumProdOfOnes(c: Column, n: nat)
    requires n <= |c|
    requires forall k :: 0 <= k < |c| && c[k].Some? ==> c[k].value == 1.0
    ensures SkipNaProduct(c[..n]) == 1.0
  {
    if n > 0 {
      CumProdOfOnes(c, n - 1);
      assert c[..n][..n - 1] == c[..n - 1];
    }
  }

  /** The running maximum bounds every value so far and is attained by one of them. */
  lemma ExpandingMaxBounds(xs: seq<real>, k: nat)
    requires k < |xs|
    ensures xs[k] <= ExpandingMax(xs)[k]
    ensures exists j :: 0 <= j <= k && ExpandingMax(xs)[k] == xs[j]
  {
    var m := ExpandingMax(xs)[k];
    assert xs[..k + 1][k] == xs[k];
    var j :| 0 <= j < k + 1 && xs[..k + 1][j] == m;
    assert xs[j] == m;
  }

  /** Multiplying a shifted column: cell k is row k-1 of the first column times cell k of the other. */
  lemma ShiftedProductAt(a: seq<real>, b: Column, r: Column, k: nat)
    requires |a| == |b| && k < |a| && r == Mul(Shift(Lift(a)), b)
    ensures r[k].Some? <==> k > 0 && b[k].Some?
    ensures k > 0 && b[k].Some? ==> r[k].value == a[k - 1] * b[k].value
  {
  }

  /** A defined row of a compounded series is the product of the factors of the defined rows so far. */
  lemma GrowthAt(rets: Column, k: nat)
    requires k < |rets| && rets[k].Some?
    ensures Growth(rets)[k] == Some(SkipNaProduct(AddConst(rets, 1.0)[..k + 1]))
  {
  }

  /** After an undefined first row, a compounded series starts at 1 + rets[1]. */
  lemma GrowthSecond(rets: Column)
    requires |rets| > 1 && rets[0].None? && rets[1].Some?
    ensures Growth(rets)[1] == Some(1.0 + rets[1].value)
  {
    var factors := AddConst(rets, 1.0);
    assert factors[..2][..1] == factors[..1];
    assert factors[..1][..0] == [];
    assert SkipNaProduct(factors[..1]) == 1.0;
  }

  /** Between two defined rows a compounded series grows by the factor 1 + rets[k]. */
  lemma GrowthRecurrence(rets: Column, k: nat)
    requires 0 < k < |rets| && rets[k].Some? && rets[k - 1].Some?
    ensures Growth(rets)[k].value == Growth(rets)[k - 1].value * (1.0 + rets[k].value)
  {
    var factors := AddConst(rets, 1.0);
    CumProdStep(factors, k);
  }

  /**
   * Compounding a return column whose first row is undefined (as every
   * lagged return is): undefined on row 0, 1 + rets[1] on row 1, and growth
   * by 1 + rets[k] between two defined rows after that.
   */
  lemma GrowthAfterFirstBar(rets: Column, k: nat)
    requires k < |rets| && rets[0].None?
    ensures Growth(rets)[k].Some? <==> rets[k].Some?
    ensures k == 0 ==> Growth(rets)[k].None?
    ensures k == 1 && rets[1].Some? ==> Growth(rets)[1] == Some(1.0 + rets[1].value)
    ensures k > 1 && rets[k].Some? && rets[k - 1].Some? ==>
      Growth(rets)[k].value == Growth(rets)[k - 1].value * (1.0 + rets[k].value)
  {
    if k == 1 && rets[1].Some? {
      GrowthSecond(rets);
    } else if k > 1 && rets[k].Some? && rets[k - 1].Some? {
      GrowthRecurrence(rets, k);
    }
  }

  /** Compounding returns that are all zero stays at 1 wherever it is defined. */
  lemma GrowthOfZeros(rets: Column, k: nat)
    requires k < |rets| && rets[k].Some?
    requires forall j :: 0 <= j < |rets| && rets[j].Some? ==> rets[j].value == 0.0
    ensures Growth(rets)[k] == Some(1.0)
  {
    var factors := AddConst(rets, 1.0);
    CumProdOfOnes(factors, k + 1);
  }
}
