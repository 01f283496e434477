/**
 * The accounting that surrounds the trend strategy's signals: splitting the
 * entries by direction, the synthetic inverted price used to backtest shorts
 * as longs, and the equity curve and drawdown shown in the report.
 */
module StrategyPortfolio {
  import opened Wrappers
  import opened Numeric
  import opened Series
  import opened StrategySignals

  // ---------------------------------------------------------------------------
  // Entry split
  // ---------------------------------------------------------------------------

  /** `entries & (direction == 1)`. */
  function EntriesLong(s: Signals): (m: Mask)
    requires |s.entries| == |s.direction|
    ensures |m| == |s.entries|
  {
    And(s.entries, IsValue(s.direction, 1))
  }

  /** `entries & (direction == -1)`. */
  function EntriesShort(s: Signals): (m: Mask)
    requires |s.entries| == |s.direction|
    ensures |m| == |s.entries|
  {
    And(s.entries, IsValue(s.direction, -1))
  }

  /**
   * The split partitions the entries: no bar is both a long and a short
   * entry, every entry is one of the two, and a bar where both the long and
   * the short condition rose goes to the short side.
   */
  lemma EntrySplit(f: Frame, k: nat)
    requires f.Aligned() && k < |f.close|
    ensures var s := RunStrategy(f);
      && !(EntriesLong(s)[k] && EntriesShort(s)[k])
      && (EntriesLong(s)[k] || EntriesShort(s)[k] <==> s.entries[k])
      && (EntriesLong(s)[k] <==> LongEntry(f)[k] && !ShortEntry(f)[k])
      && (EntriesShort(s)[k] <==> ShortEntry(f)[k])
  {
    DirectionAt(f, k);
  }

  // ---------------------------------------------------------------------------
  // Compounding
  // ---------------------------------------------------------------------------

  /** `init * (1 + rets).cumprod()` on a fully defined return series. */
  function Compound(init: real, rets: seq<real>): (c: Column)
    ensures |c| == |rets|
  {
    MulConst(Growth(Lift(rets)), init)
  }

  /** The reference reading of value k: init·(1 + r[0]), then one factor 1 + r[j] per bar. */
  function CompoundedAt(init: real, rets: seq<real>, k: nat): real
    requires k < |rets|
  {
    if k == 0 then (1.0 + rets[0]) * init else CompoundedAt(init, rets, k - 1) * (1.0 + rets[k])
  }

  function Compounded(init: real, rets: seq<real>): (v: seq<real>)
    ensures |v| == |rets|
  {
    seq(|rets|, k requires 0 <= k < |rets| => CompoundedAt(init, rets, k))
  }

  /** The pandas product of the factors of rows 0..k, times init, is the reference value k. */
  lemma {:induction false} SkipNaProductOfFactors(init: real, rets: seq<real>, k: nat)
    requires k < |rets|
    ensures SkipNaProduct(AddConst(Lift(rets), 1.0)[..k + 1]) * init == CompoundedAt(init, rets, k)
  {
    var cells := AddConst(Lift(rets), 1.0);
    var before := SkipNaProduct(cells[..k]);
    assert cells[..k + 1][..k] == cells[..k];
    assert SkipNaProduct(cells[..k + 1]) == before * (1.0 + rets[k]);
    if k == 0 {
      assert before == 1.0;
    } else {
      SkipNaProductOfFactors(init, rets, k - 1);
      MulCommutes3(before, 1.0 + rets[k], init);
    }
  }

  /** The pandas compounding is defined on every row and equals the reference reading. */
  lemma CompoundIsCompounded(init: real, rets: seq<real>)
    ensures Compound(init, rets) == Lift(Compounded(init, rets))
  {
    forall k | 0 <= k < |rets|
      ensures Compound(init, rets)[k] == Some(Compounded(init, rets)[k])
    {
      CompoundAt(init, rets, k);
    }
  }

  lemma CompoundAt(init: real, rets: seq<real>, k: nat)
    requires k < |rets|
    ensures Compound(init, rets)[k] == Some(Compounded(init, rets)[k])
  {
    var g := Growth(Lift(rets));
    var product := SkipNaProduct(AddConst(Lift(rets), 1.0)[..k + 1]);
    GrowthAt(Lift(rets), k);
    assert g[k] == Some(product);
    SkipNaProductOfFactors(init, rets, k);
    assert product * init == CompoundedAt(init, rets, k);
    assert Compound(init, rets)[k] == Times(g[k], Some(init));
    assert Times(g[k], Some(init)).value == product * init;
    assert Compounded(init, rets)[k] == CompoundedAt(init, rets, k);
  }

  /** A compounded series starts at init·(1 + r[0]) and grows by the factor 1 + r[k]. */
  lemma CompoundedStep(init: real, rets: seq<real>, k: nat)
    requires k < |rets|
    ensures k == 0 ==> Compounded(init, rets)[k] == (1.0 + rets[0]) * init
    ensures k > 0 ==> Compounded(init, rets)[k] == Compounded(init, rets)[k - 1] * (1.0 + rets[k])
  {
  }

  /** Proof step for SkipNaProductOfFactors: reorder a product of three factors. */
  lemma MulCommutes3(a: real, b: real, c: real)
    ensures a * b * c == a * c * b
  {
  }

  // ---------------------------------------------------------------------------
  // Synthetic short price
  // ---------------------------------------------------------------------------

  /** Daily return of the close at bar k: 0 on the first bar and where the previous close is 0. */
  function DailyReturn(close: seq<real>, k: nat): real
    requires k < |close|
  {
    if k > 0 && close[k - 1] != 0.0 then close[k] / close[k - 1] - 1.0 else 0.0
  }

  function DailyReturns(close: seq<real>): (rs: seq<real>)
    ensures |rs| == |close|
    ensures forall k :: 0 <= k < |close| ==> rs[k] == DailyReturn(close, k)
  {
    seq(|close|, k requires 0 <= k < |close| => DailyReturn(close, k))
  }

  /** `close.pct_change().fillna(0)` is the daily return. */
  lemma FilledPctChange(close: seq<real>)
    ensures FillNa(PctChange(Lift(close)), 0.0) == DailyReturns(close)
  {
  }

  /** `-close.pct_change().fillna(0)`. */
  function ShortReturns(close: seq<real>): (rs: seq<real>)
    ensures |rs| == |close|
  {
    FillNa(Neg(PctChange(Lift(close))), 0.0)
  }

  /** The reference short return of every bar: the negated daily return of the close. */
  function NegatedReturns(close: seq<real>): (rs: seq<real>)
    ensures |rs| == |close|
  {
    seq(|close|, k requires 0 <= k < |close| => -DailyReturn(close, k))
  }

  /** The pandas short return column is the negated daily return (0 where that is undefined). */
  lemma ShortReturnsNegated(close: seq<real>)
    ensures ShortReturns(close) == NegatedReturns(close)
  {
    forall k | 0 <= k < |close|
      ensures ShortReturns(close)[k] == -DailyReturn(close, k)
    {
    }
  }

  /** `(1 + short_returns).cumprod() * close.iloc[0]`. */
  function ShortClose(close: seq<real>): (sc: Column)
    requires |close| > 0
    ensures |sc| == |close|
  {
    Compound(close[0], ShortReturns(close))
  }

  /** The reference synthetic price: the first close compounded by the negated daily returns. */
  function ShortPrices(close: seq<real>): (sp: seq<real>)
    requires |close| > 0
    ensures |sp| == |close|
  {
    Compounded(close[0], NegatedReturns(close))
  }

  /** The pandas synthetic close is defined on every bar and equals the reference price. */
  lemma ShortCloseIsShortPrices(close: seq<real>)
    requires |close| > 0
    ensures ShortClose(close) == Lift(ShortPrices(close))
  {
    ShortReturnsNegated(close);
    CompoundIsCompounded(close[0], NegatedReturns(close));
  }

  /**
   * The synthetic price starts at the first close and each bar multiplies it
   * by 1 minus the close's daily return.
   */
  lemma ShortPricesStep(close: seq<real>, k: nat)
    requires k < |close|
    ensures k == 0 ==> ShortPrices(close)[k] == close[0]
    ensures k > 0 ==> ShortPrices(close)[k] == ShortPrices(close)[k - 1] * (1.0 - DailyReturn(close, k))
  {
    CompoundedStep(close[0], NegatedReturns(close), k);
  }

  /**
   * Wherever the previous close and the previous synthetic price are non-zero,
   * the synthetic price's return is exactly the negated return of the close.
   */
  lemma ShortPricesReturn(close: seq<real>, k: nat)
    requires 0 < k < |close| && close[k - 1] != 0.0 && ShortPrices(close)[k - 1] != 0.0
    ensures ShortPrices(close)[k] / ShortPrices(close)[k - 1] - 1.0 == -(close[k] / close[k - 1] - 1.0)
  {
    ShortPricesStep(close, k);
    NegatedReturn(ShortPrices(close)[k - 1], ShortPrices(close)[k], DailyReturn(close, k));
  }

  lemma NegatedReturn(prev: real, cur: real, r: real)
    requires prev != 0.0 && cur == prev * (1.0 - r)
    ensures cur / prev - 1.0 == -r
  {
    QuotientOf(cur, prev, 1.0 - r);
  }

  /**
   * The inversion only works for moves below 100%: a bar on which the close
   * at least doubles takes a positive synthetic price to zero or below.
   */
  lemma ShortPricesCollapse(close: seq<real>, k: nat)
    requires 0 < k < |close| && close[k - 1] > 0.0 && close[k] >= 2.0 * close[k - 1]
    requires ShortPrices(close)[k - 1] > 0.0
    ensures ShortPrices(close)[k] <= 0.0
  {
    ShortPricesStep(close, k);
    DoublingWipesOut(ShortPrices(close)[k - 1], close[k - 1], close[k]);
  }

  lemma DoublingWipesOut(prev: real, before: real, after: real)
    requires prev > 0.0 && before > 0.0 && after >= 2.0 * before
    ensures prev * (1.0 - (after / before - 1.0)) <= 0.0
  {
    assert after / before >= 2.0;
    MulNonPositive(prev, 1.0 - (after / before - 1.0));
  }

  // ---------------------------------------------------------------------------
  // Equity curve and drawdown
  // ---------------------------------------------------------------------------

  /** `init_cash * (1 + returns).cumprod()`, with the fallback `.fillna(init_cash)`. */
  function PortfolioValue(initCash: real, rets: seq<real>): (v: seq<real>)
    ensures |v| == |rets|
  {
    FillNa(Compound(initCash, rets), initCash)
  }

  /**
   * The benchmark: `init_cash * (1 + close.pct_change().fillna(0)).cumprod()`.
   * It reuses PortfolioValue, whose `.fillna(init_cash)` the benchmark
   * statement does not have; on a fully defined return series that fill never
   * applies (PortfolioValueIsCompounded), so the two agree.
   */
  function BenchmarkValue(initCash: real, close: seq<real>): (v: seq<real>)
    ensures |v| == |close|
  {
    PortfolioValue(initCash, FillNa(PctChange(Lift(close)), 0.0))
  }

  /** The equity curve never needs its NaN fallback: it is the compounded capital. */
  lemma PortfolioValueIsCompounded(initCash: real, rets: seq<real>)
    ensures PortfolioValue(initCash, rets) == Compounded(initCash, rets)
  {
    CompoundIsCompounded(initCash, rets);
  }

  /** Positive capital and returns above -100% keep the compounded capital positive. */
  lemma {:induction false} CompoundedPositive(initCash: real, rets: seq<real>, k: nat)
    requires k < |rets| && initCash > 0.0
    requires forall j :: 0 <= j <= k ==> rets[j] > -1.0
    ensures Compounded(initCash, rets)[k] > 0.0
  {
    CompoundedStep(initCash, rets, k);
    if k == 0 {
      MulPositive(1.0 + rets[0], initCash);
    } else {
      CompoundedPositive(initCash, rets, k - 1);
      MulPositive(Compounded(initCash, rets)[k - 1], 1.0 + rets[k]);
    }
  }

  /** With positive closes, compounding the daily returns is buy-and-hold: init · close[k] / close[0]. */
  lemma {:induction false} CompoundedDailyReturns(initCash: real, close: seq<real>, k: nat)
    requires k < |close|
    requires forall j :: 0 <= j < |close| ==> close[j] > 0.0
    ensures Compounded(initCash, DailyReturns(close))[k] == initCash * close[k] / close[0]
  {
    if k == 0 {
      CompoundedStep(initCash, DailyReturns(close), k);
      Unchanged(initCash, close[0]);
    } else {
      CompoundedDailyReturns(initCash, close, k - 1);
      CompoundedDailyStep(initCash, close, k);
    }
  }

  /** One bar of buy-and-hold: capital init · close[k-1]/close[0] becomes init · close[k]/close[0]. */
  lemma CompoundedDailyStep(initCash: real, close: seq<real>, k: nat)
    requires 0 < k < |close|
    requires close[0] > 0.0 && close[k - 1] > 0.0
    requires Compounded(initCash, DailyReturns(close))[k - 1] == initCash * close[k - 1] / close[0]
    ensures Compounded(initCash, DailyReturns(close))[k] == initCash * close[k] / close[0]
  {
    var v := Compounded(initCash, DailyReturns(close));
    CompoundedStep(initCash, DailyReturns(close), k);
    Telescope(initCash, close[0], close[k - 1], close[k], v[k - 1], DailyReturns(close)[k], v[k]);
  }

  /** The benchmark curve is buy-and-hold of the initial cash. */
  lemma BenchmarkTracksClose(initCash: real, close: seq<real>, k: nat)
    requires k < |close|
    requires forall j :: 0 <= j < |close| ==> close[j] > 0.0
    ensures BenchmarkValue(initCash, close)[k] == initCash * close[k] / close[0]
  {
    FilledPctChange(close);
    PortfolioValueIsCompounded(initCash, DailyReturns(close));
    CompoundedDailyReturns(initCash, close, k);
  }

  /** Proof step for CompoundedDailyReturns on bar 0: a zero return leaves a·first/first at a. */
  lemma Unchanged(a: real, first: real)
    requires first != 0.0
    ensures (1.0 + 0.0) * a == a * first / first
  {
  }

  /** Compounding the return r = after/before - 1 onto prev = a·before/first gives a·after/first. */
  lemma Telescope(a: real, first: real, before: real, after: real, prev: real, r: real, cur: real)
    requires first != 0.0 && before != 0.0 && prev == a * before / first
    requires r == after / before - 1.0 && cur == prev * (1.0 + r)
    ensures cur == a * after / first
  {
    var growth := before / first;
    ChainRatio(first, before, after, growth, r);
    assert prev == a * growth;
  }

  /** `portfolio_value.expanding().max()`. */
  function RunningMax(v: seq<real>): (m: seq<real>)
    ensures |m| == |v|
  {
    ExpandingMax(v)
  }

  /** `(portfolio_value - running_max) / running_max`; undefined where the running maximum is 0. */
  function Drawdown(v: seq<real>): (dd: Column)
    ensures |dd| == |v|
  {
    var runMax := RunningMax(v);
    Div(Sub(Lift(v), Lift(runMax)), Lift(runMax))
  }

  /** The drawdown cell: relative distance of the value below the running maximum. */
  lemma DrawdownAt(v: seq<real>, k: nat)
    requires k < |v| && RunningMax(v)[k] != 0.0
    ensures Drawdown(v)[k] == Some((v[k] - RunningMax(v)[k]) / RunningMax(v)[k])
  {
  }

  /** The running maximum bounds the values so far and is one of them. */
  lemma RunningMaxBounds(v: seq<real>, k: nat)
    requires k < |v|
    ensures forall j :: 0 <= j <= k ==> v[j] <= RunningMax(v)[k]
    ensures exists j :: 0 <= j <= k && v[j] == RunningMax(v)[k]
  {
    var seen := v[..k + 1];
    assert RunningMax(v)[k] == MaxOf(seen);
    assert forall j :: 0 <= j <= k ==> v[j] == seen[j];
    ExpandingMaxBounds(v, k);
  }

  /**
   * For a positive equity curve the drawdown is defined, lies in (-1, 0], and
   * is 0 exactly on bars where the value is at its running maximum, i.e. is
   * not below any earlier value.
   */
  lemma DrawdownBounds(v: seq<real>, k: nat)
    requires k < |v|
    requires forall j :: 0 <= j <= k ==> v[j] > 0.0
    ensures Drawdown(v)[k].Some?
    ensures -1.0 < Drawdown(v)[k].value <= 0.0
    ensures Drawdown(v)[k].value == 0.0 <==> v[k] == RunningMax(v)[k]
    ensures Drawdown(v)[k].value == 0.0 <==> forall j :: 0 <= j <= k ==> v[j] <= v[k]
  {
    var m := RunningMax(v)[k];
    RunningMaxBounds(v, k);
    var j :| 0 <= j <= k && v[j] == m;
    assert m > 0.0;
    DrawdownAt(v, k);
    DrawdownRatio(v[k], m);
  }

  /** For 0 < x <= m the relative distance (x - m)/m lies in (-1, 0] and is 0 iff x == m. */
  lemma DrawdownRatio(x: real, m: real)
    requires 0.0 < x <= m
    ensures -1.0 < (x - m) / m <= 0.0
    ensures (x - m) / m == 0.0 <==> x == m
  {
    var d := (x - m) / m;
    assert d * m == x - m;
    if d <= -1.0 {
      MulNonPositive(m, d + 1.0);
      assert false;
    }
    if d > 0.0 {
      MulPositive(d, m);
      assert false;
    }
  }

  lemma MulNonPositive(a: real, b: real)
    requires a >= 0.0 && b <= 0.0
    ensures a * b <= 0.0
  {
  }
}
