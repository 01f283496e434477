/**
 * The vectorised return accounting the scripts share: daily market returns,
 * a position applied to the next day's return, and compounding.
 *
 * The position lemmas are stated for any column of returns, so that they hold
 * whatever produced the returns; the market returns are one instance.
 */
module Backtest {
  import opened Wrappers
  import opened Numeric
  import opened Series

  /** `Close.pct_change()`. */
  function MarketReturns(close: seq<real>): (mr: Column)
    ensures |mr| == |close|
  {
    PctChange(Lift(close))
  }

  /** `position.shift(1) * rets`: today's return earned by yesterday's position. */
  function LaggedReturns(position: seq<real>, rets: Column): (lagged: Column)
    requires |position| == |rets|
    ensures |lagged| == |rets|
  {
    Mul(Shift(Lift(position)), rets)
  }

  /** `Signal.shift(1) * Market_Returns` for an integer signal column. */
  function SignalReturns(signal: seq<int>, close: seq<real>): (sr: Column)
    requires |signal| == |close|
    ensures |sr| == |close|
  {
    LaggedReturns(ToReal(signal), MarketReturns(close))
  }

  /**
   * The market return is undefined on bar 0 and after a zero close, and is
   * otherwise the relative change of the close.
   */
  lemma MarketReturnAt(close: seq<real>, k: nat)
    requires k < |close|
    ensures MarketReturns(close)[k].Some? <==> k > 0 && close[k - 1] != 0.0
    ensures k > 0 && close[k - 1] != 0.0 ==> MarketReturns(close)[k].value == close[k] / close[k - 1] - 1.0
  {
  }

  /**
   * The lagged return is undefined on bar 0 and wherever the return is, and
   * is otherwise yesterday's position times today's return.
   */
  lemma LaggedReturnAt(position: seq<real>, rets: Column, k: nat)
    requires |position| == |rets| && k < |rets|
    ensures LaggedReturns(position, rets)[k].Some? <==> k > 0 && rets[k].Some?
    ensures k > 0 && rets[k].Some? ==>
      LaggedReturns(position, rets)[k].value == position[k - 1] * rets[k].value
  {
    ShiftedProductAt(position, rets, LaggedReturns(position, rets), k);
  }

  /** A product cell p · m is 0 for p = 0 and the cell m itself for p = 1. */
  lemma UnitFactor(x: Option<real>, p: real, m: Option<real>)
    requires x.Some? && m.Some? && x.value == p * m.value
    ensures p == 0.0 ==> x.value == 0.0
    ensures p == 1.0 ==> x == m
  {
  }

  /**
   * For a long-or-flat signal the lagged return of bar k is the return itself
   * if the signal of bar k-1 was 1 and 0 if it was 0.
   */
  lemma UnitSignalAt(signal: seq<int>, rets: Column, k: nat)
    requires |signal| == |rets| && k < |rets|
    ensures LaggedReturns(ToReal(signal), rets)[k].Some? <==> k > 0 && rets[k].Some?
    ensures k > 0 && rets[k].Some? && signal[k - 1] == 0 ==>
      LaggedReturns(ToReal(signal), rets)[k].value == 0.0
    ensures k > 0 && rets[k].Some? && signal[k - 1] == 1 ==>
      LaggedReturns(ToReal(signal), rets)[k] == rets[k]
  {
    var held := ToReal(signal);
    LaggedReturnAt(held, rets, k);
    if k > 0 && rets[k].Some? {
      UnitFactor(LaggedReturns(held, rets)[k], held[k - 1], rets[k]);
    }
  }

  /**
   * The strategy return is undefined on bar 0 and after a zero close;
   * otherwise it is the market return if the signal of the bar before was 1
   * and 0 if it was 0.
   */
  lemma SignalReturnAt(signal: seq<int>, close: seq<real>, k: nat)
    requires |signal| == |close| && k < |close|
    ensures SignalReturns(signal, close)[k].Some? <==> k > 0 && close[k - 1] != 0.0
    ensures k > 0 && close[k - 1] != 0.0 && signal[k - 1] == 0 ==>
      SignalReturns(signal, close)[k].value == 0.0
    ensures k > 0 && close[k - 1] != 0.0 && signal[k - 1] == 1 ==>
      SignalReturns(signal, close)[k] == MarketReturns(close)[k]
  {
    MarketReturnAt(close, k);
    UnitSignalAt(signal, MarketReturns(close), k);
  }

  /** A strategy that is never invested stays at 1 wherever its cumulative return is defined. */
  lemma NeverInvestedStaysFlat(signal: seq<int>, close: seq<real>, k: nat)
    requires |signal| == |close| && k < |close|
    requires forall j :: 0 <= j < |signal| ==> signal[j] == 0
    requires SignalReturns(signal, close)[k].Some?
    ensures Growth(SignalReturns(signal, close))[k] == Some(1.0)
  {
    var rets := SignalReturns(signal, close);
    forall j | 0 <= j < |rets| && rets[j].Some?
      ensures rets[j].value == 0.0
    {
      SignalReturnAt(signal, close, j);
    }
    GrowthOfZeros(rets, k);
  }

  /** A strategy that is always invested compounds exactly like the market. */
  lemma AlwaysInvestedTracksMarket(signal: seq<int>, close: seq<real>)
    requires |signal| == |close|
    requires forall j :: 0 <= j < |signal| ==> signal[j] == 1
    ensures Growth(SignalReturns(signal, close)) == Growth(MarketReturns(close))
  {
    var rets := SignalReturns(signal, close);
    var mr := MarketReturns(close);
    forall j | 0 <= j < |close|
      ensures rets[j] == mr[j]
    {
      SignalReturnAt(signal, close, j);
      MarketReturnAt(close, j);
    }
    assert rets == mr;
  }

  /**
   * `(1 + Market_Returns).cumprod()` is buy-and-hold: undefined on bar 0 (the
   * first return is NaN) and close[k] / close[0] afterwards, for positive
   * closes.
   */
  lemma {:induction false} MarketGrowthAt(close: seq<real>, k: nat)
    requires k < |close|
    requires forall j :: 0 <= j < |close| ==> close[j] > 0.0
    ensures k == 0 ==> Growth(MarketReturns(close))[k].None?
    ensures k > 0 ==> Growth(MarketReturns(close))[k] == Some(close[k] / close[0])
  {
    var mr := MarketReturns(close);
    MarketReturnAt(close, k);
    if k == 1 {
      MarketReturnAt(close, 0);
      GrowthSecond(mr);
      QuotientOf(close[0], close[0], 1.0);
      ChainRatio(close[0], close[0], close[1], 1.0, mr[1].value);
    } else if k > 1 {
      MarketGrowthAt(close, k - 1);
      MarketGrowthStep(close, k);
    }
  }

  /** One bar of buy-and-hold: growth close[k-1]/close[0] becomes close[k]/close[0]. */
  lemma MarketGrowthStep(close: seq<real>, k: nat)
    requires 1 < k < |close|
    requires forall j :: 0 <= j < |close| ==> close[j] > 0.0
    requires Growth(MarketReturns(close))[k - 1] == Some(close[k - 1] / close[0])
    ensures Growth(MarketReturns(close))[k] == Some(close[k] / close[0])
  {
    MarketReturnAt(close, k);
    MarketReturnAt(close, k - 1);
    RatioGrowthStep(MarketReturns(close), close, k);
  }

  /**
   * Compounding a return column whose return of bar k is the relative change
   * close[k]/close[k-1] - 1 carries growth close[k-1]/close[0] to close[k]/close[0].
   */
  lemma RatioGrowthStep(rets: Column, close: seq<real>, k: nat)
    requires 1 < k < |rets| == |close|
    requires close[0] != 0.0 && close[k - 1] != 0.0
    requires rets[k - 1].Some? && rets[k].Some? && rets[k].value == close[k] / close[k - 1] - 1.0
    requires Growth(rets)[k - 1] == Some(close[k - 1] / close[0])
    ensures Growth(rets)[k] == Some(close[k] / close[0])
  {
    GrowthRecurrence(rets, k);
    RatioStep(Growth(rets)[k], Growth(rets)[k - 1].value, rets[k].value, close[0], close[k - 1], close[k]);
  }

  /** A growth cell prev · (1 + r) with prev = before/first and r = after/before - 1 is after/first. */
  lemma RatioStep(g: Option<real>, prev: real, r: real, first: real, before: real, after: real)
    requires first != 0.0 && before != 0.0
    requires g.Some? && g.value == prev * (1.0 + r)
    requires prev == before / first && r == after / before - 1.0
    ensures g == Some(after / first)
  {
    ChainRatio(first, before, after, prev, r);
  }
}
