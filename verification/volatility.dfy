/**
 * True range and average true range, as computed both by `calculate_atr` in
 * the trend script and inline in `run_strategy`.
 */
module Volatility {
  import opened Wrappers
  import opened Numeric
  import opened Series
  import opened Rolling

  /**
   * `pd.concat([high - low, abs(high - close.shift()), abs(low - close.shift())], axis=1).max(axis=1)`.
   */
  function TrueRange(high: seq<real>, low: seq<real>, close: seq<real>): (tr: Column)
    requires |high| == |low| == |close|
    ensures |tr| == |close|
  {
    var prevClose := Shift(Lift(close));
    RowMax3(Sub(Lift(high), Lift(low)),
            AbsCol(Sub(Lift(high), prevClose)),
            AbsCol(Sub(Lift(low), prevClose)))
  }

  /** `true_range.rolling(window=period).mean()`. */
  function Atr(high: seq<real>, low: seq<real>, close: seq<real>, period: nat): (atr: Column)
    requires |high| == |low| == |close|
    requires period >= 1
    ensures |atr| == |close|
  {
    RollingMean(TrueRange(high, low, close), period)
  }

  /**
   * The textbook true range of bar k: the bar's own range, widened to reach
   * the previous close when there is one.
   */
  function BarRange(high: seq<real>, low: seq<real>, close: seq<real>, k: nat): real
    requires |high| == |low| == |close| && k < |close|
  {
    if k == 0 then high[0] - low[0]
    else Max(Max(high[k] - low[k], Abs(high[k] - close[k - 1])), Abs(low[k] - close[k - 1]))
  }

  function BarRanges(high: seq<real>, low: seq<real>, close: seq<real>): (rs: seq<real>)
    requires |high| == |low| == |close|
    ensures |rs| == |close|
  {
    seq(|close|, k requires 0 <= k < |close| => BarRange(high, low, close, k))
  }

  /**
   * The pandas true range is defined on every bar and equals the textbook
   * range: at bar 0 the two NaN terms are skipped, leaving high - low.
   */
  lemma TrueRangeIsBarRange(high: seq<real>, low: seq<real>, close: seq<real>)
    requires |high| == |low| == |close|
    ensures TrueRange(high, low, close) == Lift(BarRanges(high, low, close))
  {
    forall k | 0 <= k < |close|
      ensures TrueRange(high, low, close)[k] == Some(BarRange(high, low, close, k))
    {
      TrueRangeAt(high, low, close, k);
    }
  }

  lemma TrueRangeAt(high: seq<real>, low: seq<real>, close: seq<real>, k: nat)
    requires |high| == |low| == |close| && k < |close|
    ensures TrueRange(high, low, close)[k] == Some(BarRange(high, low, close, k))
  {
    var prevClose := Shift(Lift(close));
    var hl := Sub(Lift(high), Lift(low));
    var hc := AbsCol(Sub(Lift(high), prevClose));
    var lc := AbsCol(Sub(Lift(low), prevClose));
    assert TrueRange(high, low, close)[k] == MaxSkipNa(MaxSkipNa(hl[k], hc[k]), lc[k]);
    assert hl[k] == Some(high[k] - low[k]);
    if k == 0 {
      assert prevClose[0] == None;
      assert hc[k] == None && lc[k] == None;
    } else {
      assert prevClose[k] == Some(close[k - 1]);
      assert hc[k] == Some(Abs(high[k] - close[k - 1]));
      assert lc[k] == Some(Abs(low[k] - close[k - 1]));
    }
  }

  /**
   * From bar 1 on the true range is never negative (it dominates a distance
   * to the previous close); at bar 0 it is high - low.
   */
  lemma BarRangeNonNegative(high: seq<real>, low: seq<real>, close: seq<real>, k: nat)
    requires |high| == |low| == |close| && k < |close|
    requires k == 0 ==> high[0] >= low[0]
    ensures BarRange(high, low, close, k) >= 0.0
  {
  }

  /**
   * ATR is undefined for the first period-1 bars and is afterwards the mean of
   * the last `period` true ranges.
   */
  lemma AtrValue(high: seq<real>, low: seq<real>, close: seq<real>, period: nat, k: nat)
    requires |high| == |low| == |close| && period >= 1 && k < |close|
    ensures Atr(high, low, close, period)[k].Some? <==> k >= period - 1
    ensures k >= period - 1 ==>
      Atr(high, low, close, period)[k] == Some(Sum(BarRanges(high, low, close)[k + 1 - period..k + 1]) / period as real)
  {
    TrueRangeIsBarRange(high, low, close);
    RollingMeanOfLift(BarRanges(high, low, close), period, k);
  }

  /** ATR is never negative when the first bar's high is not below its low. */
  lemma AtrNonNegative(high: seq<real>, low: seq<real>, close: seq<real>, period: nat, k: nat)
    requires |high| == |low| == |close| && period >= 1 && k < |close|
    requires high[0] >= low[0]
    requires Atr(high, low, close, period)[k].Some?
    ensures Atr(high, low, close, period)[k].value >= 0.0
  {
    AtrValue(high, low, close, period, k);
    WindowMeanNonNegative(high, low, close, period, k);
  }

  /** The mean of a window of true ranges is never negative when the first bar's high is not below its low. */
  lemma WindowMeanNonNegative(high: seq<real>, low: seq<real>, close: seq<real>, period: nat, k: nat)
    requires |high| == |low| == |close| && period >= 1 && period - 1 <= k < |close|
    requires high[0] >= low[0]
    ensures Sum(BarRanges(high, low, close)[k + 1 - period..k + 1]) / period as real >= 0.0
  {
    var ranges := BarRanges(high, low, close);
    var window := ranges[k + 1 - period..k + 1];
    forall i | 0 <= i < |window|
      ensures window[i] >= 0.0
    {
      var j := k + 1 - period + i;
      assert window[i] == ranges[j];
      BarRangeNonNegative(high, low, close, j);
    }
    SumNonNegative(window);
    DivNonNegative(Sum(window), period as real);
  }
}
