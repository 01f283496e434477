/**
 * The SMA-crossover backtest: long while the 20-bar simple moving average of
 * the close is above the 50-bar one, flat otherwise, entering on the bar
 * after the signal.
 */
module SmaCrossover {
  import opened Wrappers
  import opened Numeric
  import opened Series
  import opened Rolling
  import opened Backtest

  const ShortWindow: nat := 20
  const LongWindow: nat := 50

  /** `Close.rolling(window=20).mean()`. */
  function SmaShort(close: seq<real>): (sma: Column)
    ensures |sma| == |close|
  {
    RollingMean(Lift(close), ShortWindow)
  }

  /** `Close.rolling(window=50).mean()`. */
  function SmaLong(close: seq<real>): (sma: Column)
    ensures |sma| == |close|
  {
    RollingMean(Lift(close), LongWindow)
  }

  /** `Signal = 0; Signal[SMA_Short > SMA_Long] = 1`. */
  function Signal(close: seq<real>): (signal: seq<int>)
    ensures |signal| == |close|
  {
    Put(Zeros(|close|), Compare(SmaShort(close), Gt, SmaLong(close)), 1)
  }

  /** The reference mean of the w closes ending at bar k. */
  function Mean(close: seq<real>, k: nat, w: nat): real
    requires 1 <= w && w - 1 <= k < |close|
  {
    Sum(close[k + 1 - w..k + 1]) / w as real
  }

  // ---------------------------------------------------------------------------
  // Properties
  // ---------------------------------------------------------------------------

  /** A moving average is undefined until its window fills and is then the mean of that window. */
  lemma SmaAt(close: seq<real>, k: nat)
    requires k < |close|
    ensures SmaShort(close)[k].Some? <==> k >= ShortWindow - 1
    ensures SmaLong(close)[k].Some? <==> k >= LongWindow - 1
    ensures k >= ShortWindow - 1 ==> SmaShort(close)[k].value == Mean(close, k, ShortWindow)
    ensures k >= LongWindow - 1 ==> SmaLong(close)[k].value == Mean(close, k, LongWindow)
  {
    RollingMeanOfLift(close, ShortWindow, k);
    RollingMeanOfLift(close, LongWindow, k);
  }

  /**
   * The signal is 1 exactly when both averages exist (from bar 49 on) and the
   * 20-bar mean is above the 50-bar mean, and 0 otherwise.
   */
  lemma SignalAt(close: seq<real>, k: nat)
    requires k < |close|
    ensures Signal(close)[k] == 0 || Signal(close)[k] == 1
    ensures Signal(close)[k] == 1 <==>
      k >= LongWindow - 1 && Mean(close, k, ShortWindow) > Mean(close, k, LongWindow)
    ensures k < LongWindow - 1 ==> Signal(close)[k] == 0
  {
    SmaAt(close, k);
  }

  /**
   * The signal of bar k looks only at the closes of bars 0..k: two price
   * histories that agree up to bar k signal the same on bar k.
   */
  lemma SignalNoLookahead(close: seq<real>, other: seq<real>, k: nat)
    requires k < |close| && k < |other|
    requires close[..k + 1] == other[..k + 1]
    ensures Signal(close)[k] == Signal(other)[k]
  {
    SignalAt(close, k);
    SignalAt(other, k);
    if k >= LongWindow - 1 {
      assert close[k + 1 - ShortWindow..k + 1] == other[k + 1 - ShortWindow..k + 1];
      assert close[k + 1 - LongWindow..k + 1] == other[k + 1 - LongWindow..k + 1];
    }
  }

  /** A flat price never crosses: both averages equal the price, so the signal stays 0. */
  lemma ConstantPricesNoSignal(close: seq<real>, c: real, k: nat)
    requires k < |close|
    requires forall j :: 0 <= j < |close| ==> close[j] == c
    ensures Signal(close)[k] == 0
  {
    SignalAt(close, k);
    if k >= LongWindow - 1 {
      MeanOfConstant(close, c, k, ShortWindow);
      MeanOfConstant(close, c, k, LongWindow);
    }
  }

  /** The mean of a window of equal closes is that close. */
  lemma MeanOfConstant(close: seq<real>, c: real, k: nat, w: nat)
    requires 1 <= w && w - 1 <= k < |close|
    requires forall j :: 0 <= j < |close| ==> close[j] == c
    ensures Mean(close, k, w) == c
  {
    var window := close[k + 1 - w..k + 1];
    forall i | 0 <= i < |window|
      ensures window[i] == c
    {
      assert window[i] == close[k + 1 - w + i];
    }
    SumConstant(window, c);
    QuotientOf(Sum(window), w as real, c);
  }

  /**
   * The backtest's return of bar k: undefined on bar 0 and after a zero
   * close, the market return if the 20-bar mean was above the 50-bar mean on
   * bar k-1, and 0 otherwise.
   */
  lemma StrategyReturnAt(close: seq<real>, k: nat)
    requires 0 < k < |close| && close[k - 1] != 0.0
    ensures SignalReturns(Signal(close), close)[k].Some?
    ensures k - 1 >= LongWindow - 1 && Mean(close, k - 1, ShortWindow) > Mean(close, k - 1, LongWindow) ==>
      SignalReturns(Signal(close), close)[k] == MarketReturns(close)[k]
    ensures !(k - 1 >= LongWindow - 1 && Mean(close, k - 1, ShortWindow) > Mean(close, k - 1, LongWindow)) ==>
      SignalReturns(Signal(close), close)[k].value == 0.0
  {
    SignalAt(close, k - 1);
    SignalReturnAt(Signal(close), close, k);
  }

  /** Before both averages exist the strategy stays in cash and earns nothing. */
  lemma WarmUpEarnsNothing(close: seq<real>, k: nat)
    requires 0 < k < |close| && close[k - 1] != 0.0 && k < LongWindow
    ensures SignalReturns(Signal(close), close)[k] == Some(0.0)
  {
    StrategyReturnAt(close, k);
  }

  /** On a flat price the strategy is never invested, and its growth stays at 1. */
  lemma ConstantPricesStayInCash(close: seq<real>, c: real, k: nat)
    requires 0 < k < |close| && c != 0.0
    requires forall j :: 0 <= j < |close| ==> close[j] == c
    ensures Growth(SignalReturns(Signal(close), close))[k] == Some(1.0)
  {
    var signal := Signal(close);
    forall j | 0 <= j < |signal|
      ensures signal[j] == 0
    {
      ConstantPricesNoSignal(close, c, j);
    }
    SignalReturnAt(signal, close, k);
    NeverInvestedStaysFlat(signal, close, k);
  }
}
