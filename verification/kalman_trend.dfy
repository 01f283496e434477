/**
 * The Kalman trend-following backtest: the Kalman-filtered close, its slope,
 * an ATR-scaled threshold, a {-1, 0, 1} signal, the forward-filled position,
 * and the return accounting with a commission on every change of position.
 */
module KalmanTrend {
  import opened Wrappers
  import opened Numeric
  import opened Series
  import Kalman
  import Volatility
  import opened Backtest

  /** COMMISSION: the fraction of notional paid per unit of position change. */
  const Commission: real := 0.001

  /** The slope must exceed this fraction of the ATR to count as a trend. */
  const ThresholdFactor: real := 0.1

  /** `calculate_atr`'s default period. */
  const AtrPeriod: nat := 14

  /** The filter noise the backtest uses: Q = 0.01, R = 0.5. */
  const ProcessNoise: real := 0.01
  const MeasurementNoise: real := 0.5


  /** The daily bars the backtest reads. */
  datatype Bars = Bars(close: seq<real>, high: seq<real>, low: seq<real>)
  {
    predicate Valid()
    {
      |close| > 0 && |high| == |close| && |low| == |close|
    }
  }

  // ---------------------------------------------------------------------------
  // The signal
  // ---------------------------------------------------------------------------

  /** `data['Kalman']`. */
  function KalmanLine(b: Bars): (xhat: seq<real>)
    requires b.Valid()
    ensures |xhat| == |b.close|
  {
    Kalman.Estimates(b.close, ProcessNoise, MeasurementNoise)
  }

  /** `data['ATR']`. */
  function Atr(b: Bars): (atr: Column)
    requires b.Valid()
    ensures |atr| == |b.close|
  {
    Volatility.Atr(b.high, b.low, b.close, AtrPeriod)
  }

  /** `data['Kalman'].diff()`. */
  function Slope(b: Bars): (slope: Column)
    requires b.Valid()
    ensures |slope| == |b.close|
  {
    Diff(Lift(KalmanLine(b)))
  }

  /** `data['ATR'] * 0.1`. */
  function Threshold(b: Bars): (thr: Column)
    requires b.Valid()
    ensures |thr| == |b.close|
  {
    MulConst(Atr(b), ThresholdFactor)
  }

  /**
   * `Signal = 0; Signal[slope > thr] = 1; Signal[slope < -thr] = -1`, for any
   * slope and threshold columns.
   */
  function SlopeSignal(slope: Column, thr: Column): (signal: seq<int>)
    requires |slope| == |thr|
    ensures |signal| == |slope|
  {
    var long := Compare(slope, Gt, thr);
    var short := Compare(slope, Lt, Neg(thr));
    Put(Put(Zeros(|slope|), long, 1), short, -1)
  }

  function Signal(b: Bars): (signal: seq<int>)
    requires b.Valid()
    ensures |signal| == |b.close|
  {
    SlopeSignal(Slope(b), Threshold(b))
  }

  /**
   * The signal is -1 exactly when the slope is below minus the threshold, 1
   * exactly when it is above the threshold and not below minus it, and 0
   * otherwise, in particular wherever either column is undefined.
   */
  lemma SlopeSignalAt(slope: Column, thr: Column, k: nat)
    requires |slope| == |thr| && k < |slope|
    ensures var s := SlopeSignal(slope, thr)[k];
      var defined := slope[k].Some? && thr[k].Some?;
      && (s == -1 <==> defined && slope[k].value < -thr[k].value)
      && (s == 1 <==> defined && slope[k].value > thr[k].value && !(slope[k].value < -thr[k].value))
      && (s == 0 <==> !defined || (-thr[k].value <= slope[k].value <= thr[k].value))
      && (s == -1 || s == 0 || s == 1)
  {
    var long := Compare(slope, Gt, thr);
    assert Put(Zeros(|slope|), long, 1)[k] == (if long[k] then 1 else 0);
  }

  /** With a non-negative threshold the long and short rules never fire together. */
  lemma RulesDisjoint(slope: Column, thr: Column, k: nat)
    requires |slope| == |thr| && k < |slope|
    requires thr[k].Some? ==> thr[k].value >= 0.0
    ensures !(Compare(slope, Gt, thr)[k] && Compare(slope, Lt, Neg(thr))[k])
  {
  }

  /** Every cell of the signal is -1, 0 or 1. */
  lemma SlopeSignalRange(slope: Column, thr: Column)
    requires |slope| == |thr|
    ensures forall k :: 0 <= k < |slope| ==> -1 <= SlopeSignal(slope, thr)[k] <= 1
  {
    forall k | 0 <= k < |slope|
      ensures -1 <= SlopeSignal(slope, thr)[k] <= 1
    {
      SlopeSignalAt(slope, thr, k);
    }
  }

  /**
   * The trend rule on any filtered line xs and any non-negative ATR column:
   * 0 on bar 0 and wherever the ATR is undefined; otherwise 1 iff the line
   * rose by more than a tenth of the ATR and -1 iff it fell by more than that.
   */
  lemma TrendSignalAt(xs: seq<real>, atr: Column, k: nat)
    requires |xs| == |atr| && k < |xs|
    requires atr[k].Some? ==> atr[k].value >= 0.0
    ensures var s := SlopeSignal(Diff(Lift(xs)), MulConst(atr, ThresholdFactor))[k];
      && (k == 0 || atr[k].None? ==> s == 0)
      && (k > 0 && atr[k].Some? ==>
            && (s == 1 <==> xs[k] - xs[k - 1] > atr[k].value * ThresholdFactor)
            && (s == -1 <==> xs[k] - xs[k - 1] < -(atr[k].value * ThresholdFactor)))
  {
    var slope := Diff(Lift(xs));
    var thr := MulConst(atr, ThresholdFactor);
    SlopeSignalAt(slope, thr, k);
    if atr[k].Some? {
      assert thr[k].value == atr[k].value * ThresholdFactor;
      MulNonNegative(atr[k].value, ThresholdFactor);
    }
    if k > 0 {
      assert slope[k].value == xs[k] - xs[k - 1];
    }
  }

  /**
   * The backtest's signal: in {-1, 0, 1}; 0 on bar 0 and through the ATR
   * warm-up; afterwards 1 iff the filtered close rose by more than a tenth of
   * the ATR and -1 iff it fell by more than that (never both, since the ATR
   * is non-negative when high[0] >= low[0]).
   */
  lemma SignalAt(b: Bars, k: nat)
    requires b.Valid() && k < |b.close|
    requires b.high[0] >= b.low[0]
    ensures Signal(b)[k] == -1 || Signal(b)[k] == 0 || Signal(b)[k] == 1
    ensures Atr(b)[k].Some? <==> k >= AtrPeriod - 1
    ensures k == 0 || k < AtrPeriod - 1 ==> Signal(b)[k] == 0
    ensures k > 0 && Atr(b)[k].Some? ==>
      var rise := KalmanLine(b)[k] - KalmanLine(b)[k - 1];
      var thr := Atr(b)[k].value * ThresholdFactor;
      && (Signal(b)[k] == 1 <==> rise > thr)
      && (Signal(b)[k] == -1 <==> rise < -thr)
  {
    var xs := KalmanLine(b);
    var atr := Atr(b);
    Volatility.AtrValue(b.high, b.low, b.close, AtrPeriod, k);
    if atr[k].Some? {
      Volatility.AtrNonNegative(b.high, b.low, b.close, AtrPeriod, k);
    }
    assert Signal(b) == SlopeSignal(Diff(Lift(xs)), MulConst(atr, ThresholdFactor));
    SlopeSignalRange(Diff(Lift(xs)), MulConst(atr, ThresholdFactor));
    TrendSignalAt(xs, atr, k);
  }

  // ---------------------------------------------------------------------------
  // Position
  // ---------------------------------------------------------------------------

  /**
   * `Signal.replace(0, nan).ffill().fillna(0)`; the NaN round trip leaves the
   * column as floats.
   */
  function Position(signal: seq<int>): (position: seq<real>)
    ensures |position| == |signal|
  {
    ToReal(FillNa(FFill(ReplaceZero(signal)), 0))
  }

  /** The reference reading: the latest non-zero signal so far, or 0 before the first one. */
  function Held(signal: seq<int>, k: nat): int
    requires k < |signal|
  {
    if signal[k] != 0 then signal[k] else if k == 0 then 0 else Held(signal, k - 1)
  }

  /** The forward-filled position is the latest non-zero signal. */
  lemma {:induction false} PositionIsHeld(signal: seq<int>, k: nat)
    requires k < |signal|
    ensures Position(signal)[k] == Held(signal, k) as real
  {
    var filled := FFill(ReplaceZero(signal));
    var held := FillNa(filled, 0);
    if signal[k] == 0 && k > 0 {
      PositionIsHeld(signal, k - 1);
      assert filled[k] == filled[k - 1];
      assert held[k] == held[k - 1];
    }
  }

  /** A position built from {-1, 0, 1} signals stays in {-1, 0, 1}. */
  lemma {:induction false} HeldInRange(signal: seq<int>, k: nat)
    requires k < |signal|
    requires forall j :: 0 <= j <= k ==> -1 <= signal[j] <= 1
    ensures -1 <= Held(signal, k) <= 1
  {
    if signal[k] == 0 && k > 0 {
      HeldInRange(signal, k - 1);
    }
  }

  /** Once the position is non-zero it never returns to flat. */
  lemma {:induction false} HeldNeverFlattens(signal: seq<int>, i: nat, k: nat)
    requires i <= k < |signal|
    requires Held(signal, i) != 0
    ensures Held(signal, k) != 0
    decreases k - i
  {
    if i < k {
      HeldNeverFlattens(signal, i, k - 1);
    }
  }

  /** The position is 0 exactly until the first non-zero signal. */
  lemma {:induction false} HeldFlatUntilFirstSignal(signal: seq<int>, k: nat)
    requires k < |signal|
    ensures Held(signal, k) == 0 <==> forall j :: 0 <= j <= k ==> signal[j] == 0
  {
    if signal[k] == 0 && k > 0 {
      HeldFlatUntilFirstSignal(signal, k - 1);
    }
  }

  /** Positions are -1, 0 or 1, as floats. */
  predicate UnitPositions(position: seq<real>)
  {
    forall j :: 0 <= j < |position| ==> position[j] == -1.0 || position[j] == 0.0 || position[j] == 1.0
  }

  /** Signals in {-1, 0, 1} give unit positions. */
  lemma UnitSignalPositions(signal: seq<int>)
    requires forall j :: 0 <= j < |signal| ==> -1 <= signal[j] <= 1
    ensures UnitPositions(Position(signal))
  {
    forall k | 0 <= k < |signal|
      ensures Position(signal)[k] == -1.0 || Position(signal)[k] == 0.0 || Position(signal)[k] == 1.0
    {
      HeldInRange(signal, k);
      PositionIsHeld(signal, k);
    }
  }

  /** The backtest's signal only produces unit positions. */
  lemma BacktestPositions(b: Bars)
    requires b.Valid()
    ensures UnitPositions(Position(Signal(b)))
  {
    SlopeSignalRange(Slope(b), Threshold(b));
    UnitSignalPositions(Signal(b));
  }

  // ---------------------------------------------------------------------------
  // Returns and costs
  // ---------------------------------------------------------------------------

  /** `Position.diff().fillna(0).abs()`. */
  function Trades(position: seq<real>): (trades: Column)
    ensures |trades| == |position|
  {
    AbsCol(Lift(FillNa(Diff(Lift(position)), 0.0)))
  }

  /** `trades * COMMISSION`. */
  function TransactionCosts(position: seq<real>): (costs: Column)
    ensures |costs| == |position|
  {
    MulConst(Trades(position), Commission)
  }

  /**
   * `Strategy_Raw_Returns - Transaction_Costs`, where the raw returns are the
   * position of the bar before times the market returns `rets`.
   */
  function NetReturns(position: seq<real>, rets: Column): (net: Column)
    requires |position| == |rets|
    ensures |net| == |rets|
  {
    Sub(LaggedReturns(position, rets), TransactionCosts(position))
  }

  /** `(1 + Strategy_Net_Returns).cumprod()`, on the market returns of the closes. */
  function CumulativeStrategy(position: seq<real>, close: seq<real>): (cs: Column)
    requires |position| == |close|
    ensures |cs| == |close|
  {
    Growth(NetReturns(position, MarketReturns(close)))
  }

  /** The reference trade size of bar k: the absolute change of position, none on bar 0. */
  function Change(position: seq<real>, k: nat): (t: real)
    requires k < |position|
    ensures t >= 0.0
  {
    if k == 0 then 0.0 else Abs(position[k] - position[k - 1])
  }

  /** `trades` is the absolute change of position, 0 on bar 0. */
  lemma TradesAt(position: seq<real>, k: nat)
    requires k < |position|
    ensures Trades(position)[k].Some? && Trades(position)[k].value == Change(position, k)
  {
    var d := Diff(Lift(position));
    var filled := FillNa(d, 0.0);
    assert filled[k] == (if k == 0 then 0.0 else position[k] - position[k - 1]);
  }

  /**
   * Between unit positions a trade has size 0, 1 or 2, and size 2 exactly on
   * a flip between long and short.
   */
  lemma ChangeSizes(position: seq<real>, k: nat)
    requires k < |position| && UnitPositions(position)
    ensures var t := Change(position, k); t == 0.0 || t == 1.0 || t == 2.0
    ensures Change(position, k) == 2.0 <==>
      k > 0 && ((position[k] == 1.0 && position[k - 1] == -1.0) || (position[k] == -1.0 && position[k - 1] == 1.0))
    ensures Change(position, k) == 0.0 <==> k == 0 || position[k] == position[k - 1]
  {
  }

  /** Commission is charged exactly on bars where the position changes, in proportion to the change. */
  lemma CostAt(position: seq<real>, k: nat)
    requires k < |position|
    ensures TransactionCosts(position)[k].Some?
    ensures TransactionCosts(position)[k].value == Change(position, k) * Commission
    ensures TransactionCosts(position)[k].value == 0.0 <==> k == 0 || position[k] == position[k - 1]
  {
    TradesAt(position, k);
  }

  /**
   * The net return is undefined on bar 0 and wherever the market return is;
   * elsewhere it is yesterday's position times today's market return, less
   * today's commission.
   */
  lemma NetReturnAt(position: seq<real>, rets: Column, k: nat)
    requires |position| == |rets| && k < |rets|
    ensures NetReturns(position, rets)[k].Some? <==> k > 0 && rets[k].Some?
    ensures k > 0 && rets[k].Some? ==>
      NetReturns(position, rets)[k].value
        == position[k - 1] * rets[k].value - Change(position, k) * Commission
  {
    CostAt(position, k);
    LaggedReturnAt(position, rets, k);
  }

  /** A bar that starts flat and does not trade earns nothing and costs nothing. */
  lemma FlatBarEarnsNothing(position: seq<real>, rets: Column, k: nat)
    requires |position| == |rets| && 0 < k < |rets| && rets[k].Some?
    requires position[k - 1] == 0.0 && position[k] == 0.0
    ensures NetReturns(position, rets)[k].Some? && NetReturns(position, rets)[k].value == 0.0
  {
    NetReturnAt(position, rets, k);
  }

  /**
   * The whole backtest from any signal column: the net return of bar k is
   * earned by the position held after bar k-1, which is the latest non-zero
   * signal up to then, and pays commission on the move to the position held
   * after bar k. Stated for any market-return column that is defined on bar k.
   */
  lemma SignalNetReturn(signal: seq<int>, rets: Column, k: nat)
    requires |signal| == |rets| && 0 < k < |rets| && rets[k].Some?
    ensures Position(signal)[k - 1] == Held(signal, k - 1) as real
    ensures Position(signal)[k] == Held(signal, k) as real
    ensures NetReturns(Position(signal), rets)[k].Some?
    ensures NetReturns(Position(signal), rets)[k].value
      == Position(signal)[k - 1] * rets[k].value
         - Abs(Position(signal)[k] - Position(signal)[k - 1]) * Commission
  {
    NetReturnAt(Position(signal), rets, k);
    PositionIsHeld(signal, k);
    PositionIsHeld(signal, k - 1);
  }

  /**
   * Compounding the net returns: undefined on bar 0 (there is no net return
   * yet), 1 + net[1] on bar 1, and then growth by the factor 1 + net[k] on
   * every bar whose net return and previous net return exist. Stated for any
   * market-return column; CumulativeStrategy is the instance on the market
   * returns of the closes.
   */
  lemma NetGrowthAt(position: seq<real>, rets: Column, net: Column, k: nat)
    requires |position| == |rets| && k < |rets|
    requires net == NetReturns(position, rets)
    ensures Growth(net)[k].Some? <==> net[k].Some?
    ensures k == 0 ==> Growth(net)[k].None?
    ensures k == 1 && net[1].Some? ==> Growth(net)[1] == Some(1.0 + net[1].value)
    ensures k > 1 && net[k].Some? && net[k - 1].Some? ==>
      Growth(net)[k].value == Growth(net)[k - 1].value * (1.0 + net[k].value)
  {
    NoNetReturnOnFirstBar(position, rets);
    GrowthAfterFirstBar(net, k);
  }

  /** There is no net return on bar 0: nothing was held before it. */
  lemma NoNetReturnOnFirstBar(position: seq<real>, rets: Column)
    requires |position| == |rets| > 0
    ensures NetReturns(position, rets)[0].None?
  {
  }

  /** A strategy that never holds a position never trades and its growth stays at 1. */
  lemma NeverHoldingStaysFlat(position: seq<real>, close: seq<real>, k: nat)
    requires |position| == |close| && k < |close|
    requires forall j :: 0 <= j < |position| ==> position[j] == 0.0
    requires NetReturns(position, MarketReturns(close))[k].Some?
    ensures CumulativeStrategy(position, close)[k] == Some(1.0)
  {
    var rets := MarketReturns(close);
    var net := NetReturns(position, rets);
    forall j | 0 <= j < |net| && net[j].Some?
      ensures net[j].value == 0.0
    {
      NetReturnAt(position, rets, j);
      FlatBarEarnsNothing(position, rets, j);
    }
    GrowthOfZeros(net, k);
  }
}
