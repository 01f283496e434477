/**
 * The Kalman mean-reversion backtest: the residual of the close from its
 * Kalman-filtered line, a z-score against a rolling standard deviation, a
 * long-or-flat signal, the next-day position and the resulting returns.
 */
module KalmanReversion {
  import opened Wrappers
  import opened Numeric
  import opened Series
  import Kalman
  import opened Backtest

  /** The filter noise the backtest uses: Q = 0.005, R = 1.0. */
  const ProcessNoise: real := 0.005
  const MeasurementNoise: real := 1.0

  /** Buy when the z-score is below this. */
  const EntryZ: real := -1.5

  /** Close when the z-score is above this. */
  const ExitZ: real := 0.5

  /** `data['Kalman']`. */
  function KalmanLine(close: seq<real>): (xhat: seq<real>)
    requires |close| > 0
    ensures |xhat| == |close|
  {
    Kalman.Estimates(close, ProcessNoise, MeasurementNoise)
  }

  /** `Close - Kalman`. */
  function Residual(close: seq<real>): (res: Column)
    requires |close| > 0
    ensures |res| == |close|
  {
    Sub(Lift(close), Lift(KalmanLine(close)))
  }

  /**
   * `Residual / Std`, for a given standard-deviation column (the script's is
   * the 30-bar rolling deviation of the residual). A zero standard
   * deviation, which floating point turns into an infinity or NaN, gives an
   * undefined z-score.
   */
  function ZScore(close: seq<real>, std: Column): (z: Column)
    requires |close| > 0 && |std| == |close|
    ensures |z| == |close|
  {
    Div(Residual(close), std)
  }

  /**
   * `Signal = 0; Signal[z < -1.5] = 1; Signal[z > 0.5] = 0`, for any z-score
   * column.
   */
  function Signal(z: Column): (signal: seq<int>)
    ensures |signal| == |z|
  {
    Put(Put(Zeros(|z|), CompareConst(z, Lt, EntryZ), 1), CompareConst(z, Gt, ExitZ), 0)
  }

  // ---------------------------------------------------------------------------
  // Properties
  // ---------------------------------------------------------------------------

  /**
   * The residual is defined on every bar, is 0 on bar 0 (the filter starts at
   * the first close) and is the distance of the close from its filtered value.
   */
  lemma ResidualAt(close: seq<real>, k: nat)
    requires k < |close|
    ensures Residual(close)[k].Some?
    ensures Residual(close)[k].value == close[k] - KalmanLine(close)[k]
    ensures k == 0 ==> Residual(close)[k].value == 0.0
  {
  }

  /**
   * The residual at bar k is no larger in size than the price range of bars
   * 0..k, since the filtered value lies inside that range.
   */
  lemma ResidualBounded(close: seq<real>, k: nat)
    requires k < |close|
    ensures Abs(Residual(close)[k].value) <= MaxOf(close[..k + 1]) - MinOf(close[..k + 1])
  {
    var seen := close[..k + 1];
    Kalman.EstimateInPriceRange(close, ProcessNoise, MeasurementNoise, k);
    MaxOfSlice(close, 0, k + 1);
    MinOfSlice(close, 0, k + 1);
    GapBounded(close, KalmanLine(close), k, MinOf(seen), MaxOf(seen));
  }

  /** Two values inside [lo, hi] are at most hi - lo apart. */
  lemma GapBounded(close: seq<real>, line: seq<real>, k: nat, lo: real, hi: real)
    requires |line| == |close| && k < |close|
    requires lo <= close[k] <= hi && lo <= line[k] <= hi
    ensures Sub(Lift(close), Lift(line))[k].Some?
    ensures Abs(Sub(Lift(close), Lift(line))[k].value) <= hi - lo
  {
  }

  /** A constant close never leaves its filtered line: the residual is 0 throughout. */
  lemma ConstantCloseNoResidual(close: seq<real>, c: real, k: nat)
    requires k < |close|
    requires forall j :: 0 <= j < |close| ==> close[j] == c
    ensures Residual(close)[k].Some? && Residual(close)[k].value == 0.0
  {
    Kalman.ConstantPrices(close, ProcessNoise, MeasurementNoise, c);
    ResidualAt(close, k);
  }

  /**
   * The z-score is the residual over the standard deviation where the
   * latter is defined and non-zero, and undefined elsewhere.
   */
  lemma ZScoreAt(close: seq<real>, std: Column, k: nat)
    requires |std| == |close| && k < |close|
    ensures ZScore(close, std)[k].Some? <==> std[k].Some? && std[k].value != 0.0
    ensures ZScore(close, std)[k].Some? ==>
      ZScore(close, std)[k].value == Residual(close)[k].value / std[k].value
  {
  }

  /**
   * The signal is 1 exactly when the z-score is defined and below -1.5, and
   * 0 otherwise; in particular the exit rule never clears an entry, since no
   * z-score is both below -1.5 and above 0.5.
   */
  lemma SignalAt(z: Column, k: nat)
    requires k < |z|
    ensures Signal(z)[k] == 0 || Signal(z)[k] == 1
    ensures Signal(z)[k] == 1 <==> z[k].Some? && z[k].value < EntryZ
    ensures !(CompareConst(z, Lt, EntryZ)[k] && CompareConst(z, Gt, ExitZ)[k])
  {
    var entered := Put(Zeros(|z|), CompareConst(z, Lt, EntryZ), 1);
    assert entered[k] == (if z[k].Some? && z[k].value < EntryZ then 1 else 0);
  }

  /**
   * The backtest's entry: the signal of bar k is 1 exactly when the standard
   * deviation is defined and non-zero and the close lies more than 1.5
   * deviations below its filtered value.
   */
  lemma BacktestSignalAt(close: seq<real>, std: Column, k: nat)
    requires |std| == |close| && k < |close|
    ensures Signal(ZScore(close, std))[k] == 1 <==>
      std[k].Some? && std[k].value != 0.0 && Residual(close)[k].value / std[k].value < EntryZ
    ensures Signal(ZScore(close, std))[k] == 0 || Signal(ZScore(close, std))[k] == 1
  {
    ZScoreAt(close, std, k);
    SignalAt(ZScore(close, std), k);
  }

  /**
   * An undefined z-score means no position; this covers the first 29 bars,
   * before the 30-bar rolling deviation is defined.
   */
  lemma UndefinedZIsFlat(z: Column, k: nat)
    requires k < |z| && z[k].None?
    ensures Signal(z)[k] == 0
  {
    SignalAt(z, k);
  }
}
