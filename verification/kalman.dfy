/**
 * The scalar Kalman filter shared by both Kalman scripts: a random-walk
 * process model with process-noise variance q and measurement-noise variance
 * r, started from the first price with error variance 1.
 *
 * StateAt(prices, k) is the reference definition: the state after bar k,
 * reached by k filter steps from the first price.
 */
module Kalman {
  import opened Wrappers
  import opened Numeric

  /** The a posteriori estimate and its error variance after one bar. */
  datatype State = State(estimate: real, variance: real)

  /** The fixed initial error variance P[0]. */
  const InitialVariance: real := 1.0

  /** The noise parameters under which the recurrence never divides by zero. */
  predicate ValidNoise(q: real, r: real)
  {
    q >= 0.0 && r > 0.0
  }

  function Initial(price: real): State
  {
    State(price, InitialVariance)
  }

  /** Kalman gain K = P⁻ / (P⁻ + R) for a priori variance P⁻. */
  function Gain(priorVariance: real, r: real): (g: real)
    requires priorVariance > 0.0 && r > 0.0
    ensures 0.0 < g < 1.0
  {
    priorVariance / (priorVariance + r)
  }

  /** One time update (x⁻ = x, P⁻ = P + q) followed by one measurement update. */
  function Step(s: State, price: real, q: real, r: real): (s': State)
    requires s.variance > 0.0 && ValidNoise(q, r)
    ensures s'.variance > 0.0
  {
    var priorVariance := s.variance + q;
    var g := Gain(priorVariance, r);
    MulPositive(1.0 - g, priorVariance);
    State(s.estimate + g * (price - s.estimate), (1.0 - g) * priorVariance)
  }

  /** The filter state after bar k. */
  function StateAt(prices: seq<real>, q: real, r: real, k: nat): (s: State)
    requires k < |prices| && ValidNoise(q, r)
    ensures s.variance > 0.0
  {
    if k == 0 then Initial(prices[0]) else Step(StateAt(prices, q, r, k - 1), prices[k], q, r)
  }

  /** The filter state after every bar. */
  function States(prices: seq<real>, q: real, r: real): (states: seq<State>)
    requires |prices| > 0 && ValidNoise(q, r)
    ensures |states| == |prices|
    ensures states[0] == Initial(prices[0])
    ensures forall k :: 0 <= k < |states| ==> states[k].variance > 0.0
  {
    seq(|prices|, k requires 0 <= k < |prices| => StateAt(prices, q, r, k))
  }

  /** The filtered price series `xhat`. */
  function Estimates(prices: seq<real>, q: real, r: real): (xhat: seq<real>)
    requires |prices| > 0 && ValidNoise(q, r)
    ensures |xhat| == |prices|
    ensures xhat[0] == prices[0]
  {
    seq(|prices|, k requires 0 <= k < |prices| => StateAt(prices, q, r, k).estimate)
  }

  /**
   * The array loop of `calculate_kalman` / `apply_kalman_filter`: seed with
   * the first price and variance 1, then one time update and one measurement
   * update per bar. An empty price array has no first price (the scripts fail
   * with an index error); that case is `None`.
   */
  method Filter(prices: seq<real>, q: real, r: real) returns (xhat: Option<seq<real>>)
    requires ValidNoise(q, r)
    ensures xhat.None? <==> |prices| == 0
    ensures xhat.Some? ==> |xhat.value| == |prices| && xhat.value[0] == prices[0]
    ensures xhat.Some? ==> xhat.value == Estimates(prices, q, r)
  {
    if |prices| == 0 {
      return None;
    }
    ghost var states := States(prices, q, r);
    var estimates := [prices[0]];
    var p := InitialVariance;
    var k := 1;
    while k < |prices|
      invariant 1 <= k <= |prices|
      invariant |estimates| == k
      invariant forall j :: 0 <= j < k ==> estimates[j] == states[j].estimate
      invariant p == states[k - 1].variance
    {
      StatesStep(prices, q, r, k);
      var xMinus := estimates[k - 1];
      var pMinus := p + q;
      var gain := pMinus / (pMinus + r);
      assert states[k] == State(xMinus + gain * (prices[k] - xMinus), (1.0 - gain) * pMinus);
      estimates := estimates + [xMinus + gain * (prices[k] - xMinus)];
      p := (1.0 - gain) * pMinus;
      k := k + 1;
    }
    assert estimates == Estimates(prices, q, r);
    return Some(estimates);
  }

  /** State k is one filter step from state k-1 on the price of bar k. */
  lemma StatesStep(prices: seq<real>, q: real, r: real, k: nat)
    requires 1 <= k < |prices| && ValidNoise(q, r)
    ensures States(prices, q, r)[k] == Step(States(prices, q, r)[k - 1], prices[k], q, r)
  {
  }

  /** No lookahead: state k depends only on prices[..k+1]. */
  lemma {:induction false} NoLookahead(a: seq<real>, b: seq<real>, q: real, r: real, k: nat)
    requires k < |a| && k < |b| && ValidNoise(q, r)
    requires a[..k + 1] == b[..k + 1]
    ensures StateAt(a, q, r, k) == StateAt(b, q, r, k)
    ensures Estimates(a, q, r)[k] == Estimates(b, q, r)[k]
  {
    assert a[k] == a[..k + 1][k] == b[..k + 1][k] == b[k];
    if k > 0 {
      assert a[..k] == a[..k + 1][..k] == b[..k + 1][..k] == b[..k];
      NoLookahead(a, b, q, r, k - 1);
    }
  }

  /**
   * For every bar k >= 1 the a priori variance P⁻ = P[k-1] + q is positive,
   * the gain lies strictly between 0 and 1, and P[k] = (1 - K)·P⁻ is positive.
   */
  lemma GainBounded(prices: seq<real>, q: real, r: real, k: nat)
    requires 1 <= k < |prices| && ValidNoise(q, r)
    ensures var priorVariance := States(prices, q, r)[k - 1].variance + q;
      && priorVariance > 0.0
      && 0.0 < Gain(priorVariance, r) < 1.0
      && States(prices, q, r)[k].variance == (1.0 - Gain(priorVariance, r)) * priorVariance
      && States(prices, q, r)[k].variance > 0.0
  {
    StatesStep(prices, q, r, k);
  }

  /** Each estimate is a proper convex combination of the previous estimate and the current price. */
  lemma ConvexUpdate(prices: seq<real>, q: real, r: real, k: nat)
    requires 1 <= k < |prices| && ValidNoise(q, r)
    ensures var g := Gain(States(prices, q, r)[k - 1].variance + q, r);
      && 0.0 < g < 1.0
      && Estimates(prices, q, r)[k] == Blend(Estimates(prices, q, r)[k - 1], prices[k], g)
  {
    var states := States(prices, q, r);
    StatesStep(prices, q, r, k);
    StepIsConvex(states[k - 1], prices[k], q, r);
    assert Estimates(prices, q, r)[k] == states[k].estimate;
    assert Estimates(prices, q, r)[k - 1] == states[k - 1].estimate;
  }

  /** The measurement update moves the estimate the fraction K of the way to the price. */
  lemma StepIsConvex(s: State, price: real, q: real, r: real)
    requires s.variance > 0.0 && ValidNoise(q, r)
    ensures Step(s, price, q, r).estimate == Blend(s.estimate, price, Gain(s.variance + q, r))
  {
    var g := Gain(s.variance + q, r);
    assert s.estimate + g * (price - s.estimate) == (1.0 - g) * s.estimate + g * price;
  }

  /** If the prices so far lie in [lo, hi], so does the estimate. */
  lemma {:induction false} EstimateWithin(prices: seq<real>, q: real, r: real, k: nat, lo: real, hi: real)
    requires k < |prices| && ValidNoise(q, r)
    requires forall j :: 0 <= j <= k ==> lo <= prices[j] <= hi
    ensures lo <= Estimates(prices, q, r)[k] <= hi
  {
    if k > 0 {
      EstimateWithin(prices, q, r, k - 1, lo, hi);
      ConvexUpdate(prices, q, r, k);
      var g := Gain(States(prices, q, r)[k - 1].variance + q, r);
      BlendWithin(Estimates(prices, q, r)[k - 1], prices[k], g, lo, hi);
    }
  }

  /** The estimate at bar k lies between the lowest and highest price of bars 0..k. */
  lemma EstimateInPriceRange(prices: seq<real>, q: real, r: real, k: nat)
    requires k < |prices| && ValidNoise(q, r)
    ensures MinOf(prices[..k + 1]) <= Estimates(prices, q, r)[k] <= MaxOf(prices[..k + 1])
  {
    var seen := prices[..k + 1];
    assert forall j :: 0 <= j <= k ==> prices[j] == seen[j];
    EstimateWithin(prices, q, r, k, MinOf(seen), MaxOf(seen));
  }

  /** A constant price series is its own filtered series. */
  lemma ConstantPrices(prices: seq<real>, q: real, r: real, c: real)
    requires |prices| > 0 && ValidNoise(q, r)
    requires forall j :: 0 <= j < |prices| ==> prices[j] == c
    ensures Estimates(prices, q, r) == prices
  {
    forall k | 0 <= k < |prices|
      ensures Estimates(prices, q, r)[k] == c
    {
      EstimateWithin(prices, q, r, k, c, c);
    }
  }
}
