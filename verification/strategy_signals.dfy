/**
 * The signal composer of the EMA/Donchian trend strategy (`run_strategy`).
 *
 * The first half mirrors the pandas statements one by one on the column
 * algebra of module Series. The second half gives an independent, per-bar
 * reading of each signal (UpperBand, CrossesAbove, LongPath, ...) and proves
 * the two agree, along with the properties the strategy relies on: no
 * lookahead, no breakout during the channel warm-up, one entry per run of a
 * sustained condition, and short entries taking precedence in the direction.
 */
module StrategySignals {
  import opened Wrappers
  import opened Numeric
  import opened Series
  import opened Rolling

  /** StrategyConfig.DONCHIAN_PERIOD. */
  const DonchianPeriod: nat := 20

  /**
   * The price columns of the frame plus the two library indicators, which are
   * supplied as given series: the fast and slow EMAs (`ewm(span).mean()`) and
   * the RSI after `fillna(50)`.
   */
  datatype Frame = Frame(close: seq<real>, high: seq<real>, low: seq<real>,
                         emaFast: seq<real>, emaSlow: seq<real>, rsi: seq<real>)
  {
    /** All columns belong to one frame, hence have one length. */
    predicate Aligned()
    {
      |high| == |close| && |low| == |close| && |emaFast| == |close|
      && |emaSlow| == |close| && |rsi| == |close|
    }
  }

  /** What `run_strategy` returns. */
  datatype Signals = Signals(entries: Mask, exits: Mask, direction: seq<int>)

  // ---------------------------------------------------------------------------
  // The pandas computation
  // ---------------------------------------------------------------------------

  /** `ema_fast > ema_slow`. */
  function TrendUp(f: Frame): (m: Mask)
    requires f.Aligned()
    ensures |m| == |f.close|
  {
    Compare(Lift(f.emaFast), Gt, Lift(f.emaSlow))
  }

  /** `ema_fast < ema_slow`. */
  function TrendDown(f: Frame): (m: Mask)
    requires f.Aligned()
    ensures |m| == |f.close|
  {
    Compare(Lift(f.emaFast), Lt, Lift(f.emaSlow))
  }

  /** `high.rolling(20).max().shift(1).fillna(close)`. */
  function DonchianUpper(f: Frame): (band: seq<real>)
    requires f.Aligned()
    ensures |band| == |f.close|
  {
    FillNaFrom(Shift(RollingMax(Lift(f.high), DonchianPeriod)), f.close)
  }

  /** `low.rolling(20).min().shift(1).fillna(close)`. */
  function DonchianLower(f: Frame): (band: seq<real>)
    requires f.Aligned()
    ensures |band| == |f.close|
  {
    FillNaFrom(Shift(RollingMin(Lift(f.low), DonchianPeriod)), f.close)
  }

  /** `(ema_fast > ema_slow) & (ema_fast.shift(1) <= ema_slow.shift(1))`. */
  function CrossUp(f: Frame): (m: Mask)
    requires f.Aligned()
    ensures |m| == |f.close|
  {
    And(Compare(Lift(f.emaFast), Gt, Lift(f.emaSlow)),
        Compare(Shift(Lift(f.emaFast)), Le, Shift(Lift(f.emaSlow))))
  }

  /** `(ema_fast < ema_slow) & (ema_fast.shift(1) >= ema_slow.shift(1))`. */
  function CrossDown(f: Frame): (m: Mask)
    requires f.Aligned()
    ensures |m| == |f.close|
  {
    And(Compare(Lift(f.emaFast), Lt, Lift(f.emaSlow)),
        Compare(Shift(Lift(f.emaFast)), Ge, Shift(Lift(f.emaSlow))))
  }

  /** `(close > close.shift(1)) & (close.shift(1) > close.shift(2))`. */
  function PriceMomentumUp(f: Frame): (m: Mask)
    requires f.Aligned()
    ensures |m| == |f.close|
  {
    var c := Lift(f.close);
    And(Compare(c, Gt, Shift(c)), Compare(Shift(c), Gt, Shift(Shift(c))))
  }

  /** `(close < close.shift(1)) & (close.shift(1) < close.shift(2))`. */
  function PriceMomentumDown(f: Frame): (m: Mask)
    requires f.Aligned()
    ensures |m| == |f.close|
  {
    var c := Lift(f.close);
    And(Compare(c, Lt, Shift(c)), Compare(Shift(c), Lt, Shift(Shift(c))))
  }

  /** `rsi op v`. */
  function RsiIs(f: Frame, op: Cmp, v: real): (m: Mask)
    requires f.Aligned()
    ensures |m| == |f.close|
  {
    CompareConst(Lift(f.rsi), op, v)
  }

  /** The five entry paths, in the order the strategy lists them. */
  datatype Path = Crossover | TrendFollow | Breakout | Simple | Momentum

  /**
   * The pandas mask of long path p: golden cross; uptrend with the close over
   * the fast EMA and RSI over 45; close over the upper band with RSI over 40;
   * uptrend with RSI over 40; two rising closes with RSI over 45 in an uptrend.
   */
  function LongPathMask(f: Frame, p: Path): (m: Mask)
    requires f.Aligned()
    ensures |m| == |f.close|
  {
    match p
    case Crossover => CrossUp(f)
    case TrendFollow => And(And(TrendUp(f), Compare(Lift(f.close), Gt, Lift(f.emaFast))), RsiIs(f, Gt, 45.0))
    case Breakout => And(Compare(Lift(f.close), Gt, Lift(DonchianUpper(f))), RsiIs(f, Gt, 40.0))
    case Simple => And(TrendUp(f), RsiIs(f, Gt, 40.0))
    case Momentum => And(And(PriceMomentumUp(f), RsiIs(f, Gt, 45.0)), TrendUp(f))
  }

  /**
   * The pandas mask of short path p: death cross; downtrend with the close
   * under the fast EMA and RSI under 55; close under the lower band with RSI
   * under 60; downtrend with RSI under 60; two falling closes with RSI under
   * 55 in a downtrend.
   */
  function ShortPathMask(f: Frame, p: Path): (m: Mask)
    requires f.Aligned()
    ensures |m| == |f.close|
  {
    match p
    case Crossover => CrossDown(f)
    case TrendFollow => And(And(TrendDown(f), Compare(Lift(f.close), Lt, Lift(f.emaFast))), RsiIs(f, Lt, 55.0))
    case Breakout => And(Compare(Lift(f.close), Lt, Lift(DonchianLower(f))), RsiIs(f, Lt, 60.0))
    case Simple => And(TrendDown(f), RsiIs(f, Lt, 60.0))
    case Momentum => And(And(PriceMomentumDown(f), RsiIs(f, Lt, 55.0)), TrendDown(f))
  }

  /** `long_entry`: the OR of the five long paths, before de-duplication. */
  function RawLongEntry(f: Frame): (m: Mask)
    requires f.Aligned()
    ensures |m| == |f.close|
  {
    Or(Or(Or(Or(LongPathMask(f, Crossover), LongPathMask(f, TrendFollow)), LongPathMask(f, Breakout)),
          LongPathMask(f, Simple)), LongPathMask(f, Momentum))
  }

  /** `short_entry`: the OR of the five short paths, before de-duplication. */
  function RawShortEntry(f: Frame): (m: Mask)
    requires f.Aligned()
    ensures |m| == |f.close|
  {
    Or(Or(Or(Or(ShortPathMask(f, Crossover), ShortPathMask(f, TrendFollow)), ShortPathMask(f, Breakout)),
          ShortPathMask(f, Simple)), ShortPathMask(f, Momentum))
  }

  /** `m & ~m.shift(1).fillna(False)`: keep only the first bar of each run. */
  function RisingEdge(m: Mask): (r: Mask)
    ensures |r| == |m|
  {
    And(m, Not(FillNa(Shift(Lift(m)), false)))
  }

  function LongEntry(f: Frame): (m: Mask)
    requires f.Aligned()
    ensures |m| == |f.close|
  {
    RisingEdge(RawLongEntry(f))
  }

  function ShortEntry(f: Frame): (m: Mask)
    requires f.Aligned()
    ensures |m| == |f.close|
  {
    RisingEdge(RawShortEntry(f))
  }

  /** Exit a long on a death cross or on a breakdown with weak RSI. */
  function LongExit(f: Frame): (m: Mask)
    requires f.Aligned()
    ensures |m| == |f.close|
  {
    Or(CrossDown(f), And(Compare(Lift(f.close), Lt, Lift(DonchianLower(f))), RsiIs(f, Lt, 40.0)))
  }

  /** Exit a short on a golden cross or on a breakout with strong RSI. */
  function ShortExit(f: Frame): (m: Mask)
    requires f.Aligned()
    ensures |m| == |f.close|
  {
    Or(CrossUp(f), And(Compare(Lift(f.close), Gt, Lift(DonchianUpper(f))), RsiIs(f, Gt, 60.0)))
  }

  /** `direction = 0; direction[long_entry] = 1; direction[short_entry] = -1`. */
  function Direction(longEntry: Mask, shortEntry: Mask): (d: seq<int>)
    requires |longEntry| == |shortEntry|
    ensures |d| == |longEntry|
  {
    Put(Put(Zeros(|longEntry|), longEntry, 1), shortEntry, -1)
  }

  /** `run_strategy`: entries, exits and direction of the trend strategy. */
  function RunStrategy(f: Frame): (s: Signals)
    requires f.Aligned()
    ensures |s.entries| == |s.exits| == |s.direction| == |f.close|
  {
    var longEntry := LongEntry(f);
    var shortEntry := ShortEntry(f);
    Signals(Or(longEntry, shortEntry), Or(LongExit(f), ShortExit(f)), Direction(longEntry, shortEntry))
  }

  // ---------------------------------------------------------------------------
  // The per-bar reading
  // ---------------------------------------------------------------------------

  /** Donchian upper band at bar k: the highest high of the 20 bars before k, or the close during warm-up. */
  function UpperBand(f: Frame, k: nat): real
    requires f.Aligned() && k < |f.close|
  {
    if k < DonchianPeriod then f.close[k] else MaxOf(f.high[k - DonchianPeriod..k])
  }

  /** Donchian lower band at bar k: the lowest low of the 20 bars before k, or the close during warm-up. */
  function LowerBand(f: Frame, k: nat): real
    requires f.Aligned() && k < |f.close|
  {
    if k < DonchianPeriod then f.close[k] else MinOf(f.low[k - DonchianPeriod..k])
  }

  /** a crosses above b at bar k: strictly above now, at or below on the previous bar. */
  predicate CrossesAbove(a: seq<real>, b: seq<real>, k: nat)
    requires |a| == |b| && k < |a|
  {
    0 < k && a[k] > b[k] && a[k - 1] <= b[k - 1]
  }

  /** a crosses below b at bar k: strictly below now, at or above on the previous bar. */
  predicate CrossesBelow(a: seq<real>, b: seq<real>, k: nat)
    requires |a| == |b| && k < |a|
  {
    0 < k && a[k] < b[k] && a[k - 1] >= b[k - 1]
  }

  /** Two strictly rising closes in a row end at bar k. */
  predicate RisesTwice(close: seq<real>, k: nat)
    requires k < |close|
  {
    2 <= k && close[k] > close[k - 1] && close[k - 1] > close[k - 2]
  }

  /** Two strictly falling closes in a row end at bar k. */
  predicate FallsTwice(close: seq<real>, k: nat)
    requires k < |close|
  {
    2 <= k && close[k] < close[k - 1] && close[k - 1] < close[k - 2]
  }

  /** Long path p fires at bar k. */
  predicate LongPath(f: Frame, p: Path, k: nat)
    requires f.Aligned() && k < |f.close|
  {
    var uptrend := f.emaFast[k] > f.emaSlow[k];
    match p
    case Crossover => CrossesAbove(f.emaFast, f.emaSlow, k)
    case TrendFollow => uptrend && f.close[k] > f.emaFast[k] && f.rsi[k] > 45.0
    case Breakout => f.close[k] > UpperBand(f, k) && f.rsi[k] > 40.0
    case Simple => uptrend && f.rsi[k] > 40.0
    case Momentum => RisesTwice(f.close, k) && f.rsi[k] > 45.0 && uptrend
  }

  /** Short path p fires at bar k. */
  predicate ShortPath(f: Frame, p: Path, k: nat)
    requires f.Aligned() && k < |f.close|
  {
    var downtrend := f.emaFast[k] < f.emaSlow[k];
    match p
    case Crossover => CrossesBelow(f.emaFast, f.emaSlow, k)
    case TrendFollow => downtrend && f.close[k] < f.emaFast[k] && f.rsi[k] < 55.0
    case Breakout => f.close[k] < LowerBand(f, k) && f.rsi[k] < 60.0
    case Simple => downtrend && f.rsi[k] < 60.0
    case Momentum => FallsTwice(f.close, k) && f.rsi[k] < 55.0 && downtrend
  }

  // ---------------------------------------------------------------------------
  // Agreement of the two readings, and the strategy's properties
  // ---------------------------------------------------------------------------

  /**
   * The shifted, NaN-filled rolling maximum is the highest high of the 20
   * bars strictly before k, and the close itself during the first 20 bars.
   */
  lemma DonchianUpperAt(f: Frame, k: nat)
    requires f.Aligned() && k < |f.close|
    ensures DonchianUpper(f)[k] == UpperBand(f, k)
  {
    var rolled := RollingMax(Lift(f.high), DonchianPeriod);
    if k > 0 {
      assert Shift(rolled)[k] == rolled[k - 1];
      if k >= DonchianPeriod {
        WindowOfLift(f.high, k - 1, DonchianPeriod);
      }
    }
  }

  /** The lower band, likewise with the lowest low. */
  lemma DonchianLowerAt(f: Frame, k: nat)
    requires f.Aligned() && k < |f.close|
    ensures DonchianLower(f)[k] == LowerBand(f, k)
  {
    var rolled := RollingMin(Lift(f.low), DonchianPeriod);
    if k > 0 {
      assert Shift(rolled)[k] == rolled[k - 1];
      if k >= DonchianPeriod {
        WindowOfLift(f.low, k - 1, DonchianPeriod);
      }
    }
  }

  /**
   * After warm-up the upper band bounds every high of the 20 previous bars
   * and equals one of them; by DonchianUpperAt this is the pandas column.
   */
  lemma DonchianUpperBounds(f: Frame, k: nat)
    requires f.Aligned() && DonchianPeriod <= k < |f.close|
    ensures forall j :: k - DonchianPeriod <= j < k ==> f.high[j] <= UpperBand(f, k)
    ensures exists j :: k - DonchianPeriod <= j < k && f.high[j] == UpperBand(f, k)
  {
    var i := SliceMaxBounds(f.high, k - DonchianPeriod, k, UpperBand(f, k));
  }

  /**
   * After warm-up the lower band is below every low of the 20 previous bars
   * and equals one of them; by DonchianLowerAt this is the pandas column.
   */
  lemma DonchianLowerBounds(f: Frame, k: nat)
    requires f.Aligned() && DonchianPeriod <= k < |f.close|
    ensures forall j :: k - DonchianPeriod <= j < k ==> LowerBand(f, k) <= f.low[j]
    ensures exists j :: k - DonchianPeriod <= j < k && f.low[j] == LowerBand(f, k)
  {
    var i := SliceMinBounds(f.low, k - DonchianPeriod, k, LowerBand(f, k));
  }

  /** The maximum of the slice xs[lo..hi] bounds each of its elements and is one of them. */
  lemma SliceMaxBounds(xs: seq<real>, lo: nat, hi: nat, band: real) returns (at: nat)
    requires lo < hi <= |xs| && band == MaxOf(xs[lo..hi])
    ensures forall j :: lo <= j < hi ==> xs[j] <= band
    ensures lo <= at < hi && xs[at] == band
  {
    MaxOfSlice(xs, lo, hi);
    at :| lo <= at < hi && xs[at] == band;
  }

  /** The minimum of the slice xs[lo..hi] is below each of its elements and is one of them. */
  lemma SliceMinBounds(xs: seq<real>, lo: nat, hi: nat, band: real) returns (at: nat)
    requires lo < hi <= |xs| && band == MinOf(xs[lo..hi])
    ensures forall j :: lo <= j < hi ==> band <= xs[j]
    ensures lo <= at < hi && xs[at] == band
  {
    MinOfSlice(xs, lo, hi);
    at :| lo <= at < hi && xs[at] == band;
  }

  /**
   * The channel at bar k ignores bar k's own high and low: two frames that
   * agree on the earlier highs and lows and on the current close have the
   * same bands.
   */
  lemma DonchianIgnoresCurrentBar(f: Frame, g: Frame, k: nat)
    requires f.Aligned() && g.Aligned() && k < |f.close| && k < |g.close|
    requires f.high[..k] == g.high[..k] && f.low[..k] == g.low[..k] && f.close[k] == g.close[k]
    ensures DonchianUpper(f)[k] == DonchianUpper(g)[k]
    ensures DonchianLower(f)[k] == DonchianLower(g)[k]
  {
    DonchianUpperAt(f, k);
    DonchianUpperAt(g, k);
    DonchianLowerAt(f, k);
    DonchianLowerAt(g, k);
    BandsIgnoreCurrentBar(f, g, k);
  }

  /** The reference bands at bar k read the highs and lows of bars before k only. */
  lemma BandsIgnoreCurrentBar(f: Frame, g: Frame, k: nat)
    requires f.Aligned() && g.Aligned() && k < |f.close| && k < |g.close|
    requires f.high[..k] == g.high[..k] && f.low[..k] == g.low[..k] && f.close[k] == g.close[k]
    ensures UpperBand(f, k) == UpperBand(g, k) && LowerBand(f, k) == LowerBand(g, k)
  {
    if k >= DonchianPeriod {
      assert f.high[k - DonchianPeriod..k] == f.high[..k][k - DonchianPeriod..];
      assert g.high[k - DonchianPeriod..k] == g.high[..k][k - DonchianPeriod..];
      assert f.low[k - DonchianPeriod..k] == f.low[..k][k - DonchianPeriod..];
      assert g.low[k - DonchianPeriod..k] == g.low[..k][k - DonchianPeriod..];
    }
  }

  /**
   * During the channel warm-up both bands equal the close, so neither the
   * breakout nor the breakdown path can fire.
   */
  lemma DonchianWarmupNoBreakout(f: Frame, k: nat)
    requires f.Aligned() && k < |f.close| && k < DonchianPeriod
    ensures DonchianUpper(f)[k] == f.close[k] && DonchianLower(f)[k] == f.close[k]
    ensures !LongPath(f, Breakout, k) && !ShortPath(f, Breakout, k)
  {
    DonchianUpperAt(f, k);
    DonchianLowerAt(f, k);
  }

  /**
   * The crossover primitives: strict comparison now, non-strict on the
   * previous bar; never at bar 0 (the shifted values are NaN) and never both
   * directions on one bar.
   */
  lemma CrossAt(f: Frame, k: nat)
    requires f.Aligned() && k < |f.close|
    ensures CrossUp(f)[k] <==> CrossesAbove(f.emaFast, f.emaSlow, k)
    ensures CrossDown(f)[k] <==> CrossesBelow(f.emaFast, f.emaSlow, k)
    ensures k == 0 ==> !CrossUp(f)[k] && !CrossDown(f)[k]
    ensures !(CrossUp(f)[k] && CrossDown(f)[k])
  {
    if k > 0 {
      assert Shift(Lift(f.emaFast))[k] == Some(f.emaFast[k - 1]);
      assert Shift(Lift(f.emaSlow))[k] == Some(f.emaSlow[k - 1]);
    }
  }

  /** Price momentum needs two earlier closes, so it is false on bars 0 and 1. */
  lemma MomentumAt(f: Frame, k: nat)
    requires f.Aligned() && k < |f.close|
    ensures PriceMomentumUp(f)[k] <==> RisesTwice(f.close, k)
    ensures PriceMomentumDown(f)[k] <==> FallsTwice(f.close, k)
  {
    var c := Lift(f.close);
    if k >= 1 {
      assert Shift(c)[k] == Some(f.close[k - 1]);
    }
    if k >= 2 {
      assert Shift(c)[k - 1] == Some(f.close[k - 2]);
      assert Shift(Shift(c))[k] == Some(f.close[k - 2]);
    } else if k == 1 {
      assert Shift(Shift(c))[1] == Shift(c)[0];
    }
  }

  /** The pandas mask of each long path agrees with its per-bar reading. */
  lemma LongPathAt(f: Frame, p: Path, k: nat)
    requires f.Aligned() && k < |f.close|
    ensures LongPathMask(f, p)[k] <==> LongPath(f, p, k)
  {
    var close := Lift(f.close);
    var uptrend := TrendUp(f);
    assert uptrend[k] <==> f.emaFast[k] > f.emaSlow[k];
    match p
    case Crossover =>
      CrossAt(f, k);
    case TrendFollow =>
      var overFast := Compare(close, Gt, Lift(f.emaFast));
      assert overFast[k] <==> f.close[k] > f.emaFast[k];
      var strong := RsiIs(f, Gt, 45.0);
      assert strong[k] <==> f.rsi[k] > 45.0;
    case Breakout =>
      BreakoutAt(f, 40.0, k);
    case Simple =>
      var strong := RsiIs(f, Gt, 40.0);
      assert strong[k] <==> f.rsi[k] > 40.0;
    case Momentum =>
      MomentumAt(f, k);
      var strong := RsiIs(f, Gt, 45.0);
      assert strong[k] <==> f.rsi[k] > 45.0;
  }

  /** The pandas mask of each short path agrees with its per-bar reading. */
  lemma ShortPathAt(f: Frame, p: Path, k: nat)
    requires f.Aligned() && k < |f.close|
    ensures ShortPathMask(f, p)[k] <==> ShortPath(f, p, k)
  {
    var close := Lift(f.close);
    var downtrend := TrendDown(f);
    assert downtrend[k] <==> f.emaFast[k] < f.emaSlow[k];
    match p
    case Crossover =>
      CrossAt(f, k);
    case TrendFollow =>
      var underFast := Compare(close, Lt, Lift(f.emaFast));
      assert underFast[k] <==> f.close[k] < f.emaFast[k];
      var weak := RsiIs(f, Lt, 55.0);
      assert weak[k] <==> f.rsi[k] < 55.0;
    case Breakout =>
      BreakdownAt(f, 60.0, k);
    case Simple =>
      var weak := RsiIs(f, Lt, 60.0);
      assert weak[k] <==> f.rsi[k] < 60.0;
    case Momentum =>
      MomentumAt(f, k);
      var weak := RsiIs(f, Lt, 55.0);
      assert weak[k] <==> f.rsi[k] < 55.0;
  }

  /** The raw long entry fires exactly when at least one of the five long paths does. */
  lemma RawLongEntryAt(f: Frame, k: nat)
    requires f.Aligned() && k < |f.close|
    ensures RawLongEntry(f)[k] <==> exists p :: LongPath(f, p, k)
  {
    forall p: Path
      ensures LongPathMask(f, p)[k] <==> LongPath(f, p, k)
    {
      LongPathAt(f, p, k);
    }
    if exists p :: LongPath(f, p, k) {
      var p :| LongPath(f, p, k);
      match p
      case Crossover =>
      case TrendFollow =>
      case Breakout =>
      case Simple =>
      case Momentum =>
    }
  }

  /** The raw short entry fires exactly when at least one of the five short paths does. */
  lemma RawShortEntryAt(f: Frame, k: nat)
    requires f.Aligned() && k < |f.close|
    ensures RawShortEntry(f)[k] <==> exists p :: ShortPath(f, p, k)
  {
    forall p: Path
      ensures ShortPathMask(f, p)[k] <==> ShortPath(f, p, k)
    {
      ShortPathAt(f, p, k);
    }
    if exists p :: ShortPath(f, p, k) {
      var p :| ShortPath(f, p, k);
      match p
      case Crossover =>
      case TrendFollow =>
      case Breakout =>
      case Simple =>
      case Momentum =>
    }
  }

  /** A bar is a rising edge when the condition holds there and did not hold on the bar before. */
  lemma RisingEdgeAt(m: Mask, k: nat)
    requires k < |m|
    ensures RisingEdge(m)[k] <==> m[k] && !(k > 0 && m[k - 1])
  {
    if k > 0 {
      assert Shift(Lift(m))[k] == Some(m[k - 1]);
    }
  }

  /** Rising edges never fall on two consecutive bars. */
  lemma RisingEdgeNotTwiceInARow(m: Mask, k: nat)
    requires 0 < k < |m|
    ensures !(RisingEdge(m)[k - 1] && RisingEdge(m)[k])
  {
    RisingEdgeAt(m, k - 1);
    RisingEdgeAt(m, k);
  }

  /** A maximal run of true bars i..j fires exactly once, at its first bar. */
  lemma RisingEdgeOncePerRun(m: Mask, i: nat, j: nat)
    requires i <= j < |m|
    requires forall k :: i <= k <= j ==> m[k]
    requires i == 0 || !m[i - 1]
    ensures (set k | i <= k <= j && RisingEdge(m)[k]) == {i}
  {
    forall k | i <= k <= j
      ensures RisingEdge(m)[k] <==> k == i
    {
      RisingEdgeAt(m, k);
    }
  }

  /**
   * Direction is -1 on a short entry, +1 on a long entry with no short entry,
   * and 0 elsewhere; it is non-zero exactly on entry bars.
   */
  lemma DirectionAt(f: Frame, k: nat)
    requires f.Aligned() && k < |f.close|
    ensures var s := RunStrategy(f);
      && (s.direction[k] == -1 <==> ShortEntry(f)[k])
      && (s.direction[k] == 1 <==> LongEntry(f)[k] && !ShortEntry(f)[k])
      && (s.direction[k] == 0 <==> !LongEntry(f)[k] && !ShortEntry(f)[k])
      && (s.direction[k] != 0 <==> s.entries[k])
  {
    var longEntry := LongEntry(f);
    var shortEntry := ShortEntry(f);
    assert Put(Zeros(|longEntry|), longEntry, 1)[k] == (if longEntry[k] then 1 else 0);
  }

  /** The mask "close op band and rsi op v" over fully defined columns. */
  lemma BandTestAt(close: seq<real>, band: seq<real>, rsi: seq<real>, op: Cmp, v: real, k: nat)
    requires |band| == |close| && |rsi| == |close| && k < |close|
    ensures And(Compare(Lift(close), op, Lift(band)), CompareConst(Lift(rsi), op, v))[k]
      <==> Holds(op, close[k], band[k]) && Holds(op, rsi[k], v)
  {
  }

  /** Close under the lower band with RSI under v. */
  lemma BreakdownAt(f: Frame, v: real, k: nat)
    requires f.Aligned() && k < |f.close|
    ensures And(Compare(Lift(f.close), Lt, Lift(DonchianLower(f))), RsiIs(f, Lt, v))[k]
      <==> f.close[k] < LowerBand(f, k) && f.rsi[k] < v
  {
    BandTestAt(f.close, DonchianLower(f), f.rsi, Lt, v, k);
    DonchianLowerAt(f, k);
  }

  /** Close over the upper band with RSI over v. */
  lemma BreakoutAt(f: Frame, v: real, k: nat)
    requires f.Aligned() && k < |f.close|
    ensures And(Compare(Lift(f.close), Gt, Lift(DonchianUpper(f))), RsiIs(f, Gt, v))[k]
      <==> f.close[k] > UpperBand(f, k) && f.rsi[k] > v
  {
    BandTestAt(f.close, DonchianUpper(f), f.rsi, Gt, v, k);
    DonchianUpperAt(f, k);
  }

  /** A long exit is a death cross or a close under the lower band with RSI below 40. */
  lemma LongExitAt(f: Frame, k: nat)
    requires f.Aligned() && k < |f.close|
    ensures LongExit(f)[k] <==>
      CrossesBelow(f.emaFast, f.emaSlow, k) || (f.close[k] < LowerBand(f, k) && f.rsi[k] < 40.0)
  {
    CrossAt(f, k);
    BreakdownAt(f, 40.0, k);
  }

  /** A short exit is a golden cross or a close over the upper band with RSI above 60. */
  lemma ShortExitAt(f: Frame, k: nat)
    requires f.Aligned() && k < |f.close|
    ensures ShortExit(f)[k] <==>
      CrossesAbove(f.emaFast, f.emaSlow, k) || (f.close[k] > UpperBand(f, k) && f.rsi[k] > 60.0)
  {
    CrossAt(f, k);
    BreakoutAt(f, 60.0, k);
  }

  /** During the channel warm-up only a crossover can trigger an exit; on bar 0 nothing can. */
  lemma WarmupExits(f: Frame, k: nat)
    requires f.Aligned() && k < |f.close| && k < DonchianPeriod
    ensures RunStrategy(f).exits[k] <==> CrossUp(f)[k] || CrossDown(f)[k]
    ensures k == 0 ==> !RunStrategy(f).exits[k]
  {
    LongExitAt(f, k);
    ShortExitAt(f, k);
    CrossAt(f, k);
  }

  /** Two frames that agree on all columns up to and including bar k. */
  predicate AgreeThrough(f: Frame, g: Frame, k: nat)
    requires f.Aligned() && g.Aligned() && k < |f.close| && k < |g.close|
  {
    && f.close[..k + 1] == g.close[..k + 1]
    && f.high[..k + 1] == g.high[..k + 1]
    && f.low[..k + 1] == g.low[..k + 1]
    && f.emaFast[..k + 1] == g.emaFast[..k + 1]
    && f.emaSlow[..k + 1] == g.emaSlow[..k + 1]
    && f.rsi[..k + 1] == g.rsi[..k + 1]
  }

  lemma AgreeThroughEarlier(f: Frame, g: Frame, k: nat, j: nat)
    requires f.Aligned() && g.Aligned() && k < |f.close| && k < |g.close|
    requires AgreeThrough(f, g, k) && j <= k
    ensures AgreeThrough(f, g, j)
    ensures f.close[j] == g.close[j] && f.high[j] == g.high[j] && f.low[j] == g.low[j]
    ensures f.emaFast[j] == g.emaFast[j] && f.emaSlow[j] == g.emaSlow[j] && f.rsi[j] == g.rsi[j]
  {
    assert f.close[..j + 1] == f.close[..k + 1][..j + 1];
    assert g.close[..j + 1] == g.close[..k + 1][..j + 1];
    assert f.high[..j + 1] == f.high[..k + 1][..j + 1];
    assert g.high[..j + 1] == g.high[..k + 1][..j + 1];
    assert f.low[..j + 1] == f.low[..k + 1][..j + 1];
    assert g.low[..j + 1] == g.low[..k + 1][..j + 1];
    assert f.emaFast[..j + 1] == f.emaFast[..k + 1][..j + 1];
    assert g.emaFast[..j + 1] == g.emaFast[..k + 1][..j + 1];
    assert f.emaSlow[..j + 1] == f.emaSlow[..k + 1][..j + 1];
    assert g.emaSlow[..j + 1] == g.emaSlow[..k + 1][..j + 1];
    assert f.rsi[..j + 1] == f.rsi[..k + 1][..j + 1];
    assert g.rsi[..j + 1] == g.rsi[..k + 1][..j + 1];
    assert f.close[..k + 1][j] == f.close[j];
    assert f.high[..k + 1][j] == f.high[j];
    assert f.low[..k + 1][j] == f.low[j];
    assert f.emaFast[..k + 1][j] == f.emaFast[j];
    assert f.emaSlow[..k + 1][j] == f.emaSlow[j];
    assert f.rsi[..k + 1][j] == f.rsi[j];
  }

  /** The bands at bar k read only bars 0..k. */
  lemma BandsNoLookahead(f: Frame, g: Frame, k: nat)
    requires f.Aligned() && g.Aligned() && k < |f.close| && k < |g.close|
    requires AgreeThrough(f, g, k)
    ensures UpperBand(f, k) == UpperBand(g, k) && LowerBand(f, k) == LowerBand(g, k)
  {
    AgreeThroughEarlier(f, g, k, k);
    if k >= DonchianPeriod {
      assert f.high[k - DonchianPeriod..k] == f.high[..k + 1][k - DonchianPeriod..k];
      assert g.high[k - DonchianPeriod..k] == g.high[..k + 1][k - DonchianPeriod..k];
      assert f.low[k - DonchianPeriod..k] == f.low[..k + 1][k - DonchianPeriod..k];
      assert g.low[k - DonchianPeriod..k] == g.low[..k + 1][k - DonchianPeriod..k];
    }
  }

  /** Every path at bar k reads only bars 0..k. */
  lemma PathsNoLookahead(f: Frame, g: Frame, k: nat)
    requires f.Aligned() && g.Aligned() && k < |f.close| && k < |g.close|
    requires AgreeThrough(f, g, k)
    ensures forall p :: LongPath(f, p, k) <==> LongPath(g, p, k)
    ensures forall p :: ShortPath(f, p, k) <==> ShortPath(g, p, k)
  {
    AgreeAtBar(f, g, k, k);
    if k >= 1 {
      AgreeAtBar(f, g, k, k - 1);
    }
    if k >= 2 {
      AgreeAtBar(f, g, k, k - 2);
    }
    BandsNoLookahead(f, g, k);
    assert CrossesAbove(f.emaFast, f.emaSlow, k) == CrossesAbove(g.emaFast, g.emaSlow, k);
    assert CrossesBelow(f.emaFast, f.emaSlow, k) == CrossesBelow(g.emaFast, g.emaSlow, k);
    assert RisesTwice(f.close, k) == RisesTwice(g.close, k);
    assert FallsTwice(f.close, k) == FallsTwice(g.close, k);
  }

  /** Two frames that agree on bars 0..k agree on every column at bar j <= k. */
  lemma AgreeAtBar(f: Frame, g: Frame, k: nat, j: nat)
    requires f.Aligned() && g.Aligned() && k < |f.close| && k < |g.close|
    requires AgreeThrough(f, g, k) && j <= k
    ensures f.close[j] == g.close[j] && f.high[j] == g.high[j] && f.low[j] == g.low[j]
    ensures f.emaFast[j] == g.emaFast[j] && f.emaSlow[j] == g.emaSlow[j] && f.rsi[j] == g.rsi[j]
  {
    AgreeThroughEarlier(f, g, k, j);
  }

  /** The raw entries at bar k read only bars 0..k. */
  lemma RawEntriesNoLookahead(f: Frame, g: Frame, k: nat)
    requires f.Aligned() && g.Aligned() && k < |f.close| && k < |g.close|
    requires AgreeThrough(f, g, k)
    ensures RawLongEntry(f)[k] == RawLongEntry(g)[k]
    ensures RawShortEntry(f)[k] == RawShortEntry(g)[k]
  {
    PathsNoLookahead(f, g, k);
    RawLongEntryAt(f, k);
    RawLongEntryAt(g, k);
    RawShortEntryAt(f, k);
    RawShortEntryAt(g, k);
  }

  /** The de-duplicated entries at bar k read only bars 0..k. */
  lemma EntriesNoLookahead(f: Frame, g: Frame, k: nat)
    requires f.Aligned() && g.Aligned() && k < |f.close| && k < |g.close|
    requires AgreeThrough(f, g, k)
    ensures LongEntry(f)[k] == LongEntry(g)[k]
    ensures ShortEntry(f)[k] == ShortEntry(g)[k]
  {
    RawEntriesNoLookahead(f, g, k);
    if k > 0 {
      AgreeThroughEarlier(f, g, k, k - 1);
      RawEntriesNoLookahead(f, g, k - 1);
    }
    RisingEdgeAt(RawLongEntry(f), k);
    RisingEdgeAt(RawLongEntry(g), k);
    RisingEdgeAt(RawShortEntry(f), k);
    RisingEdgeAt(RawShortEntry(g), k);
  }

  /** The exits at bar k read only bars 0..k. */
  lemma ExitsNoLookahead(f: Frame, g: Frame, k: nat)
    requires f.Aligned() && g.Aligned() && k < |f.close| && k < |g.close|
    requires AgreeThrough(f, g, k)
    ensures LongExit(f)[k] == LongExit(g)[k]
    ensures ShortExit(f)[k] == ShortExit(g)[k]
  {
    AgreeThroughEarlier(f, g, k, k);
    if k > 0 {
      AgreeThroughEarlier(f, g, k, k - 1);
    }
    assert CrossesBelow(f.emaFast, f.emaSlow, k) == CrossesBelow(g.emaFast, g.emaSlow, k);
    assert CrossesAbove(f.emaFast, f.emaSlow, k) == CrossesAbove(g.emaFast, g.emaSlow, k);
    BandsNoLookahead(f, g, k);
    LongExitAt(f, k);
    LongExitAt(g, k);
    ShortExitAt(f, k);
    ShortExitAt(g, k);
  }

  /**
   * No lookahead: entries, exits and direction at bar k are the same for any
   * two frames that agree on bars 0..k, whatever follows.
   */
  lemma SignalsNoLookahead(f: Frame, g: Frame, k: nat)
    requires f.Aligned() && g.Aligned() && k < |f.close| && k < |g.close|
    requires AgreeThrough(f, g, k)
    ensures RunStrategy(f).entries[k] == RunStrategy(g).entries[k]
    ensures RunStrategy(f).exits[k] == RunStrategy(g).exits[k]
    ensures RunStrategy(f).direction[k] == RunStrategy(g).direction[k]
  {
    EntriesNoLookahead(f, g, k);
    ExitsNoLookahead(f, g, k);
    DirectionAt(f, k);
    DirectionAt(g, k);
  }
}
