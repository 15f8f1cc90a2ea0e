/** The columns `alpha_engine.py` computes from a candle history before it classifies a bar: features,
    labels, filters, kernel flags and trend flags, and the proof that all of them are prefix-stable. */
module EngineColumns {
  import opened Numeric
  import opened Indicators

  datatype Settings = Settings(
    neighborsCount: nat, maxBarsBack: nat, featureCount: nat,
    useDynamicExits: bool, includeFullHistory: bool,
    useVolatilityFilter: bool, useRegimeFilter: bool, useAdxFilter: bool,
    regimeThreshold: real, adxThreshold: real,
    useEmaFilter: bool, emaPeriod: nat, useSmaFilter: bool, smaPeriod: nat,
    useKernelFilter: bool, useKernelSmoothing: bool,
    h: int, r: real, x: nat, lag: int)

  const DEFAULTS := Settings(8, 2000, 5, false, false, true, true, false, -0.1, 20.0,
                             false, 200, false, 200, true, false, 8, 8.0, 25, 2)

  /** Settings whose kernel weights do not divide by zero. */
  type Engine = e: Settings | e.h != 0 && e.h != e.lag && e.r != 0.0 witness DEFAULTS

  // ---------- columns ----------

  function Closes(h: seq<Bar>): seq<Num> {
    seq(|h|, i requires 0 <= i < |h| => Fin(h[i].close))
  }

  function Source(h: seq<Bar>): seq<real> {
    seq(|h|, i requires 0 <= i < |h| => h[i].close)
  }

  function Hlc3(h: seq<Bar>): seq<Num> {
    seq(|h|, i requires 0 <= i < |h| => Fin((h[i].high + h[i].low + h[i].close) / 3.0))
  }

  function FirstUndefined(a: seq<Num>): seq<Num> {
    seq(|a|, i requires 0 <= i < |a| => if i == 0 then NaN else a[i])
  }

  function Gain(change: Num): Num {
    if Greater(change, Fin(0.0)) then change else Fin(0.0)
  }

  function Loss(change: Num): Num {
    if Less(change, Fin(0.0)) then Scale(-1.0, change) else Fin(0.0)
  }

  function RsiOf(gain: Num, loss: Num): Num {
    if gain.NaN? || loss.NaN? then NaN
    else if loss.v == 0.0 then Fin(100.0)
    else Sub(Fin(100.0), Div(Fin(100.0), Fin(1.0 + gain.v / loss.v)))
  }

  function Rsi(values: seq<Num>, period: nat): (r: seq<Num>)
    requires period > 0
    ensures |r| == |values|
  {
    var change := Zip(Sub, values, Shift(values, 1, NaN));
    Zip(RsiOf, Rma(FirstUndefined(Each(Gain, change)), period), Rma(FirstUndefined(Each(Loss, change)), period))
  }

  function NormalizedRsi(values: seq<Num>, n1: nat, n2: nat): (r: seq<Num>)
    requires n1 > 0
    ensures |r| == |values|
  {
    Scaled(0.01, Ema(Rsi(values, n1), n2))
  }

  function Cci(values: seq<Num>, period: nat): (r: seq<Num>)
    ensures |r| == |values|
  {
    Zip(Div, Zip(Sub, values, Rolling(Mean, values, period)), Scaled(0.015, Rolling(MeanDeviation, values, period)))
  }

  function NormalizedCci(values: seq<Num>, n1: nat, n2: nat): (r: seq<Num>)
    ensures |r| == |values|
  {
    Normalize(Ema(Cci(values, n1), n2), 0.0, 1.0)
  }

  function WaveTrend(values: seq<Num>, n1: nat, n2: nat): (r: seq<Num>)
    ensures |r| == |values|
  {
    var gap := Zip(Sub, values, Ema(values, n1));
    Ema(Zip(Div, gap, Scaled(0.015, Ema(Each(AbsN, gap), n1))), n2)
  }

  function NormalizedWt(values: seq<Num>, n1: nat, n2: nat): (r: seq<Num>)
    ensures |r| == |values|
  {
    var wt1 := WaveTrend(values, n1, n2);
    Normalize(Zip(Sub, wt1, Rolling(Mean, wt1, 4)), 0.0, 1.0)
  }

  function Features(h: seq<Bar>): (r: seq<seq<Num>>)
    ensures |r| == 5 && forall f :: 0 <= f < 5 ==> |r[f]| == |h|
  {
    var close := Closes(h);
    [NormalizedRsi(close, 14, 1), NormalizedWt(Hlc3(h), 10, 11), NormalizedCci(close, 20, 1),
     Scaled(0.01, DirectionalAdx(h, 20)), NormalizedRsi(close, 9, 1)]
  }

  function TrueRanges(h: seq<Bar>): seq<Num> {
    seq(|h|, i requires 0 <= i < |h| =>
      Fin(if i == 0 then h[i].high - h[i].low else TrueRange(h[i], h[i - 1].close)))
  }

  function AllTrue(n: nat): seq<bool> {
    seq(n, _ => true)
  }

  function AboveOrAt(a: seq<Num>, threshold: real): seq<bool> {
    seq(|a|, i requires 0 <= i < |a| => AtLeast(a[i], Fin(threshold)))
  }

  function Above(a: seq<Num>, threshold: real): seq<bool> {
    seq(|a|, i requires 0 <= i < |a| => Greater(a[i], Fin(threshold)))
  }

  function VolatilityFilter(e: Engine, h: seq<Bar>): (r: seq<bool>)
    ensures |r| == |h|
  {
    if e.useVolatilityFilter then Zip(Greater, Rma(TrueRanges(h), 1), Rma(TrueRanges(h), 10)) else AllTrue(|h|)
  }

  function RegimeFilter(m: Maths, e: Engine, h: seq<Bar>): (r: seq<bool>)
    ensures |r| == |h|
  {
    if e.useRegimeFilter then AboveOrAt(RegimeNormalized(m, h), e.regimeThreshold) else AllTrue(|h|)
  }

  function AdxFilter(e: Engine, h: seq<Bar>): (r: seq<bool>)
    ensures |r| == |h|
  {
    if e.useAdxFilter then Above(DirectionalAdx(h, 14), e.adxThreshold) else AllTrue(|h|)
  }

  function Filters(m: Maths, e: Engine, h: seq<Bar>): (r: seq<bool>)
    ensures |r| == |h|
  {
    Zip(Both, Zip(Both, VolatilityFilter(e, h), RegimeFilter(m, e, h)), AdxFilter(e, h))
  }

  /** The vote of a bar: which way the source moved over the four bars before it. */
  function LabelAt(source: seq<real>, i: nat): int
    requires i < |source|
  {
    if i < 4 then 0
    else if source[i - 4] < source[i] then -1
    else if source[i - 4] > source[i] then 1
    else 0
  }

  function Labels(source: seq<real>): seq<int> {
    seq(|source|, i requires 0 <= i < |source| => LabelAt(source, i))
  }

  method ComputeLabels(source: seq<real>) returns (labels: array<int>)
    ensures labels[..] == Labels(source)
  {
    labels := new int[|source|](_ => 0);
    var i := 4;
    while i < |source|
      invariant 4 <= i
      invariant forall k :: 0 <= k < i && k < |source| ==> labels[k] == LabelAt(source, k)
      invariant forall k :: i <= k < |source| ==> labels[k] == 0
    {
      labels[i] := if source[i - 4] < source[i] then -1 else if source[i - 4] > source[i] then 1 else 0;
      i := i + 1;
    }
  }

  datatype Kernel = Kernel(bullish: seq<bool>, bearish: seq<bool>, alertBullish: seq<bool>,
                           alertBearish: seq<bool>, bearishChange: seq<bool>, bullishChange: seq<bool>)

  function Square(i: int): real {
    (i * i) as real
  }

  function RationalWeight(m: Maths, e: Engine): nat -> real {
    (i: nat) => m.pow(1.0 + Square(i) / (Square(e.h) * 2.0 * e.r), -e.r)
  }

  function GaussianWeight(m: Maths, e: Engine): nat -> real {
    (i: nat) => m.exp(-Square(i) / (2.0 * Square(e.h - e.lag)))
  }

  function Crossing(now: (Num, Num) -> bool, before: (Num, Num) -> bool, left: seq<Num>, right: seq<Num>): seq<bool>
    requires |left| == |right|
  {
    Zip(Both, Zip(now, left, right), Zip(before, Shift(left, 1, NaN), Shift(right, 1, NaN)))
  }

  /** Two bars of the estimate moved one way, and the bar before moved the other way. */
  function Turn(now: (Num, Num) -> bool, before: (Num, Num) -> bool, yhat: seq<Num>): seq<bool> {
    Zip(Both, Zip(now, Shift(yhat, 1, NaN), yhat), Zip(before, Shift(yhat, 2, NaN), Shift(yhat, 1, NaN)))
  }

  function KernelColumns(e: Engine, yhat1: seq<Num>, yhat2: seq<Num>): Kernel
    requires |yhat1| == |yhat2|
  {
    var bearishRate := Zip(Greater, Shift(yhat1, 1, NaN), yhat1);
    var bullishRate := Zip(Less, Shift(yhat1, 1, NaN), yhat1);
    var bearishChange := Turn(Greater, Less, yhat1);
    var bullishChange := Turn(Less, Greater, yhat1);
    if e.useKernelSmoothing then
      Kernel(Zip(AtLeast, yhat2, yhat1), Zip(AtMost, yhat2, yhat1),
             Crossing(Greater, AtMost, yhat2, yhat1), Crossing(Less, AtLeast, yhat2, yhat1),
             bearishChange, bullishChange)
    else
      Kernel(bullishRate, bearishRate, bullishChange, bearishChange, bearishChange, bullishChange)
  }

  function KernelRegression(m: Maths, e: Engine, h: seq<Bar>): Kernel {
    KernelColumns(e, KernelEstimate(Source(h), e.x, RationalWeight(m, e)),
                  KernelEstimate(Source(h), e.x, GaussianWeight(m, e)))
  }

  /** Everything the classifier reads, one entry per bar. */
  datatype Columns = Columns(features: seq<seq<Num>>, labels: seq<int>, filters: seq<bool>, kernel: Kernel,
                             emaUp: seq<bool>, emaDown: seq<bool>, smaUp: seq<bool>, smaDown: seq<bool>)
  {
    predicate Valid() {
      var n := |labels|;
      && (forall f :: 0 <= f < |features| ==> |features[f]| == n)
      && |filters| == |emaUp| == |emaDown| == |smaUp| == |smaDown| == n
      && |kernel.bullish| == |kernel.bearish| == |kernel.alertBullish| == |kernel.alertBearish| == n
      && |kernel.bearishChange| == |kernel.bullishChange| == n
    }
  }

  function Trend(enabled: bool, compare: (Num, Num) -> bool, close: seq<Num>, average: seq<Num>): seq<bool>
    requires |close| == |average|
  {
    if enabled then Zip(compare, close, average) else AllTrue(|close|)
  }

  function ColumnsOf(m: Maths, e: Engine, h: seq<Bar>): (c: Columns)
    ensures c.Valid() && |c.labels| == |h| && |c.features| == 5
  {
    var close := Closes(h);
    var ema := Ema(close, e.emaPeriod);
    var sma := Rolling(Mean, close, e.smaPeriod);
    Columns(Features(h), Labels(Source(h)), Filters(m, e, h), KernelRegression(m, e, h),
            Trend(e.useEmaFilter, Greater, close, ema), Trend(e.useEmaFilter, Less, close, ema),
            Trend(e.useSmaFilter, Greater, close, sma), Trend(e.useSmaFilter, Less, close, sma))
  }

  // ---------- prefix stability of the columns ----------

  function CutKernel(k: Kernel, n: nat): Kernel
    requires n <= |k.bullish| == |k.bearish| == |k.alertBullish| == |k.alertBearish|
    requires |k.bullish| == |k.bearishChange| == |k.bullishChange|
  {
    Kernel(k.bullish[..n], k.bearish[..n], k.alertBullish[..n], k.alertBearish[..n], k.bearishChange[..n],
           k.bullishChange[..n])
  }

  function CutAll(features: seq<seq<Num>>, n: nat): seq<seq<Num>>
    requires forall f :: 0 <= f < |features| ==> n <= |features[f]|
  {
    seq(|features|, f requires 0 <= f < |features| => features[f][..n])
  }

  /** The first `n` entries of every column. */
  function Cut(c: Columns, n: nat): (d: Columns)
    requires c.Valid() && n <= |c.labels|
    ensures d.Valid() && |d.labels| == n
  {
    Columns(CutAll(c.features, n), c.labels[..n], c.filters[..n], CutKernel(c.kernel, n),
            c.emaUp[..n], c.emaDown[..n], c.smaUp[..n], c.smaDown[..n])
  }

  lemma RsiPrefix(values: seq<Num>, period: nat, n: nat)
    requires period > 0 && n <= |values|
    ensures Rsi(values[..n], period) == Rsi(values, period)[..n]
  {
    hide RsiOf, Gain, Loss, Sub, Wilder;
    var change := Zip(Sub, values, Shift(values, 1, NaN));
    var gains, losses := FirstUndefined(Each(Gain, change)), FirstUndefined(Each(Loss, change));
    ShiftPrefix(values, 1, NaN, n);
    ZipPrefix(Sub, values, Shift(values, 1, NaN), n);
    EachPrefix(Gain, change, n);
    EachPrefix(Loss, change, n);
    assert FirstUndefined(Each(Gain, change)[..n]) == gains[..n];
    assert FirstUndefined(Each(Loss, change)[..n]) == losses[..n];
    RmaPrefix(gains, period, n);
    RmaPrefix(losses, period, n);
    ZipPrefix(RsiOf, Rma(gains, period), Rma(losses, period), n);
  }

  lemma ScaledPrefix(k: real, a: seq<Num>, n: nat)
    requires n <= |a|
    ensures Scaled(k, a[..n]) == Scaled(k, a)[..n]
  {
  }

  lemma NormalizedRsiPrefix(values: seq<Num>, n1: nat, n2: nat, n: nat)
    requires n1 > 0 && n <= |values|
    ensures NormalizedRsi(values[..n], n1, n2) == NormalizedRsi(values, n1, n2)[..n]
  {
    hide Scale, Rsi, EmaNext;
    RsiPrefix(values, n1, n);
    EmaPrefix(Rsi(values, n1), n2, n);
    ScaledPrefix(0.01, Ema(Rsi(values, n1), n2), n);
  }

  lemma CciPrefix(values: seq<Num>, period: nat, n: nat)
    requires n <= |values|
    ensures Cci(values[..n], period) == Cci(values, period)[..n]
  {
    hide Sub, Div, Scale, Mean, MeanDeviation;
    var mean, deviation := Rolling(Mean, values, period), Rolling(MeanDeviation, values, period);
    RollingPrefix(Mean, values, period, n);
    RollingPrefix(MeanDeviation, values, period, n);
    ZipPrefix(Sub, values, mean, n);
    ScaledPrefix(0.015, deviation, n);
    ZipPrefix(Div, Zip(Sub, values, mean), Scaled(0.015, deviation), n);
  }

  lemma NormalizedCciPrefix(values: seq<Num>, n1: nat, n2: nat, n: nat)
    requires n <= |values|
    ensures NormalizedCci(values[..n], n1, n2) == NormalizedCci(values, n1, n2)[..n]
  {
    hide Cci, EmaNext, Rescale;
    CciPrefix(values, n1, n);
    EmaPrefix(Cci(values, n1), n2, n);
    NormalizePrefix(Ema(Cci(values, n1), n2), 0.0, 1.0, n);
  }

  lemma WaveTrendPrefix(values: seq<Num>, n1: nat, n2: nat, n: nat)
    requires n <= |values|
    ensures WaveTrend(values[..n], n1, n2) == WaveTrend(values, n1, n2)[..n]
  {
    hide Sub, Div, Scale, AbsN, EmaNext;
    var gap := Zip(Sub, values, Ema(values, n1));
    var spread := Ema(Each(AbsN, gap), n1);
    EmaPrefix(values, n1, n);
    ZipPrefix(Sub, values, Ema(values, n1), n);
    EachPrefix(AbsN, gap, n);
    EmaPrefix(Each(AbsN, gap), n1, n);
    ScaledPrefix(0.015, spread, n);
    ZipPrefix(Div, gap, Scaled(0.015, spread), n);
    EmaPrefix(Zip(Div, gap, Scaled(0.015, spread)), n2, n);
  }

  lemma NormalizedWtPrefix(values: seq<Num>, n1: nat, n2: nat, n: nat)
    requires n <= |values|
    ensures NormalizedWt(values[..n], n1, n2) == NormalizedWt(values, n1, n2)[..n]
  {
    hide WaveTrend, Sub, Mean, Rescale;
    var wt1 := WaveTrend(values, n1, n2);
    WaveTrendPrefix(values, n1, n2, n);
    RollingPrefix(Mean, wt1, 4, n);
    ZipPrefix(Sub, wt1, Rolling(Mean, wt1, 4), n);
    NormalizePrefix(Zip(Sub, wt1, Rolling(Mean, wt1, 4)), 0.0, 1.0, n);
  }

  lemma FeaturesPrefix(h: seq<Bar>, n: nat)
    requires n <= |h|
    ensures Features(h[..n]) == CutAll(Features(h), n)
  {
    hide Rsi, NormalizedRsi, NormalizedCci, NormalizedWt, DirectionalAdx, Scale;
    var close, hlc3 := Closes(h), Hlc3(h);
    assert Closes(h[..n]) == close[..n] && Hlc3(h[..n]) == hlc3[..n];
    NormalizedRsiPrefix(close, 14, 1, n);
    NormalizedRsiPrefix(close, 9, 1, n);
    NormalizedWtPrefix(hlc3, 10, 11, n);
    NormalizedCciPrefix(close, 20, 1, n);
    DirectionalAdxPrefix(h, 20, n);
    ScaledPrefix(0.01, DirectionalAdx(h, 20), n);
  }

  lemma VolatilityPrefix(e: Engine, h: seq<Bar>, n: nat)
    requires n <= |h|
    ensures VolatilityFilter(e, h[..n]) == VolatilityFilter(e, h)[..n]
  {
    hide TrueRange, RmaNext;
    assert TrueRanges(h[..n]) == TrueRanges(h)[..n];
    RmaPrefix(TrueRanges(h), 1, n);
    RmaPrefix(TrueRanges(h), 10, n);
    ZipPrefix(Greater, Rma(TrueRanges(h), 1), Rma(TrueRanges(h), 10), n);
  }

  lemma FiltersPrefix(m: Maths, e: Engine, h: seq<Bar>, n: nat)
    requires n <= |h|
    ensures Filters(m, e, h[..n]) == Filters(m, e, h)[..n]
  {
    hide VolatilityFilter, DirectionalAdx, RegimeNormalized;
    var volatility, regime, adx := VolatilityFilter(e, h), RegimeFilter(m, e, h), AdxFilter(e, h);
    VolatilityPrefix(e, h, n);
    RegimeNormalizedPrefix(m, h, n);
    DirectionalAdxPrefix(h, 14, n);
    assert RegimeFilter(m, e, h[..n]) == regime[..n];
    assert AdxFilter(e, h[..n]) == adx[..n];
    ZipPrefix(Both, volatility, regime, n);
    ZipPrefix(Both, Zip(Both, volatility, regime), adx, n);
  }

  lemma CrossingPrefix(now: (Num, Num) -> bool, before: (Num, Num) -> bool, left: seq<Num>, right: seq<Num>, n: nat)
    requires n <= |left| == |right|
    ensures Crossing(now, before, left[..n], right[..n]) == Crossing(now, before, left, right)[..n]
  {
    ShiftPrefix(left, 1, NaN, n);
    ShiftPrefix(right, 1, NaN, n);
  }

  lemma TurnPrefix(now: (Num, Num) -> bool, before: (Num, Num) -> bool, yhat: seq<Num>, n: nat)
    requires n <= |yhat|
    ensures Turn(now, before, yhat[..n]) == Turn(now, before, yhat)[..n]
  {
    ShiftPrefix(yhat, 1, NaN, n);
    ShiftPrefix(yhat, 2, NaN, n);
  }

  lemma KernelColumnsPrefix(e: Engine, yhat1: seq<Num>, yhat2: seq<Num>, n: nat)
    requires n <= |yhat1| == |yhat2|
    ensures KernelColumns(e, yhat1[..n], yhat2[..n]) == CutKernel(KernelColumns(e, yhat1, yhat2), n)
  {
    hide Crossing, Turn;
    ShiftPrefix(yhat1, 1, NaN, n);
    TurnPrefix(Greater, Less, yhat1, n);
    TurnPrefix(Less, Greater, yhat1, n);
    CrossingPrefix(Greater, AtMost, yhat2, yhat1, n);
    CrossingPrefix(Less, AtLeast, yhat2, yhat1, n);
  }

  /** Every column the classifier reads is prefix-stable. */
  lemma ColumnsPrefix(m: Maths, e: Engine, h: seq<Bar>, n: nat)
    requires n <= |h|
    ensures ColumnsOf(m, e, h[..n]) == Cut(ColumnsOf(m, e, h), n)
  {
    hide Features, Filters, Ema, Rolling, KernelEstimate, KernelColumns;
    var c, d := ColumnsOf(m, e, h), ColumnsOf(m, e, h[..n]);
    var close := Closes(h);
    assert Closes(h[..n]) == close[..n];
    assert Source(h[..n]) == Source(h)[..n];
    FeaturesPrefix(h, n);
    FiltersPrefix(m, e, h, n);
    assert d.features == CutAll(c.features, n);
    assert d.labels == c.labels[..n];
    KernelPrefix(Source(h), e.x, RationalWeight(m, e), n);
    KernelPrefix(Source(h), e.x, GaussianWeight(m, e), n);
    KernelColumnsPrefix(e, KernelEstimate(Source(h), e.x, RationalWeight(m, e)),
                        KernelEstimate(Source(h), e.x, GaussianWeight(m, e)), n);
    EmaPrefix(close, e.emaPeriod, n);
    RollingPrefix(Mean, close, e.smaPeriod, n);
  }

  // ---------- the first feature warms up over fourteen bars ----------

  /** The relative strength index compares a bar with the one before, so its averages start one bar late. */
  lemma RsiMissing(values: seq<Num>, period: nat, i: nat)
    requires i < period && i < |values|
    ensures Rsi(values, period)[i] == NaN
  {
    hide Rma, Gain, Loss, Sub;
    var change := Zip(Sub, values, Shift(values, 1, NaN));
    var gains, losses := FirstUndefined(Each(Gain, change)), FirstUndefined(Each(Loss, change));
    RmaMissing(gains, period, i);
    RmaMissing(losses, period, i);
    assert Rsi(values, period)[i] == RsiOf(Rma(gains, period)[i], Rma(losses, period)[i]);
  }

  lemma FirstFeatureMissing(h: seq<Bar>, i: nat)
    requires i < 14 && i < |h|
    ensures Features(h)[0][i] == NaN
  {
    hide Rsi, NormalizedWt, NormalizedCci, DirectionalAdx;
    RsiMissing(Closes(h), 14, i);
    EmaEntry(Rsi(Closes(h), 14), 1, i);
  }
}
