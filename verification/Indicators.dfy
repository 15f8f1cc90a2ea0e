/** The causal indicator columns of `alpha_engine.py`. Each column is a function of its input columns;
    the columns the source fills in a loop also have that loop, proved to compute the function.
    The law of the module is prefix stability: a column computed on a prefix of the history is that
    prefix of the column computed on the whole history. */
module Indicators {
  import opened Numeric

  datatype Bar = Bar(open: real, high: real, low: real, close: real)

  // ---------- pointwise columns, shifts and windows ----------

  function Each<A, B>(f: A -> B, a: seq<A>): seq<B> {
    seq(|a|, i requires 0 <= i < |a| => f(a[i]))
  }

  function Zip<A, B, C>(f: (A, B) -> C, a: seq<A>, b: seq<B>): seq<C>
    requires |a| == |b|
  {
    seq(|a|, i requires 0 <= i < |a| => f(a[i], b[i]))
  }

  lemma EachPrefix<A, B>(f: A -> B, a: seq<A>, n: nat)
    requires n <= |a|
    ensures Each(f, a[..n]) == Each(f, a)[..n]
  {
  }

  lemma ZipPrefix<A, B, C>(f: (A, B) -> C, a: seq<A>, b: seq<B>, n: nat)
    requires n <= |a| == |b|
    ensures Zip(f, a[..n], b[..n]) == Zip(f, a, b)[..n]
  {
  }

  /** Multiplies a column by a constant. */
  function Scaled(k: real, a: seq<Num>): seq<Num> {
    seq(|a|, i requires 0 <= i < |a| => Scale(k, a[i]))
  }

  /** The column `periods` bars earlier; the first entries are `fill`. */
  function Shift<A>(a: seq<A>, periods: nat, fill: A): seq<A> {
    seq(|a|, i requires 0 <= i < |a| => if i < periods then fill else a[i - periods])
  }

  lemma ShiftPrefix<A>(a: seq<A>, periods: nat, fill: A, n: nat)
    requires n <= |a|
    ensures Shift(a[..n], periods, fill) == Shift(a, periods, fill)[..n]
  {
  }

  predicate AllFinite(w: seq<Num>) {
    forall k :: 0 <= k < |w| ==> w[k].Fin?
  }

  function Values(w: seq<Num>): seq<real>
    requires AllFinite(w)
  {
    seq(|w|, k requires 0 <= k < |w| => w[k].v)
  }

  function Sum(w: seq<real>): real {
    if w == [] then 0.0 else Sum(w[..|w| - 1]) + w[|w| - 1]
  }

  function Mean(w: seq<real>): real {
    if w == [] then 0.0 else Sum(w) / (|w| as real)
  }

  function MeanDeviation(w: seq<real>): real {
    var m := Mean(w);
    Mean(seq(|w|, k requires 0 <= k < |w| => Abs(w[k] - m)))
  }

  /** The `period` entries ending at `i`. */
  function Window(a: seq<Num>, period: nat, i: nat): seq<Num>
    requires i < |a| && period <= i + 1
  {
    seq(period, k requires 0 <= k < period => a[i + 1 - period + k])
  }

  lemma WindowPrefix(a: seq<Num>, period: nat, i: nat, n: nat)
    requires i < n <= |a| && period <= i + 1
    ensures Window(a[..n], period, i) == Window(a, period, i)
  {
  }

  /** A rolling statistic over the last `period` entries, defined once all of them are finite. */
  function Rolling(f: seq<real> -> real, a: seq<Num>, period: nat): (r: seq<Num>)
    ensures |r| == |a|
  {
    seq(|a|, i requires 0 <= i < |a| =>
      if i + 1 < period || !AllFinite(Window(a, period, i)) then NaN
      else Fin(f(Values(Window(a, period, i)))))
  }

  lemma RollingPrefix(f: seq<real> -> real, a: seq<Num>, period: nat, n: nat)
    requires n <= |a|
    ensures Rolling(f, a[..n], period) == Rolling(f, a, period)[..n]
  {
    forall i | 0 <= i < n
      ensures Rolling(f, a[..n], period)[i] == Rolling(f, a, period)[i]
    {
      if i + 1 >= period {
        WindowPrefix(a, period, i, n);
      }
    }
  }

  // ---------- exponential and Wilder averages ----------

  function EmaNext(alpha: real, previous: Num, value: Num): Num {
    if value.NaN? then NaN
    else if previous.NaN? then value
    else Fin(alpha * value.v + (1.0 - alpha) * previous.v)
  }

  function Alpha(period: nat): real {
    2.0 / (period as real + 1.0)
  }

  function Last(a: seq<Num>): Num {
    if a == [] then NaN else a[|a| - 1]
  }

  function Ema(values: seq<Num>, period: nat): (r: seq<Num>)
    ensures |r| == |values|
  {
    if values == [] then []
    else
      var n := |values| - 1;
      var before := Ema(values[..n], period);
      before + [EmaNext(Alpha(period), Last(before), values[n])]
  }

  lemma {:induction false} EmaPrefix(values: seq<Num>, period: nat, n: nat)
    requires n <= |values|
    ensures Ema(values[..n], period) == Ema(values, period)[..n]
  {
    if n < |values| {
      EmaPrefix(values[..|values| - 1], period, n);
      assert values[..|values| - 1][..n] == values[..n];
    } else {
      assert values[..n] == values;
    }
  }

  /** Entry `i` from entry `i - 1`: the recurrence the loop runs. */
  lemma EmaEntry(values: seq<Num>, period: nat, i: nat)
    requires i < |values|
    ensures Ema(values, period)[i]
         == EmaNext(Alpha(period), if i == 0 then NaN else Ema(values, period)[i - 1], values[i])
  {
    EmaPrefix(values, period, i);
    EmaPrefix(values, period, i + 1);
    assert values[..i + 1][..i] == values[..i];
    assert Ema(values, period)[i] == Ema(values[..i + 1], period)[i];
  }

  method ComputeEma(values: seq<Num>, period: nat) returns (result: array<Num>)
    ensures result[..] == Ema(values, period)
  {
    hide Ema, Alpha;
    result := new Num[|values|](_ => NaN);
    var alpha := Alpha(period);
    for index := 0 to |values|
      invariant forall k :: 0 <= k < index ==> result[k] == Ema(values, period)[k]
      invariant forall k :: index <= k < |values| ==> result[k] == NaN
    {
      EmaEntry(values, period, index);
      var value := values[index];
      if value.Fin? {
        var previous := if index > 0 then result[index - 1] else NaN;
        result[index] := if previous.NaN? then value else Fin(alpha * value.v + (1.0 - alpha) * previous.v);
      }
    }
  }

  function Wilder(previous: real, value: real, period: nat): real
    requires period > 0
  {
    (previous * (period as real - 1.0) + value) / (period as real)
  }

  /** The next Wilder average: the mean of the first full window, then the recursive form. */
  function RmaNext(period: nat, previous: Num, window: seq<Num>): Num
    requires |window| == period > 0
  {
    if !AllFinite(window) then NaN
    else if previous.NaN? then Fin(Mean(Values(window)))
    else Fin(Wilder(previous.v, window[period - 1].v, period))
  }

  function Rma(values: seq<Num>, period: nat): (r: seq<Num>)
    requires period > 0
    ensures |r| == |values|
  {
    if values == [] then []
    else
      var n := |values| - 1;
      var before := Rma(values[..n], period);
      before + [if n + 1 < period then NaN
                else RmaNext(period, Last(before), Window(values, period, n))]
  }

  lemma {:induction false} RmaPrefix(values: seq<Num>, period: nat, n: nat)
    requires period > 0 && n <= |values|
    ensures Rma(values[..n], period) == Rma(values, period)[..n]
  {
    if n < |values| {
      RmaPrefix(values[..|values| - 1], period, n);
      assert values[..|values| - 1][..n] == values[..n];
    } else {
      assert values[..n] == values;
    }
  }

  lemma RmaEntry(values: seq<Num>, period: nat, i: nat)
    requires period > 0 && i < |values|
    ensures i + 1 < period ==> Rma(values, period)[i] == NaN
    ensures i + 1 >= period ==>
              Rma(values, period)[i] == RmaNext(period, if i == 0 then NaN
                                                else Rma(values, period)[i - 1], Window(values, period, i))
  {
    hide Wilder, Mean, RmaNext, AllFinite, Values;
    RmaPrefix(values, period, i);
    RmaPrefix(values, period, i + 1);
    assert values[..i + 1][..i] == values[..i];
    assert Rma(values, period)[i] == Rma(values[..i + 1], period)[i];
    if i + 1 >= period {
      WindowPrefix(values, period, i, i + 1);
    }
  }

  lemma RmaMissing(values: seq<Num>, period: nat, i: nat)
    requires i < period && i < |values| && values[0].NaN?
    ensures Rma(values, period)[i] == NaN
  {
    RmaEntry(values, period, i);
    if i + 1 == period {
      assert Window(values, period, i)[0] == values[0];
    }
  }

  method ComputeRma(values: seq<Num>, period: nat) returns (result: array<Num>)
    requires period > 0
    ensures result[..] == Rma(values, period)
  {
    hide Wilder, Mean, Values;
    result := new Num[|values|](_ => NaN);
    forall k | 0 <= k < |values| && k + 1 < period
      ensures Rma(values, period)[k] == NaN
    {
      RmaEntry(values, period, k);
    }
    var index := period - 1;
    while index < |values|
      invariant period - 1 <= index
      invariant forall k :: 0 <= k < index && k < |values| ==> result[k] == Rma(values, period)[k]
      invariant forall k :: index <= k < |values| ==> result[k] == NaN
    {
      RmaEntry(values, period, index);
      var window := Window(values, period, index);
      if AllFinite(window) {
        var previous := if index > 0 then result[index - 1] else NaN;
        result[index] := if previous.NaN? then Fin(Mean(Values(window)))
                         else Fin(Wilder(previous.v, values[index].v, period));
      }
      index := index + 1;
    }
  }

  // ---------- running normalisation ----------

  function HistoricMin(values: seq<Num>): real {
    if values == [] then 100000000000.0
    else
      var before := HistoricMin(values[..|values| - 1]);
      var value := values[|values| - 1];
      if value.Fin? then Min(value.v, before) else before
  }

  function HistoricMax(values: seq<Num>): real {
    if values == [] then -100000000000.0
    else
      var before := HistoricMax(values[..|values| - 1]);
      var value := values[|values| - 1];
      if value.Fin? then Max(value.v, before) else before
  }

  function Rescale(value: Num, low: real, high: real, minimum: real, maximum: real): Num {
    if value.NaN? then NaN
    else Fin(minimum + (maximum - minimum) * (value.v - low) / Max(high - low, 0.000000001))
  }

  function Normalize(values: seq<Num>, minimum: real, maximum: real): (r: seq<Num>)
    ensures |r| == |values|
  {
    if values == [] then []
    else
      var n := |values| - 1;
      Normalize(values[..n], minimum, maximum)
      + [Rescale(values[n], HistoricMin(values), HistoricMax(values), minimum, maximum)]
  }

  lemma {:induction false} NormalizePrefix(values: seq<Num>, minimum: real, maximum: real, n: nat)
    requires n <= |values|
    ensures Normalize(values[..n], minimum, maximum) == Normalize(values, minimum, maximum)[..n]
  {
    if n < |values| {
      NormalizePrefix(values[..|values| - 1], minimum, maximum, n);
      assert values[..|values| - 1][..n] == values[..n];
    } else {
      assert values[..n] == values;
    }
  }

  lemma NormalizeEntry(values: seq<Num>, minimum: real, maximum: real, i: nat)
    requires i < |values|
    ensures Normalize(values, minimum, maximum)[i]
         == Rescale(values[i], HistoricMin(values[..i + 1]), HistoricMax(values[..i + 1]), minimum, maximum)
  {
    NormalizePrefix(values, minimum, maximum, i + 1);
    assert Normalize(values, minimum, maximum)[i] == Normalize(values[..i + 1], minimum, maximum)[i];
  }

  lemma RescaleMissing(low: real, high: real, minimum: real, maximum: real)
    ensures Rescale(NaN, low, high, minimum, maximum) == NaN
  {
  }

  method ComputeNormalize(values: seq<Num>, minimum: real, maximum: real) returns (result: array<Num>)
    ensures result[..] == Normalize(values, minimum, maximum)
  {
    hide Rescale, Normalize;
    result := new Num[|values|](_ => NaN);
    var historicMin, historicMax := 100000000000.0, -100000000000.0;
    for index := 0 to |values|
      invariant historicMin == HistoricMin(values[..index]) && historicMax == HistoricMax(values[..index])
      invariant forall k :: 0 <= k < index ==> result[k] == Normalize(values, minimum, maximum)[k]
      invariant forall k :: index <= k < |values| ==> result[k] == NaN
    {
      assert values[..index + 1][..index] == values[..index];
      NormalizeEntry(values, minimum, maximum, index);
      var value := values[index];
      if value.Fin? {
        historicMin := Min(value.v, historicMin);
        historicMax := Max(value.v, historicMax);
        result[index] := Rescale(value, historicMin, historicMax, minimum, maximum);
      } else {
        RescaleMissing(historicMin, historicMax, minimum, maximum);
      }
    }
    assert values[..|values|] == values;
  }

  // ---------- bars since a condition ----------

  /** How many bars ago `flags` last held, seen from its last bar. */
  function SinceLast(flags: seq<bool>): Option<nat> {
    if flags == [] then None
    else if flags[|flags| - 1] then Some(0)
    else
      match SinceLast(flags[..|flags| - 1])
      case None => None
      case Some(k) => Some(k + 1)
  }

  /** What `SinceLast` means, without its recursion. */
  lemma {:induction false} SinceLastMeaning(flags: seq<bool>)
    ensures SinceLast(flags).None? <==> (forall i :: 0 <= i < |flags| ==> !flags[i])
    ensures SinceLast(flags).Some? ==>
              var last := |flags| - 1 - SinceLast(flags).value;
              && 0 <= last < |flags| && flags[last]
              && (forall i :: last < i < |flags| ==> !flags[i])
  {
    if flags != [] && !flags[|flags| - 1] {
      SinceLastMeaning(flags[..|flags| - 1]);
      assert forall i :: 0 <= i < |flags| - 1 ==> flags[..|flags| - 1][i] == flags[i];
    }
  }

  /** The column of `SinceLast` at every bar. */
  function BarsSince(flags: seq<bool>): seq<Option<nat>> {
    seq(|flags|, i requires 0 <= i < |flags| => SinceLast(flags[..i + 1]))
  }

  method ComputeBarsSince(condition: seq<bool>) returns (result: array<Option<nat>>)
    ensures result[..] == BarsSince(condition)
  {
    result := new Option<nat>[|condition|](_ => None);
    var lastTrue: Option<nat> := None;
    for index := 0 to |condition|
      invariant lastTrue.Some? ==> lastTrue.value < index
      invariant SinceLast(condition[..index]) ==
                match lastTrue { case None => None case Some(t) => Some(index - 1 - t) }
      invariant forall k :: 0 <= k < index ==> result[k] == SinceLast(condition[..k + 1])
      invariant forall k :: index <= k < |condition| ==> result[k] == None
    {
      assert condition[..index + 1][..index] == condition[..index];
      if condition[index] {
        lastTrue := Some(index);
      }
      if lastTrue.Some? {
        result[index] := Some(index - lastTrue.value);
      }
    }
  }

  lemma BarsSincePrefix(flags: seq<bool>, n: nat)
    requires n <= |flags|
    ensures BarsSince(flags[..n]) == BarsSince(flags)[..n]
  {
    forall i | 0 <= i < n
      ensures BarsSince(flags[..n])[i] == BarsSince(flags)[i]
    {
      assert flags[..n][..i + 1] == flags[..i + 1];
    }
  }

  // ---------- directional movement ----------

  datatype Smooth = Smooth(tr: real, plus: real, minus: real)

  function TrueRange(bar: Bar, previousClose: real): real {
    Max(bar.high - bar.low, Max(Abs(bar.high - previousClose), Abs(bar.low - previousClose)))
  }

  function SmoothNext(s: Smooth, bar: Bar, previous: Bar, period: nat): Smooth
    requires period > 0
  {
    var up := bar.high - previous.high;
    var down := previous.low - bar.low;
    var plus := if up > down then Max(up, 0.0) else 0.0;
    var minus := if down > up then Max(down, 0.0) else 0.0;
    var p := period as real;
    Smooth(s.tr - s.tr / p + TrueRange(bar, previous.close), s.plus - s.plus / p + plus, s.minus - s.minus / p + minus)
  }

  /** The directional index of one bar; undefined when the range is zero or neither side moved. */
  function DxOf(s: Smooth): Num {
    var positive := Scale(100.0, Div(Fin(s.plus), Fin(s.tr)));
    var negative := Scale(100.0, Div(Fin(s.minus), Fin(s.tr)));
    if positive.NaN? || negative.NaN? || positive.v + negative.v == 0.0 then NaN
    else Fin(Abs(positive.v - negative.v) / (positive.v + negative.v) * 100.0)
  }

  const ZERO_BAR := Bar(0.0, 0.0, 0.0, 0.0)

  function PreviousBar(bars: seq<Bar>): Bar {
    if |bars| < 2 then ZERO_BAR else bars[|bars| - 2]
  }

  function SmoothAfter(bars: seq<Bar>, period: nat): Smooth
    requires period > 0
  {
    if bars == [] then Smooth(0.0, 0.0, 0.0)
    else SmoothNext(SmoothAfter(bars[..|bars| - 1], period), bars[|bars| - 1], PreviousBar(bars), period)
  }

  function Dx(bars: seq<Bar>, period: nat): seq<Num>
    requires period > 0
  {
    seq(|bars|, i requires 0 <= i < |bars| => DxOf(SmoothAfter(bars[..i + 1], period)))
  }

  function DirectionalAdx(bars: seq<Bar>, period: nat): (r: seq<Num>)
    requires period > 0
    ensures |r| == |bars|
  {
    Rma(Dx(bars, period), period)
  }

  lemma SmoothEntry(bars: seq<Bar>, period: nat, i: nat)
    requires period > 0 && i < |bars|
    ensures SmoothAfter(bars[..i + 1], period)
         == SmoothNext(SmoothAfter(bars[..i], period), bars[i], if i == 0 then ZERO_BAR else bars[i - 1], period)
  {
    assert bars[..i + 1][..i] == bars[..i];
  }

  method ComputeDirectionalAdx(bars: seq<Bar>, period: nat) returns (result: array<Num>)
    requires period > 0
    ensures result[..] == DirectionalAdx(bars, period)
  {
    hide SmoothNext, DxOf;
    var smooth := new Smooth[|bars|](_ => Smooth(0.0, 0.0, 0.0));
    var dx := new Num[|bars|](_ => NaN);
    for index := 0 to |bars|
      invariant forall k :: 0 <= k < index ==> smooth[k] == SmoothAfter(bars[..k + 1], period)
      invariant forall k :: 0 <= k < index ==> dx[k] == DxOf(SmoothAfter(bars[..k + 1], period))
    {
      SmoothEntry(bars, period, index);
      var previous := if index > 0 then bars[index - 1] else ZERO_BAR;
      var before := if index > 0 then smooth[index - 1] else Smooth(0.0, 0.0, 0.0);
      assert before == SmoothAfter(bars[..index], period);
      smooth[index] := SmoothNext(before, bars[index], previous, period);
      dx[index] := DxOf(smooth[index]);
    }
    assert dx[..] == Dx(bars, period);
    result := ComputeRma(dx[..], period);
  }

  lemma DxPrefix(bars: seq<Bar>, period: nat, n: nat)
    requires period > 0 && n <= |bars|
    ensures Dx(bars[..n], period) == Dx(bars, period)[..n]
  {
    forall i | 0 <= i < n
      ensures Dx(bars[..n], period)[i] == Dx(bars, period)[i]
    {
      assert bars[..n][..i + 1] == bars[..i + 1];
    }
  }

  lemma DirectionalAdxPrefix(bars: seq<Bar>, period: nat, n: nat)
    requires period > 0 && n <= |bars|
    ensures DirectionalAdx(bars[..n], period) == DirectionalAdx(bars, period)[..n]
  {
    DxPrefix(bars, period, n);
    RmaPrefix(Dx(bars, period), period, n);
  }

  // ---------- regime (slope of an adaptive average) ----------

  datatype Regime = Regime(value1: Num, value2: real, klmf: Num)

  function OrZero(a: Num): real {
    if a.NaN? then 0.0 else a.v
  }

  function Ohlc4(bar: Bar): real {
    (bar.open + bar.high + bar.low + bar.close) / 4.0
  }

  function RegimeNext(m: Maths, s: Regime, bar: Bar, delta: Num): Regime {
    var value1 := if delta.NaN? then NaN else Fin(0.2 * delta.v + 0.8 * OrZero(s.value1));
    var value2 := 0.1 * (bar.high - bar.low) + 0.8 * s.value2;
    var omega := AbsN(Div(value1, Fin(value2)));
    var klmf :=
      if omega.NaN? then NaN
      else
        var square := omega.v * omega.v;
        var alpha := (m.sqrt(square * square + 16.0 * square) - square) / 8.0;
        Fin(alpha * Ohlc4(bar) + (1.0 - alpha) * OrZero(s.klmf));
    Regime(value1, value2, klmf)
  }

  function RegimeDelta(bars: seq<Bar>): Num {
    if |bars| < 2 then NaN else Fin(Ohlc4(bars[|bars| - 1]) - Ohlc4(bars[|bars| - 2]))
  }

  function RegimeAfter(m: Maths, bars: seq<Bar>): Regime {
    if bars == [] then Regime(Fin(0.0), 0.0, Fin(0.0))
    else RegimeNext(m, RegimeAfter(m, bars[..|bars| - 1]), bars[|bars| - 1], RegimeDelta(bars))
  }

  function Klmf(m: Maths, bars: seq<Bar>): seq<Num> {
    seq(|bars|, i requires 0 <= i < |bars| => RegimeAfter(m, bars[..i + 1]).klmf)
  }

  lemma RegimeEntry(m: Maths, bars: seq<Bar>, i: nat)
    requires i < |bars|
    ensures RegimeAfter(m, bars[..i + 1])
         == RegimeNext(m, RegimeAfter(m, bars[..i]), bars[i],
                       if i == 0 then NaN else Fin(Ohlc4(bars[i]) - Ohlc4(bars[i - 1])))
  {
    assert bars[..i + 1][..i] == bars[..i];
  }

  method ComputeKlmf(m: Maths, bars: seq<Bar>) returns (klmf: array<Num>)
    ensures klmf[..] == Klmf(m, bars)
  {
    klmf := new Num[|bars|](_ => NaN);
    var state := Regime(Fin(0.0), 0.0, Fin(0.0));
    for index := 0 to |bars|
      invariant state == RegimeAfter(m, bars[..index])
      invariant forall k :: 0 <= k < index ==> klmf[k] == RegimeAfter(m, bars[..k + 1]).klmf
    {
      RegimeEntry(m, bars, index);
      var delta := if index > 0 then Fin(Ohlc4(bars[index]) - Ohlc4(bars[index - 1])) else NaN;
      state := RegimeNext(m, state, bars[index], delta);
      klmf[index] := state.klmf;
    }
  }

  lemma KlmfPrefix(m: Maths, bars: seq<Bar>, n: nat)
    requires n <= |bars|
    ensures Klmf(m, bars[..n]) == Klmf(m, bars)[..n]
  {
    forall i | 0 <= i < n
      ensures Klmf(m, bars[..n])[i] == Klmf(m, bars)[i]
    {
      assert bars[..n][..i + 1] == bars[..i + 1];
    }
  }

  /** How far the adaptive average moved on each bar. */
  function RegimeSlope(m: Maths, bars: seq<Bar>): (r: seq<Num>)
    ensures |r| == |bars|
  {
    var klmf := Klmf(m, bars);
    Each(AbsN, Zip(Sub, klmf, Shift(klmf, 1, NaN)))
  }

  /** The normalised slope that the regime filter thresholds and the trade log keeps. */
  function RegimeNormalized(m: Maths, bars: seq<Bar>): (r: seq<Num>)
    ensures |r| == |bars|
  {
    var slope := RegimeSlope(m, bars);
    var average := Ema(slope, 200);
    Zip(Div, Zip(Sub, slope, average), average)
  }

  lemma RegimeSlopePrefix(m: Maths, bars: seq<Bar>, n: nat)
    requires n <= |bars|
    ensures RegimeSlope(m, bars[..n]) == RegimeSlope(m, bars)[..n]
  {
    var klmf := Klmf(m, bars);
    KlmfPrefix(m, bars, n);
    ShiftPrefix(klmf, 1, NaN, n);
    ZipPrefix(Sub, klmf, Shift(klmf, 1, NaN), n);
    EachPrefix(AbsN, Zip(Sub, klmf, Shift(klmf, 1, NaN)), n);
  }

  lemma RegimeNormalizedPrefix(m: Maths, bars: seq<Bar>, n: nat)
    requires n <= |bars|
    ensures RegimeNormalized(m, bars[..n]) == RegimeNormalized(m, bars)[..n]
  {
    hide RegimeSlope, EmaNext;
    var slope := RegimeSlope(m, bars);
    var average := Ema(slope, 200);
    RegimeSlopePrefix(m, bars, n);
    EmaPrefix(slope, 200, n);
    ZipPrefix(Sub, slope, average, n);
    ZipPrefix(Div, Zip(Sub, slope, average), average, n);
  }

  // ---------- kernel regression ----------

  function WeightedSum(source: seq<real>, weight: nat -> real, bar: nat, count: nat): real
    requires bar < |source| && count <= bar + 1
  {
    if count == 0 then 0.0
    else WeightedSum(source, weight, bar, count - 1) + source[bar - (count - 1)] * weight(count - 1)
  }

  function TotalWeight(weight: nat -> real, count: nat): real {
    if count == 0 then 0.0 else TotalWeight(weight, count - 1) + weight(count - 1)
  }

  /** The kernel estimate of every bar that has `startAtBar + 1` bars before it. */
  function KernelEstimate(source: seq<real>, startAtBar: nat, weight: nat -> real): (r: seq<Num>)
    ensures |r| == |source|
  {
    seq(|source|, bar requires 0 <= bar < |source| =>
      if bar < startAtBar + 1 then NaN
      else Div(Fin(WeightedSum(source, weight, bar, startAtBar + 2)), Fin(TotalWeight(weight, startAtBar + 2))))
  }

  method ComputeKernel(source: seq<real>, startAtBar: nat, weight: nat -> real) returns (result: array<Num>)
    ensures result[..] == KernelEstimate(source, startAtBar, weight)
  {
    result := new Num[|source|](_ => NaN);
    for bar := 0 to |source|
      invariant forall k :: 0 <= k < bar ==> result[k] == KernelEstimate(source, startAtBar, weight)[k]
      invariant forall k :: bar <= k < |source| ==> result[k] == NaN
    {
      var weighted, total := 0.0, 0.0;
      var valid := true;
      var offset := 0;
      while offset < startAtBar + 2 && valid
        invariant 0 <= offset <= startAtBar + 2 && offset <= bar + 1
        invariant !valid ==> offset == bar + 1 < startAtBar + 2
        invariant valid ==> weighted == WeightedSum(source, weight, bar, offset) && total == TotalWeight(weight, offset)
        decreases startAtBar + 2 - offset, valid
      {
        if bar - offset < 0 {
          valid := false;
        } else {
          var w := weight(offset);
          weighted := weighted + source[bar - offset] * w;
          total := total + w;
          offset := offset + 1;
        }
      }
      if valid {
        result[bar] := Div(Fin(weighted), Fin(total));
      }
    }
  }

  lemma {:induction false} WeightedSumPrefix(source: seq<real>, weight: nat -> real, bar: nat, count: nat, n: nat)
    requires bar < n <= |source| && count <= bar + 1
    ensures WeightedSum(source[..n], weight, bar, count) == WeightedSum(source, weight, bar, count)
  {
    if count > 0 {
      WeightedSumPrefix(source, weight, bar, count - 1, n);
    }
  }

  lemma KernelPrefix(source: seq<real>, startAtBar: nat, weight: nat -> real, n: nat)
    requires n <= |source|
    ensures KernelEstimate(source[..n], startAtBar, weight) == KernelEstimate(source, startAtBar, weight)[..n]
  {
    forall i | 0 <= i < n
      ensures KernelEstimate(source[..n], startAtBar, weight)[i] == KernelEstimate(source, startAtBar, weight)[i]
    {
      if i >= startAtBar + 1 {
        WeightedSumPrefix(source, weight, i, startAtBar + 2, n);
      }
    }
  }
}
