/** A falling market: the price history on which the regime filter lets two bars pass, the second one being the
    newest. It decides where the incremental and the batch classifier first disagree. */
module FallingMarket {
  import opened Numeric
  import opened Indicators
  import opened EngineColumns

  /** A history of positive prices within their ranges. */
  predicate Plausible(h: seq<Bar>) {
    forall i :: 0 <= i < |h| ==> 0.0 < h[i].low <= h[i].open <= h[i].high && h[i].low <= h[i].close <= h[i].high
  }

  /** The price falls by 15 on bar 1, by half of `top` on bar `last` and by 3 on every other bar. It is `top` on bar
      `turn`, the first bar with a range. */
  datatype Fall = Fall(turn: nat, last: nat, top: real)
  {
    predicate Valid() {
      2 <= turn && turn + 2 < last && top >= 44.0 && top >= 9.0 * ((last - turn) as real)
    }

    function Price(b: nat): real {
      top + 3.0 * ((turn - b) as real) + (if b == 0 then 12.0 else 0.0) + (if b == last then 3.0 - top / 2.0 else 0.0)
    }

    function HalfRange(b: nat): real {
      if b < turn then 0.0 else if b == turn then 5.0 else if b < last then 1.0 else top / 6.0
    }

    function BarAt(b: nat): Bar {
      Bar(Price(b), Price(b) + HalfRange(b), Price(b) - HalfRange(b), Price(b))
    }

    function Bars(): (h: seq<Bar>)
      ensures |h| == last + 1
    {
      seq(last + 1, b requires 0 <= b <= last => BarAt(b))
    }
  }

  lemma PricesArePlausible(f: Fall)
    requires f.Valid()
    ensures Plausible(f.Bars())
  {
  }

  lemma PriceFalls(f: Fall, i: nat, j: nat)
    requires f.Valid() && i < j <= f.last
    ensures f.Price(j) < f.Price(i)
  {
  }

  /** From bar 4 on every vote is for a rise. */
  lemma FallingLabels(f: Fall, i: nat)
    requires f.Valid() && i <= f.last
    ensures Labels(Source(f.Bars()))[i] == if i < 4 then 0 else 1
  {
    if i >= 4 {
      PriceFalls(f, i - 4, i);
    }
  }

  // ---------- the first feature ----------

  lemma {:induction false} SumPositive(w: seq<real>)
    requires w != [] && forall k :: 0 <= k < |w| ==> w[k] > 0.0
    ensures Sum(w) > 0.0
  {
    if |w| > 1 {
      SumPositive(w[..|w| - 1]);
    } else {
      assert Sum(w[..0]) == 0.0;
    }
  }

  lemma {:induction false} SumZero(w: seq<real>)
    requires forall k :: 0 <= k < |w| ==> w[k] == 0.0
    ensures Sum(w) == 0.0
  {
    if w != [] {
      SumZero(w[..|w| - 1]);
    }
  }

  /** One kind of move only: bar 0 has none, every later one is `move`. */
  predicate Moves(values: seq<Num>, up: bool) {
    && values != [] && values[0].NaN?
    && forall i :: 1 <= i < |values| ==>
         values[i].Fin? && if up then values[i].v > 0.0 else values[i].v == 0.0
  }

  lemma {:induction false} AverageOfMoves(values: seq<Num>, up: bool, period: nat, i: nat)
    requires 0 < period <= i < |values| && Moves(values, up)
    ensures var r := Rma(values, period)[i]; r.Fin? && if up then r.v > 0.0 else r.v == 0.0
  {
    hide Rma;
    var w := Window(values, period, i);
    RmaEntry(values, period, i);
    assert AllFinite(w);
    if i == period {
      RmaMissing(values, period, i - 1);
      if up {
        SumPositive(Values(w));
      } else {
        SumZero(Values(w));
      }
    } else {
      AverageOfMoves(values, up, period, i - 1);
      WilderSign(Rma(values, period)[i - 1].v, w[period - 1].v, period);
    }
  }

  lemma WilderSign(previous: real, value: real, period: nat)
    requires period > 0
    ensures previous > 0.0 && value > 0.0 ==> Wilder(previous, value, period) > 0.0
    ensures previous == 0.0 && value == 0.0 ==> Wilder(previous, value, period) == 0.0
  {
    if previous > 0.0 && value > 0.0 {
      assert previous * (period as real - 1.0) >= 0.0;
    }
  }

  /** A market that only falls has no strength. */
  lemma RsiOfFall(values: seq<Num>, period: nat, i: nat)
    requires 0 < period <= i < |values|
    requires AllFinite(values) && forall k :: 1 <= k < |values| ==> values[k].v < values[k - 1].v
    ensures Rsi(values, period)[i] == Fin(0.0)
  {
    hide Rma, Wilder;
    var change := Zip(Sub, values, Shift(values, 1, NaN));
    var gains, losses := FirstUndefined(Each(Gain, change)), FirstUndefined(Each(Loss, change));
    forall k | 1 <= k < |values|
      ensures gains[k] == Fin(0.0) && losses[k].Fin? && losses[k].v > 0.0
    {
      assert change[k] == Fin(values[k].v - values[k - 1].v);
      assert gains[k] == Gain(change[k]) && losses[k] == Loss(change[k]);
    }
    AverageOfMoves(gains, false, period, i);
    AverageOfMoves(losses, true, period, i);
    assert Rsi(values, period)[i] == RsiOf(Rma(gains, period)[i], Rma(losses, period)[i]);
  }

  lemma FirstFeatureOfFall(f: Fall, i: nat)
    requires f.Valid() && 14 <= i <= f.last
    ensures Features(f.Bars())[0][i] == Fin(0.0)
  {
    hide Rsi, NormalizedWt, NormalizedCci, DirectionalAdx;
    var close := Closes(f.Bars());
    forall k | 0 < k <= f.last
      ensures close[k].v < close[k - 1].v
    {
      PriceFalls(f, k - 1, k);
    }
    RsiOfFall(close, 14, i);
    EmaEntry(Rsi(close, 14), 1, i);
    assert Alpha(1) == 1.0;
  }

  // ---------- the regime filter ----------

  /** The square root at the one point the history needs it. */
  predicate Roots(m: Maths) {
    m.sqrt(225.0) == 15.0
  }

  /** A bar on which the smoothed move is three times the smoothed range, or there is no range at all. */
  lemma RegimeStep(m: Maths, s: Regime, bar: Bar, delta: real, value2: real)
    requires Roots(m) && value2 == 0.1 * (bar.high - bar.low) + 0.8 * s.value2
    requires value2 != 0.0 ==> 0.2 * delta + 0.8 * OrZero(s.value1) == -3.0 * value2
    ensures var t := RegimeNext(m, s, bar, Fin(delta));
            && t.value1 == Fin(0.2 * delta + 0.8 * OrZero(s.value1)) && t.value2 == value2
            && t.klmf == if value2 == 0.0 then NaN else Fin(0.75 * Ohlc4(bar) + 0.25 * OrZero(s.klmf))
  {
    hide Ohlc4, OrZero;
    if value2 != 0.0 {
      var omega := AbsN(Div(Fin(-3.0 * value2), Fin(value2)));
      assert -3.0 * value2 / value2 == -3.0;
      assert omega == Fin(3.0);
    }
  }

  /** The state after bar `b`: the ratio of move to range is 3 as soon as there is a range. */
  lemma {:induction false} RegimeOfFall(m: Maths, f: Fall, b: nat)
    requires Roots(m) && f.Valid() && b < f.last
    ensures var s := RegimeAfter(m, f.Bars()[..b + 1]);
            && s.value1 == (if b == 0 then NaN else Fin(-3.0))
            && s.value2 == (if b < f.turn then 0.0 else 1.0)
            && (b < f.turn ==> s.klmf == NaN)
            && (b >= f.turn ==> s.klmf == Fin(0.75 * f.Price(b) + 0.25 * OrZero(RegimeAfter(m, f.Bars()[..b]).klmf)))
  {
    hide RegimeAfter, RegimeNext;
    var h := f.Bars();
    RegimeEntry(m, h, b);
    assert Ohlc4(h[b]) == f.Price(b);
    if b == 0 {
      FirstRegime(m, h[0]);
      assert RegimeAfter(m, h[..0]) == Regime(Fin(0.0), 0.0, Fin(0.0)) by { NoRegime(m, h[..0]); }
    } else {
      RegimeOfFall(m, f, b - 1);
      assert Ohlc4(h[b - 1]) == f.Price(b - 1);
      RegimeStep(m, RegimeAfter(m, h[..b]), h[b], f.Price(b) - f.Price(b - 1), if b < f.turn then 0.0 else 1.0);
    }
  }

  lemma NoRegime(m: Maths, bars: seq<Bar>)
    requires bars == []
    ensures RegimeAfter(m, bars) == Regime(Fin(0.0), 0.0, Fin(0.0))
  {
  }

  lemma FirstRegime(m: Maths, bar: Bar)
    requires bar.high == bar.low
    ensures RegimeNext(m, Regime(Fin(0.0), 0.0, Fin(0.0)), bar, NaN) == Regime(NaN, 0.0, NaN)
  {
  }

  /** How far the price stays above the adaptive average, counted from the distance the average settles at. */
  function Excess(m: Maths, f: Fall, b: nat): real
    requires f.Valid() && b <= f.last
  {
    f.Price(b) + 1.0 - OrZero(Klmf(m, f.Bars())[b])
  }

  /** It shrinks to a quarter with every bar. */
  lemma {:induction false} ExcessShrinks(m: Maths, f: Fall, b: nat)
    requires Roots(m) && f.Valid() && f.turn <= b < f.last
    ensures Klmf(m, f.Bars())[b].Fin?
    ensures b == f.turn ==> Excess(m, f, b) == 0.25 * f.top + 1.0
    ensures b > f.turn ==> Excess(m, f, b) == 0.25 * Excess(m, f, b - 1)
    ensures 0.0 < Excess(m, f, b) && (b > f.turn ==> Excess(m, f, b) <= 0.0625 * f.top + 0.25)
  {
    hide RegimeAfter;
    var h := f.Bars();
    RegimeOfFall(m, f, b);
    if b == f.turn {
      RegimeOfFall(m, f, b - 1);
    } else {
      ExcessShrinks(m, f, b - 1);
    }
  }

  function Average(m: Maths, f: Fall): (r: seq<Num>)
    ensures |r| == f.last + 1
  {
    Ema(RegimeSlope(m, f.Bars()), 200)
  }

  lemma SlopeEntry(m: Maths, h: seq<Bar>, b: nat)
    requires b < |h|
    ensures RegimeSlope(m, h)[b] == AbsN(Sub(Klmf(m, h)[b], if b == 0 then NaN else Klmf(m, h)[b - 1]))
  {
    hide RegimeAfter;
  }

  lemma SlopeOfFall(m: Maths, f: Fall, b: nat)
    requires Roots(m) && f.Valid() && b < f.last
    ensures RegimeSlope(m, f.Bars())[b] == if b <= f.turn then NaN else Fin(Abs(3.0 * Excess(m, f, b) - 3.0))
  {
    hide RegimeAfter, RegimeSlope;
    SlopeEntry(m, f.Bars(), b);
    RegimeOfFall(m, f, b);
    if b > 0 {
      RegimeOfFall(m, f, b - 1);
    }
    if b > f.turn {
      ExcessShrinks(m, f, b - 1);
      assert Klmf(m, f.Bars())[b - 1] == RegimeAfter(m, f.Bars()[..b]).klmf;
    }
  }

  /** One step of the average towards a slope below it. */
  lemma AverageStep(excess: real, average: real)
    requires 0.0 < excess && 3.0 + 4.0 * excess <= average
    ensures var slope := Fin(Abs(3.0 * excess - 3.0));
            var next := EmaNext(Alpha(200), Fin(average), slope);
            next.Fin? && slope.v < next.v <= average && 3.0 + excess <= next.v
  {
    assert Alpha(200) == 2.0 / 201.0;
  }

  /** The average starts at the first slope and stays above every later one. */
  lemma {:induction false} AverageOfFall(m: Maths, f: Fall, b: nat)
    requires Roots(m) && f.Valid() && f.turn < b < f.last
    ensures var slope, average := RegimeSlope(m, f.Bars())[b], Average(m, f)[b];
            && slope.Fin? && average.Fin?
            && 3.0 + Excess(m, f, b) <= average.v <= 0.1875 * f.top - 2.25
            && (b == f.turn + 1 ==> slope == average)
            && (b > f.turn + 1 ==> slope.v < average.v)
  {
    hide RegimeSlope, Excess, EmaNext, Alpha, Ema, Klmf;
    var slopes := RegimeSlope(m, f.Bars());
    EmaEntry(slopes, 200, b);
    SlopeOfFall(m, f, b);
    ExcessShrinks(m, f, b);
    ExcessShrinks(m, f, b - 1);
    if b == f.turn + 1 {
      SlopeOfFall(m, f, b - 1);
      EmaEntry(slopes, 200, b - 1);
      EmaStart(Average(m, f)[b - 1], slopes[b]);
      EmaGap(if b == 1 then NaN else Average(m, f)[b - 2]);
    } else {
      AverageOfFall(m, f, b - 1);
      AverageStep(Excess(m, f, b), Average(m, f)[b - 1].v);
    }
  }

  lemma EmaGap(previous: Num)
    ensures EmaNext(Alpha(200), previous, NaN) == NaN
  {
  }

  lemma EmaStart(previous: Num, value: Num)
    ensures previous.NaN? ==> EmaNext(Alpha(200), previous, value) == value
  {
  }

  /** The last bar falls so far that the slope is above the average again. */
  lemma LastSlope(m: Maths, f: Fall)
    requires Roots(m) && f.Valid()
    ensures var slope, average := RegimeSlope(m, f.Bars())[f.last], Average(m, f)[f.last];
            slope.Fin? && average.Fin? && 0.0 < average.v <= slope.v
  {
    hide RegimeAfter, RegimeNext, Ema, RegimeSlope;
    var h, b := f.Bars(), f.last;
    RegimeOfFall(m, f, b - 1);
    RegimeEntry(m, h, b);
    assert Ohlc4(h[b]) == f.Price(b) && Ohlc4(h[b - 1]) == f.Price(b - 1);
    RegimeStep(m, RegimeAfter(m, h[..b]), h[b], f.Price(b) - f.Price(b - 1), f.top / 30.0 + 0.8);
    SlopeEntry(m, h, b);
    ExcessShrinks(m, f, b - 1);
    AverageOfFall(m, f, b - 1);
    EmaEntry(RegimeSlope(m, h), 200, b);
    assert h[..b + 1] == h;
    assert Klmf(m, h)[b - 1] == RegimeAfter(m, h[..b]).klmf;
    LastStep(f, Klmf(m, h)[b - 1].v, Average(m, f)[b - 1].v);
  }

  lemma LastStep(f: Fall, klmf: real, average: real)
    requires f.Valid() && 0.0 < f.Price(f.last - 1) + 1.0 - klmf <= 0.0625 * f.top + 0.25
    requires 0.0 < average <= 0.1875 * f.top - 2.25
    ensures var slope := Abs(0.75 * f.Price(f.last) + 0.25 * klmf - klmf);
            var next := EmaNext(Alpha(200), Fin(average), Fin(slope));
            next.Fin? && 0.0 < next.v <= slope
  {
    assert Alpha(200) == 2.0 / 201.0;
  }

  lemma RegimeNormalizedEntry(m: Maths, h: seq<Bar>, b: nat)
    requires b < |h|
    ensures var slope, average := RegimeSlope(m, h)[b], Ema(RegimeSlope(m, h), 200)[b];
            RegimeNormalized(m, h)[b] == Div(Sub(slope, average), average)
  {
    hide RegimeSlope, Ema;
  }

  /** With the regime filter alone and its threshold at 0, the bar after `turn` and the newest bar pass and no bar
      between them does. */
  lemma FilterOfFall(m: Maths, e: Engine, f: Fall, b: nat)
    requires Roots(m) && f.Valid() && f.turn < b <= f.last
    requires e.useRegimeFilter && e.regimeThreshold == 0.0 && !e.useVolatilityFilter && !e.useAdxFilter
    ensures Filters(m, e, f.Bars())[b] == (b == f.turn + 1 || b == f.last)
  {
    hide RegimeSlope, Ema, RegimeNormalized, Excess;
    var h := f.Bars();
    RegimeNormalizedEntry(m, h, b);
    if b < f.last {
      ExcessShrinks(m, f, b);
      AverageOfFall(m, f, b);
    } else {
      LastSlope(m, f);
    }
    var slope, average := RegimeSlope(m, h)[b].v, Average(m, f)[b].v;
    QuotientSign(slope, average);
    OnlyRegime(m, e, h, b);
  }

  lemma OnlyRegime(m: Maths, e: Engine, h: seq<Bar>, b: nat)
    requires b < |h| && e.useRegimeFilter && !e.useVolatilityFilter && !e.useAdxFilter
    ensures Filters(m, e, h)[b] == AtLeast(RegimeNormalized(m, h)[b], Fin(e.regimeThreshold))
  {
    hide RegimeNormalized;
    assert VolatilityFilter(e, h)[b] && AdxFilter(e, h)[b];
    assert RegimeFilter(m, e, h)[b] == AtLeast(RegimeNormalized(m, h)[b], Fin(e.regimeThreshold));
    assert Zip(Both, VolatilityFilter(e, h), RegimeFilter(m, e, h))[b] == RegimeFilter(m, e, h)[b];
  }

  lemma QuotientSign(slope: real, average: real)
    requires average > 0.0
    ensures (slope - average) / average >= 0.0 <==> slope >= average
  {
    if slope < average {
      assert (average - slope) / average > 0.0;
    }
  }
}
