/** The daily liquidity-sweep strategy: setups, entry confirmation, the trailing stop and the exit
    (`application/daily_swing.py`, `analysis/nifty500_swing_backtest.py`, `daily_swing_live.py`). */
module DailySwing {
  import opened Numeric

  // ---------- setups ----------

  /** One symbol's latest completed day with its derived columns. */
  datatype DailyRow = DailyRow(symbol: string, open: real, high: real, low: real, close: real, atr: Num, volRatio: Num,
                               dollarLiq: Num, res20: Num, sup20: Num, res60: Num, sup60: Num, marketMom20: Num,
                               breadthUp: Num)

  /** `side` is 1 for a long and -1 for a short. */
  datatype SwingSetup = SwingSetup(symbol: string, side: int, trigger: real, stop: real, atr: real, setupClose: real,
                                   outerStructure: Option<real>, score: real)

  predicate ValidBar(row: DailyRow) {
    row.open > 0.0 && row.high >= row.open && row.high >= row.close && row.low <= row.open && row.low <= row.close
  }

  function Structure(level: Num): Option<real> {
    if level.Fin? then Some(level.v) else None
  }

  predicate Between(x: Num, lo: real, hi: real) {
    AtLeast(x, Fin(lo)) && AtMost(x, Fin(hi))
  }

  function LowerWick(row: DailyRow): Num {
    Div(Fin((if row.open <= row.close then row.open else row.close) - row.low), Fin(row.high - row.low))
  }

  function UpperWick(row: DailyRow): Num {
    Div(Fin(row.high - (if row.open >= row.close then row.open else row.close)), Fin(row.high - row.low))
  }

  predicate LongMask(row: DailyRow) {
    && AtLeast(row.dollarLiq, Fin(20000000.0))
    && Greater(Sub(row.sup20, Mul(Fin(0.05), row.atr)), Fin(row.low))
    && Greater(Fin(row.close), row.sup20)
    && AtLeast(LowerWick(row), Fin(0.35))
    && AtLeast(row.volRatio, Fin(1.0))
    && AtMost(AbsN(row.marketMom20), Fin(0.04))
    && Between(row.breadthUp, 0.35, 0.65)
  }

  predicate ShortMask(row: DailyRow) {
    && AtLeast(row.dollarLiq, Fin(20000000.0))
    && Greater(Fin(row.high), Sub(row.res20, Mul(Fin(-0.05), row.atr)))
    && Greater(row.res20, Fin(row.close))
    && AtLeast(UpperWick(row), Fin(0.45))
    && AtLeast(row.volRatio, Fin(1.5))
    && AtMost(AbsN(row.marketMom20), Fin(0.04))
    && Between(row.breadthUp, 0.40, 0.60)
  }

  /** How far beyond the level the extreme went, in average ranges. */
  function Penetration(distance: real, atr: real): real
    requires atr != 0.0
  {
    Max(0.0, distance / atr)
  }

  function Value(x: Num): real {
    if x.Fin? then x.v else 0.0
  }

  /** A zero average range makes the score divide by zero, which raises. */
  predicate Usable(row: DailyRow) {
    LongMask(row) || ShortMask(row) ==> row.atr.Fin? && row.atr.v != 0.0
  }

  function LongSetup(row: DailyRow): SwingSetup
    requires row.atr.Fin? && row.atr.v != 0.0
  {
    SwingSetup(row.symbol, 1, row.high, row.low - 0.10 * row.atr.v, row.atr.v, row.close, Structure(row.res60),
               Value(LowerWick(row)) * Value(row.volRatio) * (1.0 + Penetration(Value(row.sup20) - row.low, row.atr.v)))
  }

  function ShortSetup(row: DailyRow): SwingSetup
    requires row.atr.Fin? && row.atr.v != 0.0
  {
    SwingSetup(row.symbol, -1, row.low, row.high + 0.10 * row.atr.v, row.atr.v, row.close, Structure(row.sup60),
               Value(UpperWick(row)) * Value(row.volRatio) * (1.0
                                                              + Penetration(row.high - Value(row.res20), row.atr.v)))
  }

  function LongOf(row: DailyRow): Option<SwingSetup>
    requires Usable(row)
  {
    if LongMask(row) then Some(LongSetup(row)) else None
  }

  /** A short setup of a symbol replaces its long one. */
  function SetupOf(row: DailyRow): Option<SwingSetup>
    requires Usable(row)
  {
    if ShortMask(row) then Some(ShortSetup(row)) else LongOf(row)
  }

  predicate OneRowEach(rows: seq<DailyRow>) {
    forall i, j :: 0 <= i < j < |rows| ==> rows[i].symbol != rows[j].symbol
  }

  function Find(setups: map<string, SwingSetup>, symbol: string): Option<SwingSetup> {
    if symbol in setups then Some(setups[symbol]) else None
  }

  ghost predicate OnlyOf(rows: seq<DailyRow>, setups: map<string, SwingSetup>) {
    forall s :: s in setups ==> exists i :: 0 <= i < |rows| && rows[i].symbol == s
  }

  /** The setups after the long side of the first `longs` rows and the short side of the first `shorts` rows. */
  ghost predicate BuiltFrom(rows: seq<DailyRow>, setups: map<string, SwingSetup>, longs: nat, shorts: nat) {
    forall k :: 0 <= k < |rows| ==> Find(setups, rows[k].symbol) == SoFar(rows[k], k < longs, k < shorts)
  }

  function SoFar(row: DailyRow, long: bool, short: bool): Option<SwingSetup> {
    if short && ShortMask(row) && Usable(row) then Some(ShortSetup(row))
    else if long && LongMask(row) && Usable(row) then Some(LongSetup(row))
    else None
  }

  lemma Stored(rows: seq<DailyRow>, setups: map<string, SwingSetup>, i: nat, setup: SwingSetup)
    requires OneRowEach(rows) && i < |rows| && OnlyOf(rows, setups)
    ensures var next := setups[rows[i].symbol := setup];
            && OnlyOf(rows, next)
            && forall k :: 0 <= k < |rows| ==> Find(next, rows[k].symbol) == if k == i then Some(setup)
                else Find(setups, rows[k].symbol)
  {
  }

  lemma NothingStored(rows: seq<DailyRow>)
    ensures OnlyOf(rows, map[]) && BuiltFrom(rows, map[], 0, 0)
  {
  }

  lemma SymbolsKnown(rows: seq<DailyRow>, setups: map<string, SwingSetup>)
    requires OnlyOf(rows, setups)
    ensures forall s :: s in setups ==> exists i :: 0 <= i < |rows| && rows[i].symbol == s
  {
  }

  lemma MaskHasAtr(row: DailyRow)
    ensures LongMask(row) || ShortMask(row) ==> row.atr.Fin?
  {
  }

  /** The setups of the day, or nothing when the loop raises. */
  method BuildSetups(rows: seq<DailyRow>) returns (r: Option<map<string, SwingSetup>>)
    requires OneRowEach(rows)
    ensures r.Some? <==> forall i :: 0 <= i < |rows| ==> Usable(rows[i])
    ensures r.Some? ==>
              && (forall i :: 0 <= i < |rows| ==> Find(r.value, rows[i].symbol) == SetupOf(rows[i]))
              && (forall s :: s in r.value ==> exists i :: 0 <= i < |rows| && rows[i].symbol == s)
  {
    hide LongMask, ShortMask, LongSetup, ShortSetup, Find, OneRowEach, OnlyOf;
    var setups: map<string, SwingSetup> := map[];
    NothingStored(rows);
    for i := 0 to |rows|
      invariant OnlyOf(rows, setups) && BuiltFrom(rows, setups, i, 0)
      invariant forall k :: 0 <= k < i ==> (LongMask(rows[k]) ==> Usable(rows[k]))
    {
      if LongMask(rows[i]) {
        MaskHasAtr(rows[i]);
        if rows[i].atr.v == 0.0 {
          return None;
        }
        Stored(rows, setups, i, LongSetup(rows[i]));
        setups := setups[rows[i].symbol := LongSetup(rows[i])];
      }
    }
    for i := 0 to |rows|
      invariant OnlyOf(rows, setups) && BuiltFrom(rows, setups, |rows|, i)
      invariant forall k :: 0 <= k < i ==> Usable(rows[k])
    {
      if ShortMask(rows[i]) {
        MaskHasAtr(rows[i]);
        if rows[i].atr.v == 0.0 {
          return None;
        }
        Stored(rows, setups, i, ShortSetup(rows[i]));
        setups := setups[rows[i].symbol := ShortSetup(rows[i])];
      }
    }
    SymbolsKnown(rows, setups);
    return Some(setups);
  }

  /** The trigger lies beyond the stop, on the side the trade goes, by more than 0.15 ATR. */
  predicate Built(setup: SwingSetup) {
    && (setup.side == 1 || setup.side == -1)
    && setup.atr >= 0.0
    && Signed(setup.side, setup.trigger - setup.stop) > 0.15 * setup.atr
  }

  /** Every setup built from a valid bar and an average of true ranges has its trigger beyond its stop. */
  lemma SetupsAreBuilt(row: DailyRow)
    requires ValidBar(row) && (row.atr.Fin? ==> row.atr.v >= 0.0) && Usable(row)
    ensures SetupOf(row).Some? ==> Built(SetupOf(row).value)
  {
  }

  /** A quantity times the side, which is 1 or -1. */
  function Signed(side: int, x: real): real {
    if side == 1 then x else -x
  }

  // ---------- confirmation ----------

  datatype IntradayBar = IntradayBar(open: real, high: real, low: real, close: real, volume: real, timestamp: int)

  datatype EntryCandidate = EntryCandidate(setup: SwingSetup, timestamp: int, entry: real, target: real, risk: real,
                                           slot: int)

  function Location(candle: IntradayBar): real {
    var spread := candle.high - candle.low;
    if spread > 0.0 then (candle.close - candle.low) / spread else 0.5
  }

  /** Prices the ratios divide by. */
  predicate Divisible(setup: SwingSetup, candle: IntradayBar, market: IntradayBar) {
    setup.setupClose != 0.0 && candle.open != 0.0 && candle.close != 0.0 && market.open != 0.0
  }

  predicate Confirmed(setup: SwingSetup, candle: IntradayBar, market: IntradayBar, volumeBase: real)
    requires Divisible(setup, candle, market) && volumeBase != 0.0
  {
    var relative := (candle.close / candle.open - 1.0) - (market.close / market.open - 1.0);
    var volumeOk := candle.volume / volumeBase >= 1.0;
    if setup.side == 1 then
      candle.close > setup.trigger && candle.close > candle.open && Location(candle) >= 0.65 && relative >= 0.0
          && volumeOk
    else
      candle.close < setup.trigger && candle.close < candle.open && Location(candle) <= 0.35 && relative <= 0.0
          && volumeOk
  }

  function GateEntry(setup: SwingSetup, candle: IntradayBar): real {
    candle.close * (1.0 + Signed(setup.side, 0.0005))
  }

  function GateRisk(setup: SwingSetup, candle: IntradayBar): real {
    Signed(setup.side, GateEntry(setup, candle) - setup.stop)
  }

  /** The gates on risk and room, both with half a tenth of a percent of slippage. */
  predicate PassesRisk(setup: SwingSetup, candle: IntradayBar)
    requires GateEntry(setup, candle) != 0.0
  {
    && 0.0 < GateRisk(setup, candle) <= 2.2 * setup.atr
    && GateRisk(setup, candle) / GateEntry(setup, candle) * 100.0 <= 3.5
    && (setup.outerStructure.Some? ==>
          var room := Signed(setup.side, setup.outerStructure.value - GateEntry(setup, candle));
          !(0.0 < room < 2.0 * GateRisk(setup, candle)))
  }

  function ConfirmEntry(setup: SwingSetup, candle: IntradayBar, market: IntradayBar, slot: int,
                        slotVolumeBase: Option<Num>,
                        sessionOpen: Option<real>): Option<EntryCandidate>
    requires Divisible(setup, candle, market) && GateEntry(setup, candle) != 0.0
  {
    if slot >= 4 || slotVolumeBase.None? || slotVolumeBase.value.NaN? || slotVolumeBase.value.v == 0.0 then None
    else if slot > 0 && sessionOpen.None? then None
    else
      var openingPrice := if sessionOpen.Some? then sessionOpen.value else candle.open;
      if Abs(openingPrice / setup.setupClose - 1.0) > 0.75 * setup.atr / setup.setupClose then None
      else if !Confirmed(setup, candle, market, slotVolumeBase.value.v) || !PassesRisk(setup, candle) then None
      else
        var risk := Signed(setup.side, candle.close - setup.stop);
        Some(EntryCandidate(setup, candle.timestamp, candle.close, candle.close + Signed(setup.side, 3.0 * risk), risk,
                            slot))
  }

  /** What a candidate promises: a positive risk below the gated one, at most 2.2 ATR and below 3.5% of the entry; a
      target three risks away; and room for two gated risks, or no structure ahead. */
  ghost predicate Bounded(c: EntryCandidate, gateEntry: real, gateRisk: real) {
    && 0.0 < c.risk < gateRisk <= 2.2 * c.setup.atr
    && c.risk < 0.035 * c.entry
    && Signed(c.setup.side, c.target - c.entry) == 3.0 * c.risk
    && (c.setup.outerStructure.Some? ==>
          var room := Signed(c.setup.side, c.setup.outerStructure.value - gateEntry);
          room <= 0.0 || room >= 2.0 * gateRisk)
  }

  lemma RatioBound(risk: real, entry: real)
    requires entry > 0.0
    ensures risk / entry * 100.0 <= 3.5 <==> risk <= 0.035 * entry
  {
    assert risk / entry * entry == risk;
    if risk / entry * 100.0 <= 3.5 {
      assert risk / entry <= 0.035;
      assert risk / entry * entry <= 0.035 * entry;
    } else {
      assert risk / entry > 0.035;
      assert risk / entry * entry > 0.035 * entry;
    }
  }

  /** Main result. Every candidate confirmed from a built setup on a positive price is bounded, on both sides. */
  lemma CandidatesAreBounded(setup: SwingSetup, candle: IntradayBar, market: IntradayBar, slot: int,
                             slotVolumeBase: Option<Num>,
                             sessionOpen: Option<real>)
    requires Divisible(setup, candle, market) && GateEntry(setup, candle) != 0.0
    requires Built(setup) && candle.close > 0.0
    ensures var c := ConfirmEntry(setup, candle, market, slot, slotVolumeBase, sessionOpen);
            c.Some? ==> c.value.entry == candle.close && c.value.setup == setup
                        && Bounded(c.value, GateEntry(setup, candle), GateRisk(setup, candle))
  {
    var c := ConfirmEntry(setup, candle, market, slot, slotVolumeBase, sessionOpen);
    if c.Some? {
      assert GateEntry(setup, candle) > 0.0;
      RatioBound(GateRisk(setup, candle), GateEntry(setup, candle));
      hide Location;
      if setup.side == 1 {
        assert candle.close > setup.trigger > setup.stop;
      } else {
        assert candle.close < setup.trigger < setup.stop;
      }
    }
  }

  /** From the daily bar to the candidate. */
  lemma CandidatesOfBuiltSetups(row: DailyRow, candle: IntradayBar, market: IntradayBar, slot: int,
                                slotVolumeBase: Option<Num>,
                                sessionOpen: Option<real>)
    requires ValidBar(row) && (row.atr.Fin? ==> row.atr.v >= 0.0) && Usable(row) && SetupOf(row).Some?
    requires Divisible(SetupOf(row).value, candle, market) && candle.close > 0.0
          && GateEntry(SetupOf(row).value, candle) != 0.0
    ensures var setup := SetupOf(row).value;
            var c := ConfirmEntry(setup, candle, market, slot, slotVolumeBase, sessionOpen);
            c.Some? ==> Bounded(c.value, GateEntry(setup, candle), GateRisk(setup, candle))
  {
    hide SetupOf, Built, ConfirmEntry, Bounded;
    SetupsAreBuilt(row);
    CandidatesAreBounded(SetupOf(row).value, candle, market, slot, slotVolumeBase, sessionOpen);
  }

  // ---------- the trailing stop ----------

  /** A position's fixed terms. */
  datatype Terms = Terms(side: int, entry: real, initialStop: real, risk: real, atr: real)

  predicate Sided(p: Terms) {
    p.side == 1 || p.side == -1
  }

  /** The better of two prices for the side: the higher for a long, the lower for a short. */
  function Better(side: int, x: real, y: real): real {
    if side == 1 then Max(x, y) else if x <= y then x else y
  }

  function TrailedStop(p: Terms, bestClose: real): real {
    var progress := Signed(p.side, bestClose - p.entry);
    if progress >= 2.0 * p.risk then
      Better(p.side, Better(p.side, p.initialStop, p.entry + Signed(p.side, p.risk)),
             bestClose - Signed(p.side, 1.25 * p.atr))
    else if progress >= p.risk then Better(p.side, p.initialStop, p.entry)
    else p.initialStop
  }

  /** The best close and the active stop of the backtest's loop. */
  datatype Trail = Trail(best: real, stop: real)

  /** One bar of that loop, each side written out. */
  function Advance(p: Terms, t: Trail, close: real): Trail {
    if p.side == 1 then
      var best := Max(t.best, close);
      Trail(best, if best >= p.entry + 2.0 * p.risk then Max(Max(t.stop, p.entry + p.risk), best - 1.25 * p.atr)
                  else if best >= p.entry + p.risk then Max(t.stop, p.entry) else t.stop)
    else
      var best := Better(-1, t.best, close);
      Trail(best, if best <= p.entry - 2.0 * p.risk
            then Better(-1, Better(-1, t.stop, p.entry - p.risk), best + 1.25 * p.atr)
                  else if best <= p.entry - p.risk then Better(-1, t.stop, p.entry) else t.stop)
  }

  function Run(p: Terms, closes: seq<real>): Trail {
    if closes == [] then Trail(p.entry, p.initialStop)
    else Advance(p, Run(p, closes[..|closes| - 1]), closes[|closes| - 1])
  }

  function BestClose(p: Terms, closes: seq<real>): real {
    if closes == [] then p.entry else Better(p.side, BestClose(p, closes[..|closes| - 1]), closes[|closes| - 1])
  }

  /** One step of the loop from a closed form keeps the closed form. */
  lemma AdvanceKeepsClosedForm(p: Terms, best: real, close: real)
    requires Sided(p) && Signed(p.side, best - p.entry) >= 0.0
    requires p.risk > 0.0 || TrailedStop(p, p.entry) == p.initialStop
    ensures Advance(p, Trail(best, TrailedStop(p, best)), close)
         == Trail(Better(p.side, best, close), TrailedStop(p, Better(p.side, best, close)))
  {
  }

  lemma {:induction false} RunIsClosedForm(p: Terms, closes: seq<real>)
    requires Sided(p) && TrailedStop(p, p.entry) == p.initialStop
    ensures Run(p, closes) == Trail(BestClose(p, closes), TrailedStop(p, BestClose(p, closes)))
    ensures Signed(p.side, BestClose(p, closes) - p.entry) >= 0.0
  {
    hide Advance, TrailedStop;
    if closes != [] {
      RunIsClosedForm(p, closes[..|closes| - 1]);
      AdvanceKeepsClosedForm(p, BestClose(p, closes[..|closes| - 1]), closes[|closes| - 1]);
    }
  }

  /** A position at its entry price has not trailed: its risk is positive, or the stop already dominates both what a
      gained risk would lock in and what the range allows. */
  predicate StartsUntrailed(p: Terms) {
    p.risk > 0.0
    || (Signed(p.side, p.initialStop - p.entry) >= p.risk && Signed(p.side, p.initialStop - p.entry) >= -1.25 * p.atr)
  }

  lemma UntrailedAtEntry(p: Terms)
    requires Sided(p)
    ensures StartsUntrailed(p) <==> TrailedStop(p, p.entry) == p.initialStop
  {
  }

  /** Main result. The history-free stop at the best close equals the backtest's running loop over every sequence of
      closes exactly when a position at its entry price has not trailed yet. */
  lemma ClosedFormExactly(p: Terms)
    requires Sided(p)
    ensures (forall closes :: Run(p, closes) == Trail(BestClose(p, closes), TrailedStop(p, BestClose(p, closes))))
       <==> StartsUntrailed(p)
  {
    UntrailedAtEntry(p);
    hide TrailedStop, StartsUntrailed;
    if StartsUntrailed(p) {
      forall closes
        ensures Run(p, closes) == Trail(BestClose(p, closes), TrailedStop(p, BestClose(p, closes)))
      {
        RunIsClosedForm(p, closes);
      }
    } else {
      assert Run(p, []) != Trail(BestClose(p, []), TrailedStop(p, BestClose(p, [])));
    }
  }

  /** A positive risk is enough for that. */
  lemma PositiveRiskStartsUntrailed(p: Terms)
    requires p.risk > 0.0
    ensures TrailedStop(p, p.entry) == p.initialStop
  {
  }

  /** Main result. Along every run the stop never loosens, never passes the best close, is at the entry once one risk
      has been gained, and locks in one risk once two have. */
  lemma StopOnlyTightens(p: Terms, closes: seq<real>, close: real)
    requires Sided(p) && p.risk > 0.0 && p.atr >= 0.0 && Signed(p.side, p.entry - p.initialStop) >= 0.0
    ensures var now := Run(p, closes);
            var next := Run(p, closes + [close]);
            && Signed(p.side, next.stop - now.stop) >= 0.0
            && Signed(p.side, next.best - next.stop) >= 0.0
            && (Signed(p.side, next.best - p.entry) >= p.risk ==> Signed(p.side, next.stop - p.entry) >= 0.0)
            && (Signed(p.side, next.best - p.entry) >= 2.0 * p.risk ==> Signed(p.side, next.stop - p.entry) >= p.risk)
  {
    PositiveRiskStartsUntrailed(p);
    RunIsClosedForm(p, closes);
    RunIsClosedForm(p, closes + [close]);
    assert (closes + [close])[..|closes|] == closes;
  }

  /** The live position: it keeps the best close and recomputes the stop from it. */
  class SwingPosition {
    const terms: Terms
    var bestClose: real
    var activeStop: real

    constructor (terms: Terms)
      ensures this.terms == terms && bestClose == terms.entry && activeStop == terms.initialStop
    {
      this.terms := terms;
      bestClose, activeStop := terms.entry, terms.initialStop;
    }

    method UpdateOnClose(close: real)
      modifies this
      ensures bestClose == Better(terms.side, old(bestClose), close)
      ensures activeStop == TrailedStop(terms, bestClose)
    {
      var best := if terms.side == 1 then Max(bestClose, close) else Better(-1, bestClose, close);
      activeStop := TrailedStop(terms, best);
      bestClose := best;
    }

    /** Updating on each close is the backtest's loop. */
    method UpdateOnCloses(closes: seq<real>)
      requires Sided(terms) && terms.risk > 0.0
      requires bestClose == terms.entry && activeStop == terms.initialStop
      modifies this
      ensures Trail(bestClose, activeStop) == Run(terms, closes)
    {
      hide TrailedStop, Advance;
      PositiveRiskStartsUntrailed(terms);
      for i := 0 to |closes|
        invariant Trail(bestClose, activeStop) == Run(terms, closes[..i])
        invariant bestClose == BestClose(terms, closes[..i])
      {
        assert closes[..i + 1][..i] == closes[..i];
        RunIsClosedForm(terms, closes[..i + 1]);
        UpdateOnClose(closes[i]);
      }
      assert closes[..|closes|] == closes;
    }
  }

  // ---------- the exit of the backtest ----------

  datatype Reason = Stop | Target | Time

  datatype Exit = Exit(price: real, reason: Reason, index: nat)

  function Closes(bars: seq<IntradayBar>): seq<real> {
    seq(|bars|, i requires 0 <= i < |bars| => bars[i].close)
  }

  /** The stop in force when a bar begins: it depends on the bars before it. */
  function StopBefore(p: Terms, bars: seq<IntradayBar>, k: nat): real
    requires k <= |bars|
  {
    TrailedStop(p, BestClose(p, Closes(bars)[..k]))
  }

  predicate HitsStop(p: Terms, bars: seq<IntradayBar>, k: nat)
    requires k < |bars|
  {
    if p.side == 1 then bars[k].low <= StopBefore(p, bars, k) else bars[k].high >= StopBefore(p, bars, k)
  }

  predicate HitsTarget(p: Terms, bars: seq<IntradayBar>, k: nat, target: real)
    requires k < |bars|
  {
    if p.side == 1 then bars[k].high >= target else bars[k].low <= target
  }

  predicate Survives(p: Terms, bars: seq<IntradayBar>, k: nat, target: real)
    requires k < |bars|
  {
    !HitsStop(p, bars, k) && !HitsTarget(p, bars, k, target)
  }

  /** Main result. The loop leaves at the first bar that touches the stop of the bars before it or the target, the stop
      first when both are touched, and at the last close when none does. */
  method FindExit(p: Terms, bars: seq<IntradayBar>, target: real) returns (exit: Exit)
    requires Sided(p) && p.risk > 0.0 && bars != []
    ensures exit.index < |bars|
    ensures forall k :: 0 <= k < exit.index ==> Survives(p, bars, k, target)
    ensures exit.reason == Stop <==> HitsStop(p, bars, exit.index)
    ensures exit.reason == Target <==> !HitsStop(p, bars, exit.index) && HitsTarget(p, bars, exit.index, target)
    ensures exit.reason == Time ==> exit.index == |bars| - 1
    ensures exit.price == match exit.reason
                          case Stop => StopBefore(p, bars, exit.index)
                          case Target => target
                          case Time => bars[|bars| - 1].close
  {
    hide TrailedStop, Advance;
    PositiveRiskStartsUntrailed(p);
    var activeStop := p.initialStop;
    var highClose := p.entry;
    for i := 0 to |bars|
      invariant Trail(highClose, activeStop) == Run(p, Closes(bars)[..i])
      invariant forall k :: 0 <= k < i ==> Survives(p, bars, k, target)
    {
      var closes := Closes(bars);
      assert closes[..i + 1][..i] == closes[..i];
      RunIsClosedForm(p, closes[..i]);
      assert activeStop == StopBefore(p, bars, i);
      var bar := bars[i];
      if if p.side == 1 then bar.low <= activeStop else bar.high >= activeStop {
        return Exit(activeStop, Stop, i);
      }
      if if p.side == 1 then bar.high >= target else bar.low <= target {
        return Exit(target, Target, i);
      }
      var next := Advance(p, Trail(highClose, activeStop), bar.close);
      highClose, activeStop := next.best, next.stop;
    }
    assert Survives(p, bars, |bars| - 1, target);
    return Exit(bars[|bars| - 1].close, Time, |bars| - 1);
  }

  // ---------- contract expiry ----------

  /** Days are numbered from a Monday. */
  predicate IsWeekday(day: int) {
    day % 7 < 5
  }

  /** The day `n` weekdays after `day`. */
  function AddWeekdays(day: int, n: nat): (r: int)
    ensures r >= day
    decreases n, 7 - day % 7
  {
    if n == 0 then day
    else if IsWeekday(day + 1) then AddWeekdays(day + 1, n - 1)
    else AddWeekdays(day + 1, n)
  }

  const MINIMUM_ENTRY_EXPIRY_SESSIONS := 17
  const EXPIRY_EXIT_DAYS := 10
  const HOLDING_SESSIONS := 10

  method MinimumContractExpiry(tradingDate: int) returns (expiry: int)
    ensures expiry == AddWeekdays(tradingDate, MINIMUM_ENTRY_EXPIRY_SESSIONS)
  {
    var cursor := tradingDate;
    var sessions := MINIMUM_ENTRY_EXPIRY_SESSIONS;
    while sessions > 0
      invariant sessions >= 0
      invariant AddWeekdays(tradingDate, MINIMUM_ENTRY_EXPIRY_SESSIONS) == AddWeekdays(cursor, sessions)
      decreases sessions, 7 - cursor % 7
    {
      if IsWeekday(cursor + 1) {
        sessions := sessions - 1;
      }
      cursor := cursor + 1;
    }
    return cursor;
  }

  predicate ExpiryExitRequired(contractExpiry: Option<int>, tradingDate: int) {
    contractExpiry.Some? && contractExpiry.value - tradingDate <= EXPIRY_EXIT_DAYS
  }

  lemma WeekdaysStep(day: int, n: nat)
    requires n > 0
    ensures AddWeekdays(day, n) == AddWeekdays(day + 1, if IsWeekday(day + 1) then n - 1 else n)
  {
  }

  lemma {:induction false} WeekdaysCompose(day: int, m: nat, n: nat)
    ensures AddWeekdays(day, m + n) == AddWeekdays(AddWeekdays(day, m), n)
    decreases m, 7 - day % 7
  {
    if m == 0 {
      NoWeekdays(day);
    } else {
      hide AddWeekdays;
      WeekdaysStep(day, m);
      WeekdaysStep(day, m + n);
      var rest := if IsWeekday(day + 1) then m - 1 else m;
      assert rest + n == if IsWeekday(day + 1) then m + n - 1 else m + n;
      WeekdaysCompose(day + 1, rest, n);
    }
  }

  lemma NoWeekdays(day: int)
    ensures AddWeekdays(day, 0) == day
  {
  }

  lemma OneWeek(day: int)
    requires IsWeekday(day)
    ensures AddWeekdays(day, 5) == day + 7
  {
    FewWeekdays(day, 5);
  }

  /** The next weekday is tomorrow, or Monday after a Friday. */
  lemma NextWeekday(day: int, n: nat)
    requires IsWeekday(day) && n > 0
    ensures day % 7 < 4 ==> (day + 1) % 7 == day % 7 + 1 && AddWeekdays(day, n) == AddWeekdays(day + 1, n - 1)
    ensures day % 7 == 4 ==> (day + 3) % 7 == 0 && AddWeekdays(day, n) == AddWeekdays(day + 3, n - 1)
  {
    hide AddWeekdays;
    WeekdaysStep(day, n);
    if day % 7 == 4 {
      assert (day + 1) % 7 == 5 && (day + 2) % 7 == 6 && (day + 3) % 7 == 0;
      WeekdaysStep(day + 1, n);
      WeekdaysStep(day + 2, n);
    }
  }

  /** Up to a week of weekdays skips one weekend at most. */
  lemma {:induction false} FewWeekdays(day: int, n: nat)
    requires IsWeekday(day) && n <= 5
    ensures AddWeekdays(day, n) == if day % 7 + n < 5 then day + n else day + n + 2
    decreases n
  {
    if n > 0 {
      NextWeekday(day, n);
      hide AddWeekdays;
      FewWeekdays(if day % 7 < 4 then day + 1 else day + 3, n - 1);
    }
  }

  /** The tenth session of a holding, counting the entry day. */
  function LastSession(entryDay: int): int {
    AddWeekdays(entryDay, HOLDING_SESSIONS - 1)
  }

  lemma ExpiryAndLastSession(entryDay: int)
    requires IsWeekday(entryDay)
    ensures LastSession(entryDay) == entryDay + (if entryDay % 7 == 0 then 11 else 13)
    ensures AddWeekdays(entryDay, MINIMUM_ENTRY_EXPIRY_SESSIONS) == entryDay + (if entryDay % 7 < 3 then 23 else 25)
  {
    hide AddWeekdays;
    OneWeek(entryDay);
    OneWeek(entryDay + 7);
    OneWeek(entryDay + 14);
    WeekdaysCompose(entryDay, 5, 4);
    WeekdaysCompose(entryDay, 5, 12);
    WeekdaysCompose(entryDay + 7, 5, 7);
    WeekdaysCompose(entryDay + 14, 5, 2);
    FewWeekdays(entryDay + 7, 4);
    FewWeekdays(entryDay + 21, 2);
  }

  /** Main result. For a contract no earlier than the minimum, the expiry guard cuts the ten-session holding short
      exactly for an entry on a Tuesday or a Wednesday into a contract that expires on that very minimum; never
      before the tenth. */
  lemma GuardCutsHoldExactly(entryDay: int, expiry: int)
    requires IsWeekday(entryDay) && expiry >= AddWeekdays(entryDay, MINIMUM_ENTRY_EXPIRY_SESSIONS)
    ensures ExpiryExitRequired(Some(expiry), LastSession(entryDay))
       <==> (entryDay % 7 == 1 || entryDay % 7 == 2) && expiry == AddWeekdays(entryDay, MINIMUM_ENTRY_EXPIRY_SESSIONS)
    ensures forall day :: entryDay <= day < LastSession(entryDay) && IsWeekday(day)
              ==> !ExpiryExitRequired(Some(expiry), day)
  {
    ExpiryAndLastSession(entryDay);
  }
}
