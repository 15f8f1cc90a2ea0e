/** The historical backtest of `application/backtest.py`: one pass of the batch classifier, then a position machine
    of four ordered checks per bar. */
module TradeReplay {
  import opened Numeric
  import opened Indicators
  import opened EngineColumns
  import opened AlphaEngine
  import opened EngineProperties
  import opened FastPredict
  import opened FastRefinement

  datatype Snapshot = Snapshot(adx: Num, regimeNormalized: Num, volatilityMargin: Num,
                               volatilityFilterPassed: bool, regimeFilterPassed: bool, adxFilterPassed: bool)

  datatype HistoricalEvent = HistoricalEvent(
    timestamp: int, marketPrice: real, prediction: int, startLong: bool, startShort: bool, endLong: bool,
    endShort: bool,
    isEarlySignalFlip: bool, snapshot: Snapshot)

  datatype TradeSide = Buy | Sell

  datatype TradeStatus = Open | Closed

  datatype PineTrade = PineTrade(
    side: TradeSide, entryTimestamp: int, entryPrice: real, predictionAtEntry: int, isEarlySignalFlip: bool,
    exitTimestamp: Option<int>, exitPrice: Option<real>, status: TradeStatus, snapshot: Snapshot)

  // ---------- the events ----------

  function ComputeHistoricalEvents(m: Maths, e: Engine, h: seq<Bar>, timestamps: seq<int>): (r: seq<HistoricalEvent>)
    requires |timestamps| == |h|
    ensures |r| == |h|
  {
    var c := ColumnsOf(m, e, h);
    var v := Batch(m, e, c);
    var changed := Changed(SignalState(v.prediction, c.filters));
    seq(|h|, b requires 0 <= b < |h| =>
      HistoricalEvent(timestamps[b], h[b].close, v.prediction[b], v.startLong[b], v.startShort[b], v.endLong[b],
                      v.endShort[b],
                      EarlyFlip(changed, b),
                      Snapshot(c.features[3][b], RegimeNormalized(m, h)[b], VolatilityMargin(h)[b],
                               VolatilityFilter(e, h)[b], RegimeFilter(m, e, h)[b], AdxFilter(e, h)[b])))
  }

  lemma VolatilityMarginPrefix(h: seq<Bar>, n: nat)
    requires n <= |h|
    ensures VolatilityMargin(h[..n]) == VolatilityMargin(h)[..n]
  {
    hide TrueRange, RmaNext, Sub;
    assert TrueRanges(h[..n]) == TrueRanges(h)[..n];
    RmaPrefix(TrueRanges(h), 1, n);
    RmaPrefix(TrueRanges(h), 10, n);
    ZipPrefix(Sub, Rma(TrueRanges(h), 1), Rma(TrueRanges(h), 10), n);
  }

  /** The live result of a bar is the backtest's event of that bar, flags and feature snapshot alike. */
  lemma LiveMatchesBacktest(m: Maths, e: Engine, h: seq<Bar>, timestamps: seq<int>, k: nat, b: nat)
    requires k <= b < |h| == |timestamps| && |h| <= e.maxBarsBack + 2
    ensures var event := ComputeHistoricalEvents(m, e, h, timestamps)[b];
            var r := FastRun(m, e, h, k, b + 1).0[b - k];
            && r.prediction == event.prediction && r.signal == SignalOf(event.startLong, event.startShort)
            && (DynamicExitsOn(e) ==> r.endLong == event.endLong && r.endShort == event.endShort)
            && r.isEarlySignalFlip == event.isEarlySignalFlip
            && r.adx == event.snapshot.adx && r.regimeNormalized == event.snapshot.regimeNormalized
            && r.volatilityMargin == event.snapshot.volatilityMargin
  {
    hide FastRun, ColumnsOf, EventsFrom, RegimeNormalized, VolatilityMargin, VolatilityFilter, RegimeFilter, AdxFilter,
        Evaluate;
    assert h[..|h|] == h;
    FastRefinesBatch(m, e, h, k, b);
    BatchIsFromBarZero(m, e, h, b + 1);
    BatchIsFromBarZero(m, e, h, |h|);
    BatchChanged(m, e, ColumnsOf(m, e, h));
    LiveSnapshot(m, e, h, k, b);
  }

  lemma BatchChanged(m: Maths, e: Engine, c: Columns)
    requires c.Valid()
    ensures Batch(m, e, c).changed == Changed(SignalState(Batch(m, e, c).prediction, c.filters))
  {
  }

  lemma LiveSnapshot(m: Maths, e: Engine, h: seq<Bar>, k: nat, b: nat)
    requires k <= b < |h|
    ensures var r := FastRun(m, e, h, k, b + 1).0[b - k];
            && r.adx == ColumnsOf(m, e, h).features[3][b]
            && r.regimeNormalized == RegimeNormalized(m, h)[b] && r.volatilityMargin == VolatilityMargin(h)[b]
  {
    hide ColumnsOf, Step, Decide, RegimeNormalized, VolatilityMargin;
    RunResults(m, e, h, k, b + 1, b);
    ColumnsPrefix(m, e, h, b + 1);
    RegimeNormalizedPrefix(m, h, b + 1);
    VolatilityMarginPrefix(h, b + 1);
  }

  // ---------- the position machine ----------

  /** A closed trade by its bars. */
  datatype Leg = Leg(side: TradeSide, entry: nat, exit: nat)

  datatype Position = Position(side: TradeSide, entry: nat)

  datatype ReplayState = ReplayState(legs: seq<Leg>, current: Option<Position>)

  function Enter(s: ReplayState, starts: bool, side: TradeSide, bar: nat): ReplayState {
    if starts then s.(current := Some(Position(side, bar))) else s
  }

  function Leave(s: ReplayState, ends: bool, side: TradeSide, bar: nat): ReplayState {
    if ends && s.current.Some? && s.current.value.side == side then
      ReplayState(s.legs + [Leg(side, s.current.value.entry, bar)], None)
    else s
  }

  function ReplayBar(s: ReplayState, event: HistoricalEvent, bar: nat): ReplayState {
    var afterLongStart := Enter(s, event.startLong, Buy, bar);
    var afterLongEnd := Leave(afterLongStart, event.endLong, Buy, bar);
    var afterShortStart := Enter(afterLongEnd, event.startShort, Sell, bar);
    Leave(afterShortStart, event.endShort, Sell, bar)
  }

  function ReplayAll(events: seq<HistoricalEvent>): ReplayState {
    if events == [] then ReplayState([], None)
    else ReplayBar(ReplayAll(events[..|events| - 1]), events[|events| - 1], |events| - 1)
  }

  function ClosedTrade(events: seq<HistoricalEvent>, leg: Leg): PineTrade
    requires leg.entry < |events| && leg.exit < |events|
  {
    var entry, exit := events[leg.entry], events[leg.exit];
    PineTrade(leg.side, entry.timestamp, entry.marketPrice, entry.prediction, entry.isEarlySignalFlip,
              Some(exit.timestamp), Some(exit.marketPrice), Closed, entry.snapshot)
  }

  function OpenPosition(side: TradeSide, event: HistoricalEvent): PineTrade {
    PineTrade(side, event.timestamp, event.marketPrice, event.prediction, event.isEarlySignalFlip, None, None, Open,
              event.snapshot)
  }

  function CloseTrade(current: PineTrade, exit: HistoricalEvent): PineTrade {
    current.(exitTimestamp := Some(exit.timestamp), exitPrice := Some(exit.marketPrice), status := Closed)
  }

  function OpenTrade(events: seq<HistoricalEvent>, p: Position): PineTrade
    requires p.entry < |events|
  {
    var entry := events[p.entry];
    PineTrade(p.side, entry.timestamp, entry.marketPrice, entry.prediction, entry.isEarlySignalFlip, None, None, Open,
              entry.snapshot)
  }

  predicate InRange(events: seq<HistoricalEvent>, s: ReplayState) {
    && (forall x :: 0 <= x < |s.legs| ==> s.legs[x].entry < |events| && s.legs[x].exit < |events|)
    && (s.current.Some? ==> s.current.value.entry < |events|)
  }

  function ClosedTrades(events: seq<HistoricalEvent>, legs: seq<Leg>): seq<PineTrade>
    requires InRange(events, ReplayState(legs, None))
  {
    seq(|legs|, x requires 0 <= x < |legs| => ClosedTrade(events, legs[x]))
  }

  // ---------- which trades come out ----------

  /** Bar `j` closes the BUY of bar `i`: read off the flags alone. */
  predicate ClosesBuy(events: seq<HistoricalEvent>, i: nat, j: nat) {
    && i <= j < |events| && events[i].startLong && events[j].endLong
    && (forall k :: i <= k < j ==> !events[k].endLong && !events[k].startShort)
    && (forall k :: i < k <= j ==> !events[k].startLong)
  }

  /** Bar `j` closes the SELL of bar `i`; on one bar a long start comes before a short end and is overtaken by a
      short start. */
  predicate ClosesSell(events: seq<HistoricalEvent>, i: nat, j: nat) {
    && i <= j < |events| && events[i].startShort && events[j].endShort
    && (forall k :: i <= k < j ==> !events[k].endShort)
    && (forall k :: i < k <= j ==> !events[k].startLong && !events[k].startShort)
  }

  predicate Closes(events: seq<HistoricalEvent>, leg: Leg) {
    match leg.side
    case Buy => ClosesBuy(events, leg.entry, leg.exit)
    case Sell => ClosesSell(events, leg.entry, leg.exit)
  }

  /** The position of bar `i` is still running after the last bar. */
  predicate Runs(events: seq<HistoricalEvent>, p: Position) {
    && p.entry < |events|
    && match p.side
       case Buy =>
         && events[p.entry].startLong
         && (forall k :: p.entry <= k < |events| ==> !events[k].endLong && !events[k].startShort)
         && (forall k :: p.entry < k < |events| ==> !events[k].startLong)
       case Sell =>
         && events[p.entry].startShort
         && (forall k :: p.entry <= k < |events| ==> !events[k].endShort)
         && (forall k :: p.entry < k < |events| ==> !events[k].startLong && !events[k].startShort)
  }

  /** Exit order; on one bar the BUY is scored before the SELL. */
  predicate Before(a: Leg, b: Leg) {
    a.exit < b.exit || (a.exit == b.exit && a.side == Buy && b.side == Sell)
  }

  ghost predicate AllClose(events: seq<HistoricalEvent>, legs: seq<Leg>) {
    forall x :: 0 <= x < |legs| ==> Closes(events, legs[x])
  }

  predicate Ordered(legs: seq<Leg>) {
    forall x, y :: 0 <= x < y < |legs| ==> Before(legs[x], legs[y])
  }

  ghost predicate Complete(events: seq<HistoricalEvent>, s: ReplayState) {
    && (forall leg: Leg :: Closes(events, leg) ==> leg in s.legs)
    && (forall p: Position :: Runs(events, p) ==> s.current == Some(p))
  }

  lemma {:induction false} CurrentRuns(events: seq<HistoricalEvent>)
    ensures var s := ReplayAll(events); s.current.Some? ==> Runs(events, s.current.value)
  {
    if events != [] {
      CurrentRuns(events[..|events| - 1]);
    }
  }

  lemma LongerHistory(events: seq<HistoricalEvent>, leg: Leg, n: nat)
    requires n <= |events| && Closes(events[..n], leg)
    ensures Closes(events, leg)
  {
  }

  /** The legs one bar adds. */
  function Added(s: ReplayState, event: HistoricalEvent, bar: nat): (r: seq<Leg>)
    ensures ReplayBar(s, event, bar).legs == s.legs + r
    ensures Ordered(r) && forall x :: 0 <= x < |r| ==> r[x].exit == bar
  {
    var long := if event.endLong && (event.startLong || (s.current.Some? && s.current.value.side == Buy))
                then [Leg(Buy, if event.startLong then bar else s.current.value.entry, bar)] else [];
    var short := if event.endShort && (event.startShort
                                       || (!event.startLong && s.current.Some? && s.current.value.side == Sell))
                 then [Leg(Sell, if event.startShort then bar else s.current.value.entry, bar)] else [];
    long + short
  }

  lemma AddedClose(events: seq<HistoricalEvent>, x: nat)
    requires events != []
    requires var n := |events| - 1; x < |Added(ReplayAll(events[..n]), events[n], n)|
    ensures var n := |events| - 1; Closes(events, Added(ReplayAll(events[..n]), events[n], n)[x])
  {
    CurrentRuns(events[..|events| - 1]);
  }

  lemma {:induction false} ReplaySound(events: seq<HistoricalEvent>)
    ensures AllClose(events, ReplayAll(events).legs) && Ordered(ReplayAll(events).legs)
  {
    hide ReplayBar, Added, Closes;
    if events != [] {
      var n := |events| - 1;
      var before := ReplayAll(events[..n]);
      var added := Added(before, events[n], n);
      ReplaySound(events[..n]);
      forall x | 0 <= x < |before.legs|
        ensures Closes(events, before.legs[x]) && before.legs[x].exit < n
      {
        LongerHistory(events, before.legs[x], n);
        CloseIsInside(events[..n], before.legs[x]);
      }
      forall x | 0 <= x < |added|
        ensures Closes(events, added[x])
      {
        AddedClose(events, x);
      }
      assert ReplayAll(events).legs == before.legs + added;
    }
  }

  lemma CloseIsInside(events: seq<HistoricalEvent>, leg: Leg)
    requires Closes(events, leg)
    ensures leg.entry <= leg.exit < |events|
  {
  }

  lemma {:induction false} ReplayComplete(events: seq<HistoricalEvent>)
    ensures Complete(events, ReplayAll(events))
  {
    if events != [] {
      var n := |events| - 1;
      var s, t := ReplayAll(events[..n]), ReplayAll(events);
      ReplayComplete(events[..n]);
      forall leg: Leg | Closes(events, leg)
        ensures leg in t.legs
      {
        if leg.exit < n {
          assert Closes(events[..n], leg);
        } else if leg.entry < n {
          assert Runs(events[..n], Position(leg.side, leg.entry));
        }
      }
      forall p: Position | Runs(events, p)
        ensures t.current == Some(p)
      {
        if p.entry < n {
          assert Runs(events[..n], p);
        }
      }
    }
  }

  /** Main result. The closed trades are exactly the pairs of bars the flags single out, in exit order, each once;
      a trade is left open exactly when its position runs to the last bar. */
  lemma ReplayExactly(events: seq<HistoricalEvent>, leg: Leg, p: Position)
    ensures leg in ReplayAll(events).legs <==> Closes(events, leg)
    ensures ReplayAll(events).current == Some(p) <==> Runs(events, p)
  {
    ReplaySound(events);
    CurrentRuns(events);
    ReplayComplete(events);
  }

  lemma ReplayOrdered(events: seq<HistoricalEvent>, x: nat, y: nat)
    requires x < y < |ReplayAll(events).legs|
    ensures Before(ReplayAll(events).legs[x], ReplayAll(events).legs[y])
  {
    ReplaySound(events);
  }

  /** No two trades overlap: each enters no earlier than the trade scored before it exits. */
  lemma NoOverlap(events: seq<HistoricalEvent>, x: nat, y: nat)
    requires x < y < |ReplayAll(events).legs|
    ensures var a, b := ReplayAll(events).legs[x], ReplayAll(events).legs[y];
            a.exit <= b.entry && (a.side == b.side ==> a.exit < b.entry)
  {
    ReplaySound(events);
    var a, b := ReplayAll(events).legs[x], ReplayAll(events).legs[y];
    assert Closes(events, a) && Closes(events, b) && Before(a, b);
  }

  lemma NoTrades(events: seq<HistoricalEvent>)
    ensures ClosedTrades(events, []) == []
  {
  }

  lemma EnterRenders(events: seq<HistoricalEvent>, s: ReplayState, starts: bool, side: TradeSide, bar: nat)
    requires InRange(events, s) && bar < |events|
    ensures var t := Enter(s, starts, side, bar);
            && InRange(events, t) && t.legs == s.legs
            && (if starts then t.current.Some? && OpenTrade(events, t.current.value) == OpenPosition(side, events[bar])
                else t.current == s.current)
  {
  }

  lemma LeaveRenders(events: seq<HistoricalEvent>, s: ReplayState, ends: bool, side: TradeSide, bar: nat)
    requires InRange(events, s) && bar < |events|
    ensures var t := Leave(s, ends, side, bar);
            && InRange(events, t)
            && (if ends && s.current.Some? && s.current.value.side == side then
                  t.current.None? && ClosedTrades(events, t.legs)
                                     == ClosedTrades(events, s.legs)
                                         + [CloseTrade(OpenTrade(events, s.current.value), events[bar])]
                else t == s)
  {
  }

  method ReplayPineBacktest(events: seq<HistoricalEvent>) returns (trades: seq<PineTrade>)
    ensures InRange(events, ReplayAll(events))
    ensures var s := ReplayAll(events);
            trades == ClosedTrades(events, s.legs)
                + (if s.current.Some? then [OpenTrade(events, s.current.value)] else [])
  {
    hide Enter, Leave, ClosedTrades, CloseTrade, OpenPosition;
    assert ClosedTrades(events, []) == [] by { NoTrades(events); }
    trades := [];
    var current: Option<PineTrade> := None;
    ghost var state := ReplayState([], None);
    for bar := 0 to |events|
      invariant state == ReplayAll(events[..bar]) && InRange(events, state)
      invariant trades == ClosedTrades(events, state.legs)
      invariant current == if state.current.Some? then Some(OpenTrade(events, state.current.value)) else None
    {
      assert events[..bar + 1][..bar] == events[..bar];
      var event := events[bar];
      if event.startLong {
        current := Some(OpenPosition(Buy, event));
      }
      EnterRenders(events, state, event.startLong, Buy, bar);
      state := Enter(state, event.startLong, Buy, bar);
      if event.endLong && current.Some? && current.value.side == Buy {
        trades := trades + [CloseTrade(current.value, event)];
        current := None;
      }
      LeaveRenders(events, state, event.endLong, Buy, bar);
      state := Leave(state, event.endLong, Buy, bar);
      if event.startShort {
        current := Some(OpenPosition(Sell, event));
      }
      EnterRenders(events, state, event.startShort, Sell, bar);
      state := Enter(state, event.startShort, Sell, bar);
      if event.endShort && current.Some? && current.value.side == Sell {
        trades := trades + [CloseTrade(current.value, event)];
        current := None;
      }
      LeaveRenders(events, state, event.endShort, Sell, bar);
      state := Leave(state, event.endShort, Sell, bar);
    }
    assert events[..|events|] == events;
    if current.Some? {
      trades := trades + [current.value];
    }
  }

  // ---------- trades of the classifier ----------

  /** With the deployed exits and the kernel filter, every closed trade of the classifier exits after it enters. */
  lemma TradesLastABar(m: Maths, e: Engine, h: seq<Bar>, timestamps: seq<int>, leg: Leg)
    requires |timestamps| == |h| && e.useKernelFilter && DynamicExitsOn(e)
    requires leg in ReplayAll(ComputeHistoricalEvents(m, e, h, timestamps)).legs
    ensures leg.entry < leg.exit
  {
    hide ColumnsOf, EventsFrom, RegimeNormalized, VolatilityMargin, VolatilityFilter, RegimeFilter, AdxFilter;
    var events := ComputeHistoricalEvents(m, e, h, timestamps);
    ReplayExactly(events, leg, Position(Buy, 0));
    EntryExcludesExit(m, e, h, StartIndex(e, |h|), MaxBarsBackIndex(e, |h|), leg.entry);
  }
}
