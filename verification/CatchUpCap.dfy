/** What the fifty-bar cap of `application/pipeline/evaluation.py` costs: beyond it the skipped bars are missing from
    the engine state for good. */
module CatchUpCap {
  import opened Numeric
  import opened Indicators
  import opened EngineColumns
  import opened AlphaEngine
  import opened FastPredict
  import opened FastRefinement
  import opened RefinementLimit
  import opened CatchUp

  /** One run over `n` candles always takes a symbol from bar `p` to where an uninterrupted run would be, for every
      engine with this `maxBarsBack` and full history on. */
  ghost predicate AlwaysCatchesUp(maxBarsBack: nat, k: nat, p: nat, n: nat) {
    forall m: Maths, e: Engine, candles: seq<StoredCandle>, state: EngineState |
      && e.maxBarsBack == maxBarsBack && e.includeFullHistory && |candles| == n
      && Distinct(candles) && state.Valid(e) && Reached(m, e, candles, k, p, state) ::
      Reached(m, e, candles, k, n, RunOnce(m, e, candles, state).1)
  }

  // ---------- within the cap ----------

  lemma CatchesUpWithin(m: Maths, e: Engine, candles: seq<StoredCandle>, k: nat, p: nat, state: EngineState)
    requires Distinct(candles) && state.Valid(e) && Reached(m, e, candles, k, p, state)
    requires MINIMUM_CANDLES <= |candles| && |candles| - p <= MAX_CATCH_UP_BARS
    ensures Reached(m, e, candles, k, |candles|, RunOnce(m, e, candles, state).1)
  {
    hide FastRun, RunUpTo;
    assert candles[..|candles|] == candles;
    VisitAdvances(m, e, candles, k, p, |candles|, |candles|, state);
  }

  // ---------- beyond it ----------

  /** The memory after a run that skips to the newest bar. */
  lemma SkippedState(m: Maths, e: Engine, candles: seq<StoredCandle>, k: nat, p: nat, state: EngineState)
    requires Distinct(candles) && state.Valid(e) && Reached(m, e, candles, k, p, state)
    requires MINIMUM_CANDLES <= |candles| && |candles| - p > MAX_CATCH_UP_BARS
    ensures RunOnce(m, e, candles, state).1
         == EngineState(Some(Evaluate(m, e, Bars(candles), FastRun(m, e, Bars(candles), k, p).1).memory),
                        Some(candles[|candles| - 1].timestamp))
  {
    hide FastRun, Evaluate, Bootstrap;
    DistinctPosition(candles, p - 1);
    assert FirstNewBar(candles, state.lastBar) == p;
    var plan := Plan(m, e, candles, state);
    assert plan == (FastRun(m, e, Bars(candles), k, p).1, |candles| - 1);
    assert Bars(candles)[..|candles|] == Bars(candles);
    assert EvaluateBars(m, e, candles, plan.0, plan.1, |candles| - 1) == ([], plan.0);
    assert EvaluateBars(m, e, candles, plan.0, plan.1, |candles|).1 == Evaluate(m, e, Bars(candles), plan.0).memory;
  }

  // ---------- an engine without candidates has nothing to miss ----------

  lemma NothingScanned(m: Maths, e: Engine, c: Columns, bar: nat, startIndex: nat)
    requires e.maxBarsBack <= 1 && c.Valid() && bar < |c.labels|
    ensures Advance(m, e, c, bar, startIndex, EMPTY) == EMPTY
  {
    var s := Scan(-1.0, EMPTY);
    assert ScanRange(m, e, c, bar, startIndex, 0, s) == s;
  }

  lemma BlankStep(m: Maths, e: Engine, c: Columns, bar: nat, startIndex: nat)
    requires e.maxBarsBack <= 1 && c.Valid() && bar < |c.labels|
    ensures Step(m, e, c, bar, startIndex, BLANK).1 == BLANK && Decide(e, c, bar, 0, EMPTY, BLANK).1 == BLANK
  {
    hide Advance, SinceLast;
    NothingScanned(m, e, c, bar, startIndex);
    BarsSinceLength(c);
  }

  lemma {:induction false} BlankReplay(m: Maths, e: Engine, c: Columns, startIndex: nat, from: nat, to: nat)
    requires e.maxBarsBack <= 1 && c.Valid() && to <= |c.labels|
    ensures Replay(m, e, c, startIndex, from, to) == BLANK
  {
    hide Step;
    if to > from {
      BlankReplay(m, e, c, startIndex, from, to - 1);
      BlankStep(m, e, c, to - 1, startIndex);
    }
  }

  lemma BlankEvaluation(m: Maths, e: Engine, h: seq<Bar>)
    requires e.maxBarsBack <= 1 && h != []
    ensures Evaluate(m, e, h, BLANK).memory == BLANK
  {
    hide ColumnsOf, Step, Decide, RegimeNormalized, VolatilityMargin;
    BlankStep(m, e, ColumnsOf(m, e, h), |h| - 1, StartIndex(e, |h|));
  }

  lemma {:induction false} BlankRun(m: Maths, e: Engine, h: seq<Bar>, k: nat, n: nat)
    requires e.maxBarsBack <= 1 && k <= n <= |h|
    ensures FastRun(m, e, h, k, n).1 == BLANK
  {
    hide ColumnsOf, Replay, Evaluate;
    if n == k {
      BlankReplay(m, e, ColumnsOf(m, e, h[..k]), StartIndex(e, k), MaxBarsBackIndex(e, k), k);
    } else {
      BlankRun(m, e, h, k, n - 1);
      BlankEvaluation(m, e, h[..n]);
    }
  }

  lemma NothingToMiss(m: Maths, e: Engine, candles: seq<StoredCandle>, k: nat, p: nat, state: EngineState)
    requires e.maxBarsBack <= 1 && Distinct(candles) && state.Valid(e) && Reached(m, e, candles, k, p, state)
    requires MINIMUM_CANDLES <= |candles| && |candles| - p > MAX_CATCH_UP_BARS
    ensures Reached(m, e, candles, k, |candles|, RunOnce(m, e, candles, state).1)
  {
    hide FastRun, RunUpTo, Evaluate;
    SkippedState(m, e, candles, k, p, state);
    BlankRun(m, e, Bars(candles), k, p);
    BlankRun(m, e, Bars(candles), k, |candles|);
    BlankEvaluation(m, e, Bars(candles));
  }

  // ---------- with candidates the skipped bars are missing ----------

  function FlatCandles(n: nat): seq<StoredCandle> {
    seq(n, i => StoredCandle(i, ZERO_BAR))
  }

  /** Room for every neighbour of the whole history. */
  function RoomyEngine(maxBarsBack: nat, n: nat): Engine {
    DEFAULTS.(neighborsCount := TotalAdmitted(maxBarsBack, 0, n), maxBarsBack := maxBarsBack, featureCount := 0,
              includeFullHistory := true)
  }

  /** A run that evaluates the newest bar alone has the neighbours of bar `p` and those of the newest bar. */
  lemma SkippedQueue(m: Maths, maxBarsBack: nat, k: nat, p: nat, n: nat)
    requires k < p < n
    ensures var e, h := RoomyEngine(maxBarsBack, n), Bars(FlatCandles(n));
            |Evaluate(m, e, h, FastRun(m, e, h, k, p).1).memory.queue.predictions|
            == TotalAdmitted(maxBarsBack, MaxBarsBackIndex(e, k), p)
                + Admitted(if maxBarsBack < n then maxBarsBack else n)
  {
    hide ColumnsOf, FastRun, ScanRange, QueueBefore, RegimeNormalized, VolatilityMargin, Decide, TotalAdmitted,
        Admitted;
    var e, h := RoomyEngine(maxBarsBack, n), Bars(FlatCandles(n));
    var c, start := ColumnsOf(m, e, h), MaxBarsBackIndex(e, k);
    EnoughRoom(maxBarsBack, start, p, n);
    RunQueue(m, e, h, k, p);
    QueueCounts(m, e, c, start, p);
    ScanCounts(m, e, c, n - 1, CandidateCount(e, n - 1), Scan(-1.0, FastRun(m, e, h, k, p).1.queue));
    DecideKeepsQueue(e, c, n - 1, FastRun(m, e, h, k, p).1, Advance(m, e, c, n - 1, 0, FastRun(m, e, h, k, p).1.queue));
  }

  lemma DecideKeepsQueue(e: Engine, c: Columns, bar: nat, memory: Memory, queue: Queue)
    requires c.Valid() && bar < |c.labels|
    ensures Decide(e, c, bar, Votes(queue.predictions), queue, memory).1.queue == queue
  {
    hide SinceLast;
    BarsSinceLength(c);
  }

  lemma EnoughRoom(maxBarsBack: nat, start: nat, p: nat, n: nat)
    requires start <= p < n
    ensures TotalAdmitted(maxBarsBack, start, p) + Admitted(if maxBarsBack < n then maxBarsBack else n)
            <= TotalAdmitted(maxBarsBack, start, n) <= TotalAdmitted(maxBarsBack, 0, n)
    ensures maxBarsBack >= 2 && 3 <= n && p + 1 < n ==>
              TotalAdmitted(maxBarsBack, start, p) + Admitted(if maxBarsBack < n then maxBarsBack else n)
              < TotalAdmitted(maxBarsBack, start, n)
  {
    TotalSplits(maxBarsBack, 0, start, n);
    TotalSplits(maxBarsBack, start, p, n);
    TotalSplits(maxBarsBack, p, n - 1, n);
    assert TotalAdmitted(maxBarsBack, n - 1, n - 1) == 0;
    assert TotalAdmitted(maxBarsBack, n - 1, n) == Admitted(if maxBarsBack < n then maxBarsBack else n);
    if maxBarsBack >= 2 && 3 <= n && p + 1 < n {
      AdmittedPositive(if maxBarsBack < n - 1 then maxBarsBack else n - 1);
    }
  }

  lemma FallsBehind(maxBarsBack: nat, k: nat, p: nat, n: nat)
    requires maxBarsBack >= 2 && k < p && MINIMUM_CANDLES <= n && n - p > MAX_CATCH_UP_BARS
    ensures !AlwaysCatchesUp(maxBarsBack, k, p, n)
  {
    hide ColumnsOf, FastRun, Evaluate, RunUpTo, QueueBefore, TotalAdmitted, Admitted;
    var m := Maths(x => x, x => x, x => x, (x, y) => x);
    var e, candles := RoomyEngine(maxBarsBack, n), FlatCandles(n);
    var h, start := Bars(candles), MaxBarsBackIndex(e, k);
    var state := EngineState(Some(FastRun(m, e, h, k, p).1), Some(candles[p - 1].timestamp));
    assert Reached(m, e, candles, k, p, state) && Distinct(candles);
    SkippedState(m, e, candles, k, p, state);
    SkippedQueue(m, maxBarsBack, k, p, n);
    RunQueue(m, e, h, k, n);
    EnoughRoom(maxBarsBack, start, p, n);
    QueueCounts(m, e, ColumnsOf(m, e, h), start, n);
    assert !Reached(m, e, candles, k, n, RunOnce(m, e, candles, state).1);
  }

  /** Main result. One run always reaches the state of the uninterrupted run exactly when it is at most fifty bars
      behind, or no bar but bar 0 is ever a candidate. */
  lemma CapIsExactForTheState(maxBarsBack: nat, k: nat, p: nat, n: nat)
    requires k < p <= n && MINIMUM_CANDLES <= n
    ensures AlwaysCatchesUp(maxBarsBack, k, p, n) <==> n - p <= MAX_CATCH_UP_BARS || maxBarsBack <= 1
  {
    hide FastRun, RunUpTo, Reached;
    if n - p <= MAX_CATCH_UP_BARS || maxBarsBack <= 1 {
      forall m: Maths, e: Engine, candles: seq<StoredCandle>, state: EngineState |
        && e.maxBarsBack == maxBarsBack && e.includeFullHistory && |candles| == n
        && Distinct(candles) && state.Valid(e) && Reached(m, e, candles, k, p, state)
        ensures Reached(m, e, candles, k, n, RunOnce(m, e, candles, state).1)
      {
        if n - p <= MAX_CATCH_UP_BARS {
          CatchesUpWithin(m, e, candles, k, p, state);
        } else {
          NothingToMiss(m, e, candles, k, p, state);
        }
      }
    } else {
      FallsBehind(maxBarsBack, k, p, n);
    }
  }
}
