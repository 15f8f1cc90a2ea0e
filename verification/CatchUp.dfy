/** The catch-up replay of `application/pipeline/evaluation.py`: every bar closed since the last run is evaluated in
    order, and the engine state is persisted after each of them. */
module CatchUp {
  import opened Numeric
  import opened Indicators
  import opened EngineColumns
  import opened FastPredict
  import opened FastRefinement

  const MINIMUM_CANDLES := 200
  const MAX_CATCH_UP_BARS := 50

  datatype StoredCandle = StoredCandle(timestamp: int, bar: Bar)

  /** `memory` is absent until a symbol has been bootstrapped. */
  datatype EngineState = EngineState(memory: Option<Memory>, lastBar: Option<int>)
  {
    predicate Valid(e: Engine) {
      memory.Some? ==> memory.value.queue.Valid(e)
    }
  }

  type Report = (FastPredictResult, StoredCandle)

  function Bars(candles: seq<StoredCandle>): seq<Bar> {
    seq(|candles|, i requires 0 <= i < |candles| => candles[i].bar)
  }

  // ---------- which bars are new ----------

  /** The position of the first candle with this timestamp. */
  function Position(candles: seq<StoredCandle>, timestamp: int): Option<nat> {
    if candles == [] then None
    else if candles[0].timestamp == timestamp then Some(0)
    else
      match Position(candles[1..], timestamp)
      case None => None
      case Some(p) => Some(p + 1)
  }

  lemma {:induction false} PositionMeaning(candles: seq<StoredCandle>, timestamp: int)
    ensures match Position(candles, timestamp)
            case None => forall i :: 0 <= i < |candles| ==> candles[i].timestamp != timestamp
            case Some(p) => p < |candles| && candles[p].timestamp == timestamp
                            && forall i :: 0 <= i < p ==> candles[i].timestamp != timestamp
  {
    if candles != [] && candles[0].timestamp != timestamp {
      PositionMeaning(candles[1..], timestamp);
      assert forall i :: 1 <= i < |candles| ==> candles[i] == candles[1..][i - 1];
    }
  }

  /** The first bar to evaluate; the newest bar alone when nothing better is known. */
  function FirstNewBar(candles: seq<StoredCandle>, lastBar: Option<int>): (r: nat)
    requires candles != []
    ensures r < |candles|
  {
    var found := if lastBar.None? then None else Position(candles, lastBar.value);
    if found.Some? && found.value + 1 < |candles| then found.value + 1 else |candles| - 1
  }

  method FindNewBarIndices(accumulated: seq<StoredCandle>, lastBar: Option<int>) returns (indices: seq<nat>)
    requires accumulated != []
    ensures var first := FirstNewBar(accumulated, lastBar);
            |indices| == |accumulated| - first && forall i :: 0 <= i < |indices| ==> indices[i] == first + i
  {
    var last := |accumulated| - 1;
    if lastBar.None? {
      return [last];
    }
    PositionMeaning(accumulated, lastBar.value);
    for position := 0 to |accumulated|
      invariant forall i :: 0 <= i < position ==> accumulated[i].timestamp != lastBar.value
    {
      if accumulated[position].timestamp == lastBar.value {
        var after := seq(|accumulated| - position - 1, i requires 0 <= i => position + 1 + i);
        return if after != [] then after else [last];
      }
    }
    return [last];
  }

  // ---------- one run ----------

  /** The memory and the first bar one run starts from. */
  function Plan(m: Maths, e: Engine, candles: seq<StoredCandle>, state: EngineState): (r: (Memory, nat))
    requires candles != [] && state.Valid(e)
    ensures r.0.queue.Valid(e) && r.1 < |candles|
  {
    var newest := |candles| - 1;
    if state.memory.None? then (Bootstrap(m, e, Bars(candles)[..newest]), newest)
    else
      var first := FirstNewBar(candles, state.lastBar);
      (state.memory.value, if |candles| - first > MAX_CATCH_UP_BARS then newest else first)
  }

  /** The reports and the memory after evaluating bars `first` to `stop - 1`. */
  function EvaluateBars(m: Maths, e: Engine, candles: seq<StoredCandle>, memory: Memory, first: nat, stop: nat)
    : (r: (seq<Report>, Memory))
    requires first <= stop <= |candles| && memory.queue.Valid(e)
    ensures |r.0| == stop - first && r.1.queue.Valid(e)
  {
    if stop == first then ([], memory)
    else
      var before := EvaluateBars(m, e, candles, memory, first, stop - 1);
      var result := Evaluate(m, e, Bars(candles)[..stop], before.1);
      (before.0 + [(result, candles[stop - 1])], result.memory)
  }

  predicate NothingToDo(candles: seq<StoredCandle>, state: EngineState) {
    |candles| < MINIMUM_CANDLES || Some(candles[|candles| - 1].timestamp) == state.lastBar
  }

  /** A run that dies after persisting `limit` bars. */
  function RunUpTo(m: Maths, e: Engine, candles: seq<StoredCandle>, state: EngineState, limit: nat)
    : (r: (seq<Report>, EngineState))
    requires state.Valid(e)
    ensures r.1.Valid(e)
  {
    if NothingToDo(candles, state) then ([], state)
    else
      var plan := Plan(m, e, candles, state);
      var stop := if plan.1 + limit < |candles| then plan.1 + limit else |candles|;
      var evaluated := EvaluateBars(m, e, candles, plan.0, plan.1, stop);
      (evaluated.0,
       if stop == plan.1 then state else EngineState(Some(evaluated.1), Some(candles[stop - 1].timestamp)))
  }

  /** A run that completes. */
  function RunOnce(m: Maths, e: Engine, candles: seq<StoredCandle>, state: EngineState): (r: (seq<Report>, EngineState))
    requires state.Valid(e)
    ensures r.1.Valid(e)
  {
    RunUpTo(m, e, candles, state, |candles|)
  }

  /** The engine state of one symbol, with every write it has received. */
  class EngineStateRepository {
    var state: EngineState
    ghost var writes: seq<EngineState>

    constructor ()
      ensures state == EngineState(None, None) && writes == []
    {
      state := EngineState(None, None);
      writes := [];
    }

    method SetState(s: EngineState)
      modifies this
      ensures state == s && writes == old(writes) + [s]
    {
      state := s;
      writes := writes + [s];
    }

    /** Evaluates every bar closed since the last run. The j-th write is the state a run that dies after j bars
        leaves. */
    method EvaluateFromStoredCandles(m: Maths, e: Engine, accumulated: seq<StoredCandle>) returns (results: seq<Report>)
      requires state.Valid(e)
      modifies this
      ensures state.Valid(e)
      ensures (results, state) == RunOnce(m, e, accumulated, old(state))
      ensures |writes| == |old(writes)| + |results| && old(writes) <= writes
      ensures forall j :: 0 < j <= |results| ==>
                writes[|old(writes)| + j - 1] == RunUpTo(m, e, accumulated, old(state), j).1
    {
      hide Evaluate, Bootstrap;
      if |accumulated| < MINIMUM_CANDLES {
        return [];
      }
      if Some(accumulated[|accumulated| - 1].timestamp) == state.lastBar {
        return [];
      }
      var memory;
      var indices: seq<nat>;
      if state.memory.None? {
        memory := BootstrapQueueState(m, e, Bars(accumulated)[..|accumulated| - 1]);
        indices := [|accumulated| - 1];
      } else {
        memory := state.memory.value;
        indices := FindNewBarIndices(accumulated, state.lastBar);
        if |indices| > MAX_CATCH_UP_BARS {
          indices := [|accumulated| - 1];
        }
      }
      ghost var plan := Plan(m, e, accumulated, state);
      assert plan.0 == memory && |indices| == |accumulated| - plan.1;
      assert !NothingToDo(accumulated, state);
      results := EvaluateEach(m, e, accumulated, memory, plan.1, indices);
    }

    /** The loop over the new bars: each is evaluated on everything up to it and its memory is written at once. */
    method EvaluateEach(m: Maths, e: Engine, accumulated: seq<StoredCandle>, start: Memory, ghost first: nat,
                        indices: seq<nat>)
      returns (results: seq<Report>)
      requires state.Valid(e) && accumulated != [] && !NothingToDo(accumulated, state)
      requires Plan(m, e, accumulated, state) == (start, first)
      requires |indices| == |accumulated| - first && forall n :: 0 <= n < |indices| ==> indices[n] == first + n
      modifies this
      ensures state.Valid(e)
      ensures (results, state) == RunOnce(m, e, accumulated, old(state))
      ensures |writes| == |old(writes)| + |results| && old(writes) <= writes
      ensures forall j :: 0 < j <= |results| ==>
                writes[|old(writes)| + j - 1] == RunUpTo(m, e, accumulated, old(state), j).1
    {
      hide Evaluate, Bootstrap, Plan, NothingToDo, FirstNewBar;
      ghost var plan := Plan(m, e, accumulated, state);
      var memory := start;
      results := [];
      for n := 0 to |indices|
        invariant memory.queue.Valid(e)
        invariant |results| == n && (results, memory) == EvaluateBars(m, e, accumulated, plan.0, plan.1, plan.1 + n)
        invariant state == if n == 0 then old(state)
                  else EngineState(Some(memory), Some(accumulated[plan.1 + n - 1].timestamp))
        invariant |writes| == |old(writes)| + n && old(writes) <= writes
        invariant forall j :: 0 < j <= n ==>
                    writes[|old(writes)| + j - 1] == RunUpTo(m, e, accumulated, old(state), j).1
      {
        var index := indices[n];
        assert index == plan.1 + n;
        var result := EvaluateLatestBar(m, e, Bars(accumulated)[..index + 1], memory);
        SetState(EngineState(Some(result.memory), Some(accumulated[index].timestamp)));
        memory := result.memory;
        results := results + [(result, accumulated[index])];
      }
    }
  }

  // ---------- any grouping of arrivals into runs, with crashes ----------

  predicate Distinct(candles: seq<StoredCandle>) {
    forall i, j :: 0 <= i < j < |candles| ==> candles[i].timestamp != candles[j].timestamp
  }

  /** The state of a symbol bootstrapped on its first `k` bars and advanced through bar `p - 1`. */
  ghost predicate Reached(m: Maths, e: Engine, candles: seq<StoredCandle>, k: nat, p: nat, state: EngineState) {
    && k < p <= |candles|
    && state == EngineState(Some(FastRun(m, e, Bars(candles), k, p).1), Some(candles[p - 1].timestamp))
  }

  /** The reports of bars `p` to `n - 1` of the run that never went offline. */
  function Reports(m: Maths, e: Engine, candles: seq<StoredCandle>, k: nat, p: nat, n: nat): (r: seq<Report>)
    requires k <= p <= n <= |candles|
    ensures |r| == n - p
  {
    seq(n - p, i requires 0 <= i < n - p => (FastRun(m, e, Bars(candles), k, n).0[p + i - k], candles[p + i]))
  }

  lemma DistinctPosition(candles: seq<StoredCandle>, p: nat)
    requires Distinct(candles) && p < |candles|
    ensures Position(candles, candles[p].timestamp) == Some(p)
  {
    PositionMeaning(candles, candles[p].timestamp);
  }

  /** Evaluating bars `p` to `n - 1` from the memory at `p` continues the run. */
  lemma {:induction false} EvaluateContinues(m: Maths, e: Engine, candles: seq<StoredCandle>, k: nat, p: nat, n: nat,
                                             upTo: nat)
    requires k <= p <= n <= upTo <= |candles|
    ensures EvaluateBars(m, e, candles[..upTo], FastRun(m, e, Bars(candles), k, p).1, p, n)
         == (Reports(m, e, candles, k, p, n), FastRun(m, e, Bars(candles), k, n).1)
  {
    hide Evaluate, Bootstrap;
    if n > p {
      EvaluateContinues(m, e, candles, k, p, n - 1, upTo);
      assert Bars(candles[..upTo])[..n] == Bars(candles)[..n];
      assert Reports(m, e, candles, k, p, n)
           == Reports(m, e, candles, k, p, n - 1) + [(FastRun(m, e, Bars(candles), k, n).0[n - 1 - k], candles[n - 1])];
    }
  }

  /** A run over the first `n` candles that dies after `limit` bars, from a symbol reached at `p` with a gap of at
      most fifty bars: it reports the next bars in order and stops exactly where a never-interrupted run would be. */
  lemma VisitAdvances(m: Maths, e: Engine, candles: seq<StoredCandle>, k: nat, p: nat, n: nat, limit: nat,
                      state: EngineState)
    requires Distinct(candles) && Reached(m, e, candles, k, p, state)
    requires MINIMUM_CANDLES <= n && p <= n <= |candles| && n - p <= MAX_CATCH_UP_BARS
    ensures var stop := if p + limit < n then p + limit else n;
            var run := RunUpTo(m, e, candles[..n], state, limit);
            run.0 == Reports(m, e, candles, k, p, stop) && Reached(m, e, candles, k, stop, run.1)
  {
    hide FastRun, Evaluate;
    var stop := if p + limit < n then p + limit else n;
    if p < n {
      assert candles[..n][p - 1] == candles[p - 1];
      DistinctPosition(candles[..n], p - 1);
      assert Plan(m, e, candles[..n], state) == (FastRun(m, e, Bars(candles), k, p).1, p);
      EvaluateContinues(m, e, candles, k, p, stop, n);
    }
  }

  /** The first run on `n` candles bootstraps on all but the newest and evaluates that one. */
  lemma FirstVisit(m: Maths, e: Engine, candles: seq<StoredCandle>, n: nat)
    requires MINIMUM_CANDLES <= n <= |candles|
    ensures var run := RunOnce(m, e, candles[..n], EngineState(None, None));
            run.0 == Reports(m, e, candles, n - 1, n - 1, n) && Reached(m, e, candles, n - 1, n, run.1)
  {
    hide Evaluate, Bootstrap;
    assert Bars(candles[..n])[..n - 1] == Bars(candles)[..n - 1];
    EvaluateContinues(m, e, candles, n - 1, n - 1, n, n);
  }

  /** One call of the pipeline when `n` candles are stored; `limit` is where it dies, if it does. */
  datatype Visit = Visit(n: nat, limit: Option<nat>)

  function PositionAfter(p: nat, v: Visit): nat {
    if v.limit.Some? && p + v.limit.value < v.n then p + v.limit.value else v.n
  }

  function FinalPosition(p: nat, visits: seq<Visit>): nat {
    if visits == [] then p else PositionAfter(FinalPosition(p, visits[..|visits| - 1]), visits[|visits| - 1])
  }

  /** Histories only grow, and no visit is more than fifty bars behind. */
  predicate Timely(candles: seq<StoredCandle>, p: nat, visits: seq<Visit>) {
    visits == [] ||
    (var last, at := visits[|visits| - 1], FinalPosition(p, visits[..|visits| - 1]);
     && Timely(candles, p, visits[..|visits| - 1])
     && MINIMUM_CANDLES <= last.n && at <= last.n <= |candles| && last.n - at <= MAX_CATCH_UP_BARS)
  }

  /** All reports of the visits that completed, and the state after all visits. */
  function Visits(m: Maths, e: Engine, candles: seq<StoredCandle>, state: EngineState, visits: seq<Visit>)
    : (r: (seq<Report>, EngineState))
    requires state.Valid(e)
    ensures r.1.Valid(e)
  {
    if visits == [] then ([], state)
    else
      var before, last := Visits(m, e, candles, state, visits[..|visits| - 1]), visits[|visits| - 1];
      var upTo := if last.n <= |candles| then last.n else |candles|;
      match last.limit
      case None => var run := RunOnce(m, e, candles[..upTo], before.1); (before.0 + run.0, run.1)
      case Some(limit) => (before.0, RunUpTo(m, e, candles[..upTo], before.1, limit).1)
  }

  lemma {:induction false} TimelyPosition(candles: seq<StoredCandle>, p: nat, visits: seq<Visit>)
    requires Timely(candles, p, visits) && p <= |candles|
    ensures p <= FinalPosition(p, visits) <= |candles|
  {
    if visits != [] {
      TimelyPosition(candles, p, visits[..|visits| - 1]);
    }
  }

  /** However arrivals are grouped into visits, and wherever visits crash, every bar is advanced exactly once: the
      state is that of the run that never went offline. */
  lemma {:induction false} GroupingIsInvisible(m: Maths, e: Engine, candles: seq<StoredCandle>, k: nat, p: nat,
                                               state: EngineState, visits: seq<Visit>)
    requires Distinct(candles) && Reached(m, e, candles, k, p, state) && state.Valid(e) && Timely(candles, p, visits)
    ensures p <= FinalPosition(p, visits) <= |candles|
    ensures Reached(m, e, candles, k, FinalPosition(p, visits), Visits(m, e, candles, state, visits).1)
  {
    hide FastRun, RunUpTo;
    TimelyPosition(candles, p, visits);
    if visits != [] {
      var before, last := visits[..|visits| - 1], visits[|visits| - 1];
      GroupingIsInvisible(m, e, candles, k, p, state, before);
      var at, s := FinalPosition(p, before), Visits(m, e, candles, state, before).1;
      var limit := if last.limit.Some? then last.limit.value else |candles[..last.n]|;
      VisitAdvances(m, e, candles, k, at, last.n, limit, s);
    }
  }

  predicate NoCrash(visits: seq<Visit>) {
    forall i :: 0 <= i < |visits| ==> visits[i].limit.None?
  }

  /** Without crashes the reports of all visits, put together, are one report per bar, in order. */
  lemma {:induction false} ReportsAreComplete(m: Maths, e: Engine, candles: seq<StoredCandle>, k: nat, p: nat,
                                              state: EngineState, visits: seq<Visit>)
    requires Distinct(candles) && Reached(m, e, candles, k, p, state) && state.Valid(e) && Timely(candles, p, visits)
          && NoCrash(visits)
    ensures k <= p <= FinalPosition(p, visits) <= |candles|
    ensures Visits(m, e, candles, state, visits).0 == Reports(m, e, candles, k, p, FinalPosition(p, visits))
  {
    hide FastRun, RunUpTo, Evaluate;
    TimelyPosition(candles, p, visits);
    if visits != [] {
      var before, last := visits[..|visits| - 1], visits[|visits| - 1];
      ReportsAreComplete(m, e, candles, k, p, state, before);
      GroupingIsInvisible(m, e, candles, k, p, state, before);
      var at, s := FinalPosition(p, before), Visits(m, e, candles, state, before).1;
      VisitAdvances(m, e, candles, k, at, last.n, |candles[..last.n]|, s);
      ReportsJoin(m, e, candles, k, p, at, last.n);
    }
  }

  /** The bars that crashed visits persisted. */
  function Unreported(p: nat, visits: seq<Visit>): int {
    if visits == [] then 0
    else
      var before, last := visits[..|visits| - 1], visits[|visits| - 1];
      Unreported(p, before)
      + (if last.limit.Some? then PositionAfter(FinalPosition(p, before), last) - FinalPosition(p, before) else 0)
  }

  lemma {:induction false} EveryBarReportedOrLost(m: Maths, e: Engine, candles: seq<StoredCandle>, k: nat, p: nat,
                                                  state: EngineState, visits: seq<Visit>)
    requires Distinct(candles) && Reached(m, e, candles, k, p, state) && state.Valid(e) && Timely(candles, p, visits)
    ensures k <= p <= FinalPosition(p, visits) <= |candles| && 0 <= Unreported(p, visits)
    ensures |Visits(m, e, candles, state, visits).0| + Unreported(p, visits) == FinalPosition(p, visits) - p
    ensures Unreported(p, visits) == 0 ==>
              Visits(m, e, candles, state, visits).0 == Reports(m, e, candles, k, p, FinalPosition(p, visits))
  {
    hide FastRun, RunUpTo, Evaluate;
    TimelyPosition(candles, p, visits);
    if visits != [] {
      var before, last := visits[..|visits| - 1], visits[|visits| - 1];
      EveryBarReportedOrLost(m, e, candles, k, p, state, before);
      GroupingIsInvisible(m, e, candles, k, p, state, before);
      var at, s := FinalPosition(p, before), Visits(m, e, candles, state, before).1;
      if last.limit.None? {
        VisitAdvances(m, e, candles, k, at, last.n, |candles[..last.n]|, s);
        ReportsJoin(m, e, candles, k, p, at, last.n);
      }
    }
  }

  /** Main result. The visits that complete report every bar, in order, exactly when no crashed visit persisted a
      bar. */
  lemma ReportsCompleteExactly(m: Maths, e: Engine, candles: seq<StoredCandle>, k: nat, p: nat, state: EngineState,
                               visits: seq<Visit>)
    requires Distinct(candles) && Reached(m, e, candles, k, p, state) && state.Valid(e) && Timely(candles, p, visits)
    ensures k <= p <= FinalPosition(p, visits) <= |candles|
    ensures Visits(m, e, candles, state, visits).0 == Reports(m, e, candles, k, p, FinalPosition(p, visits))
       <==> Unreported(p, visits) == 0
  {
    hide FastRun, RunUpTo, Visits, Unreported;
    EveryBarReportedOrLost(m, e, candles, k, p, state, visits);
  }

  lemma {:induction false} RunGrows(m: Maths, e: Engine, h: seq<Bar>, k: nat, a: nat, n: nat)
    requires k <= a <= n <= |h|
    ensures FastRun(m, e, h, k, a).0 <= FastRun(m, e, h, k, n).0
  {
    hide Evaluate, Bootstrap;
    if a < n {
      RunGrows(m, e, h, k, a, n - 1);
    }
  }

  lemma ReportsJoin(m: Maths, e: Engine, candles: seq<StoredCandle>, k: nat, p: nat, at: nat, n: nat)
    requires k <= p <= at <= n <= |candles|
    ensures Reports(m, e, candles, k, p, at) + Reports(m, e, candles, k, at, n) == Reports(m, e, candles, k, p, n)
  {
    hide FastRun;
    RunGrows(m, e, Bars(candles), k, at, n);
  }

  /** The fifty-bar cap, exactly: a run from `p` reports every new bar if and only if the gap is at most fifty. */
  lemma CapIsExact(m: Maths, e: Engine, candles: seq<StoredCandle>, k: nat, p: nat, n: nat, state: EngineState)
    requires Distinct(candles) && Reached(m, e, candles, k, p, state) && state.Valid(e)
    requires MINIMUM_CANDLES <= n && p <= n <= |candles|
    ensures var run := RunOnce(m, e, candles[..n], state);
            && (run.0 == Reports(m, e, candles, k, p, n) <==> n - p <= MAX_CATCH_UP_BARS)
            && (n - p > MAX_CATCH_UP_BARS ==> |run.0| == 1 && run.0[0].1 == candles[n - 1])
  {
    hide FastRun, Evaluate;
    if n - p <= MAX_CATCH_UP_BARS {
      VisitAdvances(m, e, candles, k, p, n, n, state);
    } else {
      assert candles[..n][p - 1] == candles[p - 1];
      DistinctPosition(candles[..n], p - 1);
      assert FirstNewBar(candles[..n], state.lastBar) == p;
      assert Plan(m, e, candles[..n], state).1 == n - 1;
    }
  }

  /** What a crash does cost: the bars a dying visit persisted are never reported by anyone. */
  lemma CrashedReportsAreLost(m: Maths, e: Engine, candles: seq<StoredCandle>, k: nat, p: nat, n: nat, limit: nat,
                              state: EngineState)
    requires Distinct(candles) && Reached(m, e, candles, k, p, state) && state.Valid(e)
    requires MINIMUM_CANDLES <= n && p + limit <= n <= |candles| && n - p <= MAX_CATCH_UP_BARS
    ensures Visits(m, e, candles, state, [Visit(n, Some(limit)), Visit(n, None)]).0
         == Reports(m, e, candles, k, p + limit, n)
  {
    hide FastRun, RunUpTo;
    var visits := [Visit(n, Some(limit)), Visit(n, None)];
    assert visits[..1] == [visits[0]] && visits[..1][..0] == [];
    VisitAdvances(m, e, candles, k, p, n, limit, state);
    var s := RunUpTo(m, e, candles[..n], state, limit).1;
    VisitAdvances(m, e, candles, k, p + limit, n, |candles[..n]|, s);
    assert Visits(m, e, candles, state, visits[..1][..0]) == ([], state);
    assert Visits(m, e, candles, state, visits[..1]) == ([], s);
  }
}
