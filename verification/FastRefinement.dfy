/** The incremental classifier refines the batch classifier: bootstrapping on a prefix and then carrying the
    memory from bar to bar gives, at every bar, what the batch formulas give on the whole history so far. */
module FastRefinement {
  import opened Numeric
  import opened Indicators
  import opened EngineColumns
  import opened AlphaEngine
  import opened EngineProperties
  import opened FastPredict

  // ---------- one step ----------

  predicate FlagBefore(flags: seq<bool>, b: nat, back: nat)
    requires b <= |flags|
  {
    b >= back && back > 0 && flags[b - back]
  }

  /** The memory is what the batch columns say about the bars before `b`. */
  ghost predicate Tracks(m: Maths, e: Engine, c: Columns, startIndex: nat, start: nat, b: nat, memory: Memory)
    requires c.Valid() && b <= |c.labels|
  {
    var v := EventsFrom(m, e, c, startIndex, start);
    && memory.queue == QueueBefore(m, e, c, startIndex, start, b)
    && memory.signal == (if b == 0 then 0 else v.signal[b - 1])
    && memory.exits.redEntry == SinceLast(v.startShort[..b])
    && memory.exits.greenEntry == SinceLast(v.startLong[..b])
    && memory.exits.window == (FlagBefore(v.changed, b, 3), FlagBefore(v.changed, b, 2), FlagBefore(v.changed, b, 1))
  }

  /** Pine's early flip: a change within three bars of another one, never on the first three bars. */
  predicate EarlyFlip(changed: seq<bool>, bar: nat)
    requires bar < |changed|
  {
    bar >= 3 && changed[bar] && (changed[bar - 1] || changed[bar - 2] || changed[bar - 3])
  }

  ghost predicate FlagsMatch(e: Engine, f: Flags, v: Events, b: nat)
    requires v.Valid(|v.prediction|) && b < |v.prediction|
  {
    && f.prediction == v.prediction[b]
    && f.startLong == v.startLong[b] && f.startShort == v.startShort[b]
    && (DynamicExitsOn(e) ==> f.endLong == v.endLong[b] && f.endShort == v.endShort[b])
    && f.flip == EarlyFlip(v.changed, b)
  }

  /** The change flag of the carried signal agrees with the batch one, which is false at bar 0 by definition. */
  lemma ChangeAgrees(m: Maths, e: Engine, c: Columns, startIndex: nat, start: nat, b: nat)
    requires c.Valid() && EarlyLabelsSilent(c) && b < |c.labels|
    ensures var v := EventsFrom(m, e, c, startIndex, start);
            v.changed[b] == (v.signal[b] != (if b == 0 then 0 else v.signal[b - 1]))
    ensures var v := EventsFrom(m, e, c, startIndex, start);
            v.signal[b] == NextSignal(v.prediction[b], c.filters[b], if b == 0 then 0 else v.signal[b - 1])
  {
    hide QueueBefore, StartLong, StartShort, StrictLong, StrictShort, DynamicExit;
    SignalEntry(Predictions(m, e, c, startIndex, start), c.filters, b);
    if b == 0 {
      SilentSignal(m, e, c, startIndex, start, 0);
    }
  }

  lemma SinceStep(flags: seq<bool>, b: nat)
    requires b < |flags|
    ensures SinceLast(flags[..b + 1]) == Tick(SinceLast(flags[..b]), flags[b])
  {
    assert flags[..b + 1][..b] == flags[..b];
  }

  lemma FlipAgrees(m: Maths, e: Engine, c: Columns, startIndex: nat, start: nat, b: nat)
    requires c.Valid() && EarlyLabelsSilent(c) && b < |c.labels|
    ensures var changed := EventsFrom(m, e, c, startIndex, start).changed;
            EarlyFlip(changed, b) == (changed[b]
                                      && (FlagBefore(changed, b, 3) || FlagBefore(changed, b, 2)
                                          || FlagBefore(changed, b, 1)))
  {
    hide EventsFrom;
    if b < 3 {
      SilentSignal(m, e, c, startIndex, start, b);
    }
  }

  /** The queue, the prediction and the signal of one step. */
  lemma SignalAgrees(m: Maths, e: Engine, c: Columns, startIndex: nat, start: nat, b: nat, memory: Memory)
    requires c.Valid() && EarlyLabelsSilent(c) && start <= b < |c.labels|
    requires memory.queue.Valid(e) && Tracks(m, e, c, startIndex, start, b, memory)
    ensures var v := EventsFrom(m, e, c, startIndex, start);
            var queue := Advance(m, e, c, b, startIndex, memory.queue);
            && queue == QueueBefore(m, e, c, startIndex, start, b + 1)
            && Votes(queue.predictions) == v.prediction[b]
            && NextSignal(v.prediction[b], c.filters[b], memory.signal) == v.signal[b]
            && (v.signal[b] != memory.signal) == v.changed[b]
  {
    hide Advance, SignalState, StrictLong, StrictShort, DynamicExit, StartLong, StartShort, SinceLast;
    ChangeAgrees(m, e, c, startIndex, start, b);
  }

  lemma StartsAgree(e: Engine, c: Columns, signal: seq<int>, b: nat)
    requires c.Valid() && b < |signal| == |c.labels|
    ensures EntrySignals(e, signal[b], Changed(signal)[b], c.kernel, b, c.emaUp[b], c.smaUp[b], c.emaDown[b],
                         c.smaDown[b])
         == (StartLong(e, c, signal)[b], StartShort(e, c, signal)[b])
  {
  }

  /** The exit flags and counters of one step, from the entry columns before it. */
  lemma ExitsAgree(e: Engine, kernel: Kernel, s: ExitState, startLong: seq<bool>, startShort: seq<bool>, changed: bool,
                   b: nat)
    requires b < |startLong| == |startShort| == |kernel.bearishChange| == |kernel.bullishChange|
    requires |kernel.alertBullish| == |kernel.alertBearish| == |startLong|
    requires s.redEntry == SinceLast(startShort[..b]) && s.greenEntry == SinceLast(startLong[..b])
    ensures var r := AdvanceExitState(s, startLong[b], startShort[b], changed, kernel,
                                      BarsSince(kernel.alertBullish), BarsSince(kernel.alertBearish), b);
            && r.0 == DynamicExit(kernel.bearishChange, kernel.alertBearish, startLong)[b]
            && r.1 == DynamicExit(kernel.bullishChange, kernel.alertBullish, startShort)[b]
            && r.3.redEntry == SinceLast(startShort[..b + 1]) && r.3.greenEntry == SinceLast(startLong[..b + 1])
  {
    SinceStep(startLong, b);
    SinceStep(startShort, b);
    hide SinceLast;
  }

  lemma StepTracks(m: Maths, e: Engine, c: Columns, startIndex: nat, start: nat, b: nat, memory: Memory)
    requires c.Valid() && EarlyLabelsSilent(c) && start <= b < |c.labels|
    requires memory.queue.Valid(e) && Tracks(m, e, c, startIndex, start, b, memory)
    ensures var step := Step(m, e, c, b, startIndex, memory);
            && Tracks(m, e, c, startIndex, start, b + 1, step.1)
            && FlagsMatch(e, step.0, EventsFrom(m, e, c, startIndex, start), b)
  {
    hide Advance, Predictions, QueueBefore, SignalState, Changed, StrictLong, StrictShort, DynamicExit, StartLong,
        StartShort,
      SinceLast, BarsSince, EntrySignals, NextSignal, Votes;
    var v := EventsFrom(m, e, c, startIndex, start);
    SignalAgrees(m, e, c, startIndex, start, b, memory);
    StartsAgree(e, c, v.signal, b);
    ExitsAgree(e, c.kernel, memory.exits, v.startLong, v.startShort, v.changed[b], b);
    FlipAgrees(m, e, c, startIndex, start, b);
  }

  // ---------- where the run may start ----------

  /** Before the start bar the memory is blank. */
  lemma BlankTracks(m: Maths, e: Engine, c: Columns, startIndex: nat, start: nat)
    requires c.Valid() && EarlyLabelsSilent(c) && start <= |c.labels|
    ensures Tracks(m, e, c, startIndex, start, start, BLANK)
  {
    hide EventsFrom;
    var v := EventsFrom(m, e, c, startIndex, start);
    forall i | 0 <= i < start
      ensures v.signal[i] == 0 && !v.startLong[i] && !v.startShort[i] && !v.changed[i]
    {
      SilentSignal(m, e, c, startIndex, start, i);
    }
    SinceLastMeaning(v.startLong[..start]);
    SinceLastMeaning(v.startShort[..start]);
  }

  lemma {:induction false} ReplayTracks(m: Maths, e: Engine, c: Columns, startIndex: nat, start: nat, b: nat)
    requires c.Valid() && EarlyLabelsSilent(c) && start <= b <= |c.labels|
    ensures Tracks(m, e, c, startIndex, start, b, Replay(m, e, c, startIndex, start, b))
  {
    if b == start {
      BlankTracks(m, e, c, startIndex, start);
    } else {
      ReplayTracks(m, e, c, startIndex, start, b - 1);
      StepTracks(m, e, c, startIndex, start, b - 1, Replay(m, e, c, startIndex, start, b - 1));
    }
  }

  /** Bar 0 is never a neighbour, so scanning from 1 is scanning from 0. */
  lemma {:induction false} ScanSkipsBarZero(m: Maths, e: Engine, c: Columns, bar: nat, to: nat, s: Scan)
    requires c.Valid() && bar < |c.labels| && to <= |c.labels| && s.queue.Valid(e)
    ensures ScanRange(m, e, c, bar, 1, to, s) == ScanRange(m, e, c, bar, 0, to, s)
  {
    hide Distance, EvictionIndex;
    if to > 1 {
      ScanSkipsBarZero(m, e, c, bar, to - 1, s);
    }
  }

  /** Hence neither starting the queue at bar 1 nor scanning from bar 1 can be told from starting at bar 0. */
  lemma {:induction false} StartAtBarOne(m: Maths, e: Engine, c: Columns, startIndex: nat, start: nat, b: nat)
    requires c.Valid() && b <= |c.labels| && startIndex <= 1 && start <= 1
    ensures QueueBefore(m, e, c, startIndex, start, b) == QueueBefore(m, e, c, 0, 0, b)
  {
    hide ScanRange;
    if b > 1 || (b == 1 && start == 0) {
      StartAtBarOne(m, e, c, startIndex, start, b - 1);
      ScanSkipsBarZero(m, e, c, b - 1, CandidateCount(e, b - 1), Scan(-1.0, QueueBefore(m, e, c, 0, 0, b - 1)));
    } else if b == 1 {
      BarZeroAdmitsNothing(m, e, c);
    }
  }

  lemma BarZeroAdmitsNothing(m: Maths, e: Engine, c: Columns)
    requires c.Valid() && 0 < |c.labels|
    ensures QueueBefore(m, e, c, 0, 0, 1) == EMPTY
  {
    var s := Scan(-1.0, EMPTY);
    assert ScanRange(m, e, c, 0, 0, 0, s) == s;
    assert CandidateCount(e, 0) <= 1;
  }

  lemma EventsAtBarOne(m: Maths, e: Engine, c: Columns, startIndex: nat, start: nat)
    requires c.Valid() && startIndex <= 1 && start <= 1
    ensures EventsFrom(m, e, c, startIndex, start) == EventsFrom(m, e, c, 0, 0)
  {
    hide QueueBefore, EntriesAndExits, SignalState;
    forall b | 0 <= b < |c.labels|
      ensures Predictions(m, e, c, startIndex, start)[b] == Predictions(m, e, c, 0, 0)[b]
    {
      StartAtBarOne(m, e, c, startIndex, start, b + 1);
      if b < start {
        BarZeroAdmitsNothing(m, e, c);
      }
    }
    assert Predictions(m, e, c, startIndex, start) == Predictions(m, e, c, 0, 0);
  }

  // ---------- whole runs ----------

  /** A run: bootstrap on the first `k` bars, then one evaluation per newly closed bar. */
  function FastRun(m: Maths, e: Engine, h: seq<Bar>, k: nat, n: nat): (r: (seq<FastPredictResult>, Memory))
    requires k <= n <= |h|
    ensures |r.0| == n - k && r.1.queue.Valid(e)
  {
    if n == k then ([], Bootstrap(m, e, h[..k]))
    else
      var before := FastRun(m, e, h, k, n - 1);
      var result := Evaluate(m, e, h[..n], before.1);
      (before.0 + [result], result.memory)
  }

  lemma AdvanceCut(m: Maths, e: Engine, c: Columns, b: nat, startIndex: nat, queue: Queue)
    requires c.Valid() && b < |c.labels| && queue.Valid(e)
    ensures Advance(m, e, Cut(c, b + 1), b, startIndex, queue) == Advance(m, e, c, b, startIndex, queue)
  {
    hide ScanRange;
    ScanRangeCut(m, e, c, b, startIndex, CandidateCount(e, b), Scan(-1.0, queue), b + 1);
  }

  lemma DecideCut(e: Engine, c: Columns, b: nat, prediction: int, queue: Queue, memory: Memory)
    requires c.Valid() && b < |c.labels|
    ensures Decide(e, Cut(c, b + 1), b, prediction, queue, memory) == Decide(e, c, b, prediction, queue, memory)
  {
    hide BarsSince, NextSignal;
    BarsSincePrefix(c.kernel.alertBullish, b + 1);
    BarsSincePrefix(c.kernel.alertBearish, b + 1);
    assert |BarsSince(c.kernel.alertBullish)| == |BarsSince(c.kernel.alertBearish)|
         == |c.labels| by { BarsSinceLength(c); }
  }

  /** A step reads only bars up to its own. */
  lemma StepCut(m: Maths, e: Engine, c: Columns, b: nat, startIndex: nat, memory: Memory)
    requires c.Valid() && b < |c.labels| && memory.queue.Valid(e)
    ensures Step(m, e, Cut(c, b + 1), b, startIndex, memory) == Step(m, e, c, b, startIndex, memory)
  {
    hide Advance, Decide;
    AdvanceCut(m, e, c, b, startIndex, memory.queue);
    var queue := Advance(m, e, c, b, startIndex, memory.queue);
    DecideCut(e, c, b, Votes(queue.predictions), queue, memory);
  }

  lemma {:induction false} ReplayCut(m: Maths, e: Engine, c: Columns, startIndex: nat, start: nat, b: nat, n: nat)
    requires c.Valid() && b <= n <= |c.labels|
    ensures Replay(m, e, Cut(c, n), startIndex, start, b) == Replay(m, e, c, startIndex, start, b)
  {
    hide Step;
    if b > start {
      ReplayCut(m, e, c, startIndex, start, b - 1, n);
      var memory := Replay(m, e, c, startIndex, start, b - 1);
      StepCut(m, e, c, b - 1, startIndex, memory);
      StepCut(m, e, Cut(c, n), b - 1, startIndex, memory);
      assert Cut(Cut(c, n), b) == Cut(c, b) by { CutTwice(c, n, b); }
    }
  }

  lemma CutTwice(c: Columns, n: nat, b: nat)
    requires c.Valid() && b <= n <= |c.labels|
    ensures Cut(Cut(c, n), b) == Cut(c, b)
  {
    assert forall f :: 0 <= f < |c.features| ==> c.features[f][..n][..b] == c.features[f][..b];
    assert CutAll(CutAll(c.features, n), b) == CutAll(c.features, b);
    assert c.labels[..n][..b] == c.labels[..b] && c.filters[..n][..b] == c.filters[..b];
    assert c.emaUp[..n][..b] == c.emaUp[..b] && c.emaDown[..n][..b] == c.emaDown[..b];
    assert c.smaUp[..n][..b] == c.smaUp[..b] && c.smaDown[..n][..b] == c.smaDown[..b];
    assert CutKernel(CutKernel(c.kernel, n), b) == CutKernel(c.kernel, b);
  }

  /** Scanning from bar 1 or bar 0 makes the same step. */
  lemma StepAtBarOne(m: Maths, e: Engine, c: Columns, b: nat, startIndex: nat, memory: Memory)
    requires c.Valid() && b < |c.labels| && memory.queue.Valid(e) && startIndex <= 1
    ensures Step(m, e, c, b, startIndex, memory) == Step(m, e, c, b, 0, memory)
  {
    hide ScanRange, Decide;
    ScanSkipsBarZero(m, e, c, b, CandidateCount(e, b), Scan(-1.0, memory.queue));
  }

  lemma {:induction false} ReplayAtBarOne(m: Maths, e: Engine, c: Columns, startIndex: nat, start: nat, b: nat)
    requires c.Valid() && b <= |c.labels| && startIndex <= 1
    ensures Replay(m, e, c, startIndex, start, b) == Replay(m, e, c, 0, start, b)
  {
    hide Step;
    if b > start {
      ReplayAtBarOne(m, e, c, startIndex, start, b - 1);
      StepAtBarOne(m, e, c, b - 1, startIndex, Replay(m, e, c, 0, start, b - 1));
    }
  }

  /** Every scan of the run starts at bar 0, or at bar 1, which is the same. */
  predicate ScansFromStart(e: Engine, length: nat) {
    e.includeFullHistory || length <= e.maxBarsBack + 2
  }

  lemma EarlyLabels(m: Maths, e: Engine, h: seq<Bar>)
    ensures EarlyLabelsSilent(ColumnsOf(m, e, h))
  {
    hide Features, Filters, KernelRegression, Trend;
  }

  /** The memory of a run is one continuous fold from the bootstrap's start bar. */
  lemma {:induction false} RunIsOneFold(m: Maths, e: Engine, h: seq<Bar>, k: nat, n: nat)
    requires k <= n <= |h| && ScansFromStart(e, n)
    ensures FastRun(m, e, h, k, n).1 == Replay(m, e, ColumnsOf(m, e, h), 0, MaxBarsBackIndex(e, k), n)
  {
    hide ColumnsOf, Step, Decide, RegimeNormalized, VolatilityMargin;
    var c, start := ColumnsOf(m, e, h), MaxBarsBackIndex(e, k);
    ColumnsPrefix(m, e, h, n);
    if n == k {
      assert |h[..k]| == k;
      ReplayAtBarOne(m, e, Cut(c, k), StartIndex(e, k), start, k);
      ReplayCut(m, e, c, 0, start, k, k);
    } else {
      RunIsOneFold(m, e, h, k, n - 1);
      var memory := FastRun(m, e, h, k, n - 1).1;
      assert |h[..n]| == n;
      StepAtBarOne(m, e, Cut(c, n), n - 1, StartIndex(e, n), memory);
      StepCut(m, e, c, n - 1, 0, memory);
    }
  }

  ghost predicate ResultMatches(e: Engine, r: FastPredictResult, v: Events, b: nat)
    requires v.Valid(|v.prediction|) && b < |v.prediction|
  {
    && r.prediction == v.prediction[b]
    && r.signal == SignalOf(v.startLong[b], v.startShort[b])
    && (DynamicExitsOn(e) ==> r.endLong == v.endLong[b] && r.endShort == v.endShort[b])
    && r.isEarlySignalFlip == EarlyFlip(v.changed, b)
  }

  /** Bar `b` of a run, against the batch formulas started at the bootstrap's start bar. */
  lemma RunMatchesFold(m: Maths, e: Engine, h: seq<Bar>, k: nat, b: nat)
    requires k <= b < |h| && ScansFromStart(e, b + 1)
    ensures ResultMatches(e, Evaluate(m, e, h[..b + 1], FastRun(m, e, h, k, b).1),
                          EventsFrom(m, e, ColumnsOf(m, e, h), 0, MaxBarsBackIndex(e, k)), b)
  {
    hide ColumnsOf, Step, RegimeNormalized, VolatilityMargin, EventsFrom, Tracks;
    var c, start := ColumnsOf(m, e, h), MaxBarsBackIndex(e, k);
    var memory := FastRun(m, e, h, k, b).1;
    RunIsOneFold(m, e, h, k, b);
    ColumnsPrefix(m, e, h, b + 1);
    assert |h[..b + 1]| == b + 1;
    StepAtBarOne(m, e, Cut(c, b + 1), b, StartIndex(e, b + 1), memory);
    StepCut(m, e, c, b, 0, memory);
    EarlyLabels(m, e, h);
    ReplayTracks(m, e, c, 0, start, b);
    StepTracks(m, e, c, 0, start, b, memory);
  }

  lemma {:induction false} RunResults(m: Maths, e: Engine, h: seq<Bar>, k: nat, n: nat, b: nat)
    requires k <= b < n <= |h|
    ensures FastRun(m, e, h, k, n).0[b - k] == Evaluate(m, e, h[..b + 1], FastRun(m, e, h, k, b).1)
  {
    hide Evaluate, Bootstrap;
    if b < n - 1 {
      RunResults(m, e, h, k, n - 1, b);
    }
  }

  /** Main result 1. With full history on, a run of any length is the batch formulas over one continuous queue
      that starts where the bootstrap started. */
  lemma ContinuousRun(m: Maths, e: Engine, h: seq<Bar>, k: nat, b: nat)
    requires k <= b < |h| && ScansFromStart(e, |h|)
    ensures var run := FastRun(m, e, h, k, b + 1);
            var c, start := ColumnsOf(m, e, h), MaxBarsBackIndex(e, k);
            && Tracks(m, e, c, 0, start, b + 1, run.1)
            && ResultMatches(e, run.0[b - k], EventsFrom(m, e, c, 0, start), b)
  {
    hide Evaluate, ColumnsOf, EventsFrom, ResultMatches, Tracks, Replay;
    EarlyLabels(m, e, h);
    RunIsOneFold(m, e, h, k, b + 1);
    ReplayTracks(m, e, ColumnsOf(m, e, h), 0, MaxBarsBackIndex(e, k), b + 1);
    RunResults(m, e, h, k, b + 1, b);
    RunMatchesFold(m, e, h, k, b);
  }

  lemma BatchIsFromBarZero(m: Maths, e: Engine, h: seq<Bar>, n: nat)
    requires n <= |h| && n <= e.maxBarsBack + 2
    ensures Batch(m, e, ColumnsOf(m, e, h[..n])) == CutEvents(EventsFrom(m, e, ColumnsOf(m, e, h), 0, 0), n)
  {
    hide ColumnsOf, EventsFrom;
    var c := ColumnsOf(m, e, h);
    ColumnsPrefix(m, e, h, n);
    EventsAtBarOne(m, e, Cut(c, n), StartIndex(e, n), MaxBarsBackIndex(e, n));
    EventsCut(m, e, c, 0, 0, n);
  }

  /** Main result 2. On every history of at most `maxBarsBack + 2` bars the run gives, at every bar, what the batch
      gives on the whole history up to that bar, and it carries the batch queue and signal. */
  lemma FastRefinesBatch(m: Maths, e: Engine, h: seq<Bar>, k: nat, b: nat)
    requires k <= b < |h| <= e.maxBarsBack + 2
    ensures var c := ColumnsOf(m, e, h[..b + 1]);
            var run := FastRun(m, e, h, k, b + 1);
            && ResultMatches(e, run.0[b - k], Batch(m, e, c), b)
            && run.1.queue == QueueBefore(m, e, c, StartIndex(e, b + 1), MaxBarsBackIndex(e, b + 1), b + 1)
            && run.1.signal == Batch(m, e, c).signal[b]
  {
    hide Evaluate, ColumnsOf, EventsFrom, Replay, QueueBefore, ScansFromStart;
    var c, n := ColumnsOf(m, e, h), b + 1;
    var start := MaxBarsBackIndex(e, k);
    BatchIsFromBarZero(m, e, h, n);
    EventsAtBarOne(m, e, c, 0, start);
    RunReachesBatch(m, e, h, k, b);
    ColumnsPrefix(m, e, h, n);
    StartAtBarOne(m, e, c, 0, start, n);
    QueueBeforeCut(m, e, c, 0, 0, n, n);
    StartAtBarOne(m, e, Cut(c, n), StartIndex(e, n), MaxBarsBackIndex(e, n), n);
  }

  lemma RunReachesBatch(m: Maths, e: Engine, h: seq<Bar>, k: nat, b: nat)
    requires k <= b < |h| <= e.maxBarsBack + 2
    ensures var c, start := ColumnsOf(m, e, h), MaxBarsBackIndex(e, k);
            var run, v := FastRun(m, e, h, k, b + 1), EventsFrom(m, e, c, 0, start);
            && ResultMatches(e, run.0[b - k], v, b)
            && run.1.queue == QueueBefore(m, e, c, 0, start, b + 1)
            && run.1.signal == v.signal[b]
  {
    hide Evaluate, ColumnsOf, EventsFrom, ResultMatches, Replay, QueueBefore;
    ContinuousRun(m, e, h, k, b);
  }
}
