/** The incremental classifier of `application/fast_predict.py`: it carries a small memory between runs
    and processes only the newest bar. */
module FastPredict {
  import opened Numeric
  import opened Indicators
  import opened EngineColumns
  import opened AlphaEngine

  /** Bars since the last short and long start, and the change flags of the last three bars, oldest first. */
  datatype ExitState = ExitState(redEntry: Option<nat>, greenEntry: Option<nat>, window: (bool, bool, bool))

  /** What is persisted between runs. */
  datatype Memory = Memory(signal: int, queue: Queue, exits: ExitState)

  const BLANK := Memory(0, EMPTY, ExitState(None, None, (false, false, false)))

  datatype Signal = BUY | SELL | NEUTRAL

  datatype FastPredictResult = FastPredictResult(
    signal: Signal, prediction: int, endLong: bool, endShort: bool, isEarlySignalFlip: bool, memory: Memory,
    adx: Num, regimeNormalized: Num, volatilityMargin: Num)

  function EntrySignals(e: Engine, signalNew: int, changed: bool, kernel: Kernel, bar: nat,
                        emaUp: bool, smaUp: bool, emaDown: bool, smaDown: bool): (bool, bool)
    requires bar < |kernel.bullish| == |kernel.bearish|
  {
    var isBullish := if e.useKernelFilter then kernel.bullish[bar] else true;
    var isBearish := if e.useKernelFilter then kernel.bearish[bar] else true;
    var newBuy := signalNew == 1 && emaUp && smaUp && changed;
    var newSell := signalNew == -1 && emaDown && smaDown && changed;
    (newBuy && isBullish && emaUp && smaUp, newSell && isBearish && emaDown && smaDown)
  }

  function Tick(since: Option<nat>, started: bool): Option<nat> {
    if started then Some(0) else if since.Some? then Some(since.value + 1) else None
  }

  /** One bar's exit flags and early-flip flag, from the counters as they stood before the bar. */
  function AdvanceExitState(s: ExitState, startLong: bool, startShort: bool, changed: bool, kernel: Kernel,
                            sinceRedExit: seq<Option<nat>>, sinceGreenExit: seq<Option<nat>>, bar: nat)
    : (r: (bool, bool, bool, ExitState))
    requires bar < |kernel.bearishChange| == |kernel.bullishChange| == |sinceRedExit| == |sinceGreenExit|
  {
    var redBefore := if bar > 0 then sinceRedExit[bar - 1] else None;
    var greenBefore := if bar > 0 then sinceGreenExit[bar - 1] else None;
    var validShortExit := s.redEntry.Some? && redBefore.Some? && redBefore.value > s.redEntry.value;
    var validLongExit := s.greenEntry.Some? && greenBefore.Some? && greenBefore.value > s.greenEntry.value;
    (kernel.bearishChange[bar] && validLongExit,
     kernel.bullishChange[bar] && validShortExit,
     changed && (s.window.0 || s.window.1 || s.window.2),
     ExitState(Tick(s.redEntry, startShort), Tick(s.greenEntry, startLong), (s.window.1, s.window.2, changed)))
  }

  /** The flags one bar produces. */
  datatype Flags = Flags(prediction: int, startLong: bool, startShort: bool, endLong: bool, endShort: bool, flip: bool)

  /** One bar, once its queue is known: the body both the bootstrap loop and the live call share. */
  function Decide(e: Engine, c: Columns, bar: nat, prediction: int, queue: Queue, memory: Memory): (Flags, Memory)
    requires c.Valid() && bar < |c.labels|
  {
    var signalNew := NextSignal(prediction, c.filters[bar], memory.signal);
    var changed := signalNew != memory.signal;
    var starts := EntrySignals(e, signalNew, changed, c.kernel, bar, c.emaUp[bar], c.smaUp[bar], c.emaDown[bar],
                               c.smaDown[bar]);
    var exits := AdvanceExitState(memory.exits, starts.0, starts.1, changed, c.kernel,
                                  BarsSince(c.kernel.alertBullish), BarsSince(c.kernel.alertBearish), bar);
    (Flags(prediction, starts.0, starts.1, exits.0, exits.1, exits.2), Memory(signalNew, queue, exits.3))
  }

  function Step(m: Maths, e: Engine, c: Columns, bar: nat, startIndex: nat, memory: Memory): (r: (Flags, Memory))
    requires c.Valid() && bar < |c.labels| && memory.queue.Valid(e)
    ensures r.1.queue.Valid(e)
  {
    var queue := Advance(m, e, c, bar, startIndex, memory.queue);
    Decide(e, c, bar, Votes(queue.predictions), queue, memory)
  }

  /** The memory after bars `from` to `to - 1`, starting blank. */
  function Replay(m: Maths, e: Engine, c: Columns, startIndex: nat, from: nat, to: nat): (r: Memory)
    requires c.Valid() && to <= |c.labels|
    ensures r.queue.Valid(e)
  {
    if to <= from then BLANK
    else Step(m, e, c, to - 1, startIndex, Replay(m, e, c, startIndex, from, to - 1)).1
  }

  function Bootstrap(m: Maths, e: Engine, h: seq<Bar>): (r: Memory)
    ensures r.queue.Valid(e)
  {
    Replay(m, e, ColumnsOf(m, e, h), StartIndex(e, |h|), MaxBarsBackIndex(e, |h|), |h|)
  }

  function VolatilityMargin(h: seq<Bar>): (r: seq<Num>)
    ensures |r| == |h|
  {
    Zip(Sub, Rma(TrueRanges(h), 1), Rma(TrueRanges(h), 10))
  }

  function SignalOf(startLong: bool, startShort: bool): Signal {
    if startLong then BUY else if startShort then SELL else NEUTRAL
  }

  /** The newest bar of `h`, from the memory of the bars before it. */
  function Evaluate(m: Maths, e: Engine, h: seq<Bar>, memory: Memory): (r: FastPredictResult)
    requires h != [] && memory.queue.Valid(e)
    ensures r.memory.queue.Valid(e)
  {
    var c, bar := ColumnsOf(m, e, h), |h| - 1;
    var step :=
      if bar >= MaxBarsBackIndex(e, |h|) then Step(m, e, c, bar, StartIndex(e, |h|), memory)
      else Decide(e, c, bar, 0, memory.queue, memory);
    FastPredictResult(SignalOf(step.0.startLong, step.0.startShort), step.0.prediction, step.0.endLong, step.0.endShort,
                      step.0.flip, step.1, c.features[3][bar], RegimeNormalized(m, h)[bar], VolatilityMargin(h)[bar])
  }

  /** One bar with its counters computed: the flags and the memory to persist. */
  method AdvanceBar(m: Maths, e: Engine, c: Columns, bar: nat, maxBarsBackIndex: nat, startIndex: nat, memory: Memory)
    returns (flags: Flags, next: Memory)
    requires c.Valid() && bar < |c.labels| && memory.queue.Valid(e)
    ensures (flags, next) == if bar >= maxBarsBackIndex then Step(m, e, c, bar, startIndex, memory)
                             else Decide(e, c, bar, 0, memory.queue, memory)
  {
    hide Advance, EntrySignals, AdvanceExitState, SinceLast, BarsSince;
    var sinceRedExit := ComputeBarsSince(c.kernel.alertBullish);
    var sinceGreenExit := ComputeBarsSince(c.kernel.alertBearish);
    var prediction := 0;
    var queue := memory.queue;
    if bar >= maxBarsBackIndex {
      var distances, predictions := ScanBar(m, e, c, bar, startIndex, memory.queue);
      prediction, queue := Votes(predictions), Queue(distances, predictions);
    }
    var signalNew := if prediction > 0 && c.filters[bar] then 1
                     else if prediction < 0 && c.filters[bar] then -1 else memory.signal;
    var changed := signalNew != memory.signal;
    BarsSinceLength(c);
    var starts := EntrySignals(e, signalNew, changed, c.kernel, bar, c.emaUp[bar], c.smaUp[bar], c.emaDown[bar],
                               c.smaDown[bar]);
    var exits := AdvanceExitState(memory.exits, starts.0, starts.1, changed, c.kernel, sinceRedExit[..],
                                  sinceGreenExit[..], bar);
    flags := Flags(prediction, starts.0, starts.1, exits.0, exits.1, exits.2);
    next := Memory(signalNew, queue, exits.3);
  }

  lemma BarsSinceLength(c: Columns)
    requires c.Valid()
    ensures |BarsSince(c.kernel.alertBullish)| == |BarsSince(c.kernel.alertBearish)| == |c.labels|
  {
  }

  method BootstrapQueueState(m: Maths, e: Engine, historyBeforeNewestBar: seq<Bar>) returns (memory: Memory)
    ensures memory == Bootstrap(m, e, historyBeforeNewestBar)
  {
    hide ColumnsOf, Step, Decide;
    var length := |historyBeforeNewestBar|;
    memory := BLANK;
    if length == 0 {
      return;
    }
    var c := ColumnsOf(m, e, historyBeforeNewestBar);
    var maxBarsBackIndex := MaxBarsBackIndex(e, length);
    for bar := maxBarsBackIndex to length
      invariant memory.queue.Valid(e)
      invariant memory == Replay(m, e, c, StartIndex(e, length), maxBarsBackIndex, bar)
    {
      var _, next := AdvanceBar(m, e, c, bar, maxBarsBackIndex, StartIndex(e, length), memory);
      memory := next;
    }
  }

  method EvaluateLatestBar(m: Maths, e: Engine, history: seq<Bar>, memory: Memory) returns (r: FastPredictResult)
    requires history != [] && memory.queue.Valid(e)
    ensures r == Evaluate(m, e, history, memory)
  {
    hide ColumnsOf, Step, Decide, RegimeNormalized, VolatilityMargin;
    var length := |history|;
    var bar := length - 1;
    var c := ColumnsOf(m, e, history);
    var flags, next := AdvanceBar(m, e, c, bar, MaxBarsBackIndex(e, length), StartIndex(e, length), memory);
    var signal := if flags.startLong then BUY else if flags.startShort then SELL else NEUTRAL;
    r := FastPredictResult(signal, flags.prediction, flags.endLong, flags.endShort, flags.flip, next,
                           c.features[3][bar], RegimeNormalized(m, history)[bar], VolatilityMargin(history)[bar]);
  }
}
