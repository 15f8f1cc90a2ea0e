/** The batch classifier of `alpha_engine.py`: one nearest-neighbour queue that lives across all bars,
    the signal it votes for, and the entry and exit flags of every bar. */
module AlphaEngine {
  import opened Numeric
  import opened Indicators
  import opened EngineColumns

  // ---------- the neighbour queue ----------

  /** The queue: two lists of equal length, oldest neighbour first. */
  datatype Queue = Queue(distances: seq<real>, predictions: seq<int>)
  {
    predicate Valid(e: Engine) {
      |distances| == |predictions| <= e.neighborsCount
    }
  }

  const EMPTY := Queue([], [])

  /** The sum over the first `count` features; undefined as soon as one entry is. */
  function Distance(m: Maths, c: Columns, bar: nat, i: nat, count: nat): Num
    requires c.Valid() && bar < |c.labels| && i < |c.labels| && count <= |c.features|
  {
    if count == 0 then Fin(0.0)
    else
      var total := Distance(m, c, bar, i, count - 1);
      var current, historical := c.features[count - 1][bar], c.features[count - 1][i];
      if total.NaN? || current.NaN? || historical.NaN? then NaN
      else Fin(total.v + m.ln(1.0 + Abs(current.v - historical.v)))
  }

  function FeaturesUsed(e: Engine, c: Columns): (k: nat)
    ensures k <= |c.features|
  {
    if e.featureCount < |c.features| then e.featureCount else |c.features|
  }

  /** Three quarters of the neighbour count, rounded to the nearest integer, ties to even. */
  function EvictionIndex(neighborsCount: nat): (r: nat)
    ensures r <= neighborsCount
  {
    var whole, rest := 3 * neighborsCount / 4, 3 * neighborsCount % 4;
    if rest < 2 || (rest == 2 && whole % 2 == 0) then whole else whole + 1
  }

  /** It is nearest to three quarters, and even when two integers are equally near. */
  lemma EvictionIndexIsNearest(neighborsCount: nat)
    ensures -2 <= 4 * EvictionIndex(neighborsCount) - 3 * neighborsCount <= 2
    ensures 4 * EvictionIndex(neighborsCount) - 3 * neighborsCount in {-2, 2} ==> EvictionIndex(neighborsCount) % 2 == 0
  {
    var whole, rest := 3 * neighborsCount / 4, 3 * neighborsCount % 4;
    assert 3 * neighborsCount == 4 * whole + rest;
    if rest == 2 && whole % 2 == 1 {
      assert (whole + 1) % 2 == 0;
    }
  }

  /** One bar's scan in progress: the distance to beat and the queue so far. */
  datatype Scan = Scan(last: real, queue: Queue)

  function Admit(e: Engine, s: Scan, i: nat, distance: Num, vote: int): (t: Scan)
    requires s.queue.Valid(e)
    ensures t.queue.Valid(e)
  {
    if distance.Fin? && distance.v >= s.last && i % 4 != 0 then
      var distances, predictions := s.queue.distances + [distance.v], s.queue.predictions + [vote];
      if |predictions| > e.neighborsCount then
        Scan(distances[EvictionIndex(e.neighborsCount)], Queue(distances[1..], predictions[1..]))
      else
        Scan(distance.v, Queue(distances, predictions))
    else s
  }

  /** The scan of candidates `from` to `to - 1` for one bar. */
  function ScanRange(m: Maths, e: Engine, c: Columns, bar: nat, from: nat, to: nat, s: Scan): (t: Scan)
    requires c.Valid() && bar < |c.labels| && to <= |c.labels| && s.queue.Valid(e)
    ensures t.queue.Valid(e)
  {
    if to <= from then s
    else
      Admit(e, ScanRange(m, e, c, bar, from, to - 1, s), to - 1,
            Distance(m, c, bar, to - 1, FeaturesUsed(e, c)), c.labels[to - 1])
  }

  /** The number of oldest bars a bar may look at. */
  function CandidateCount(e: Engine, bar: nat): nat {
    if e.maxBarsBack < bar + 1 then e.maxBarsBack else bar + 1
  }

  function Advance(m: Maths, e: Engine, c: Columns, bar: nat, startIndex: nat, q: Queue): (r: Queue)
    requires c.Valid() && bar < |c.labels| && q.Valid(e)
    ensures r.Valid(e)
  {
    ScanRange(m, e, c, bar, startIndex, CandidateCount(e, bar), Scan(-1.0, q)).queue
  }

  function Votes(predictions: seq<int>): int {
    if predictions == [] then 0 else Votes(predictions[..|predictions| - 1]) + predictions[|predictions| - 1]
  }

  function MaxBarsBackIndex(e: Engine, length: nat): nat {
    if length >= e.maxBarsBack + 1 then length - 1 - e.maxBarsBack else 0
  }

  function StartIndex(e: Engine, length: nat): nat {
    if e.includeFullHistory then 0 else MaxBarsBackIndex(e, length)
  }

  /** The queue after bars `start` to `b - 1`. */
  function QueueBefore(m: Maths, e: Engine, c: Columns, startIndex: nat, start: nat, b: nat): (q: Queue)
    requires c.Valid() && b <= |c.labels|
    ensures q.Valid(e)
  {
    if b <= start then EMPTY
    else Advance(m, e, c, b - 1, startIndex, QueueBefore(m, e, c, startIndex, start, b - 1))
  }

  // ---------- predictions, signal state, change flags ----------

  function Predictions(m: Maths, e: Engine, c: Columns, startIndex: nat, start: nat): (p: seq<int>)
    requires c.Valid()
    ensures |p| == |c.labels|
  {
    seq(|c.labels|, b requires 0 <= b < |c.labels| =>
      if b < start then 0 else Votes(QueueBefore(m, e, c, startIndex, start, b + 1).predictions))
  }

  function NextSignal(prediction: int, passes: bool, previous: int): int {
    if prediction > 0 && passes then 1 else if prediction < 0 && passes then -1 else previous
  }

  /** A signal holds until a filtered prediction of the other sign. */
  function SignalState(prediction: seq<int>, passes: seq<bool>): (s: seq<int>)
    requires |prediction| == |passes|
    ensures |s| == |prediction|
  {
    if prediction == [] then []
    else
      var n := |prediction| - 1;
      var before := SignalState(prediction[..n], passes[..n]);
      before + [NextSignal(prediction[n], passes[n], if n == 0 then 0 else before[n - 1])]
  }

  function Changed(signal: seq<int>): seq<bool> {
    seq(|signal|, i requires 0 <= i < |signal| => i > 0 && signal[i] != signal[i - 1])
  }

  lemma {:induction false} SignalStatePrefix(prediction: seq<int>, passes: seq<bool>, n: nat)
    requires n <= |prediction| == |passes|
    ensures SignalState(prediction[..n], passes[..n]) == SignalState(prediction, passes)[..n]
  {
    if n < |prediction| {
      var k := |prediction| - 1;
      SignalStatePrefix(prediction[..k], passes[..k], n);
      assert prediction[..k][..n] == prediction[..n] && passes[..k][..n] == passes[..n];
    } else {
      assert prediction[..n] == prediction && passes[..n] == passes;
    }
  }

  lemma SignalEntry(prediction: seq<int>, passes: seq<bool>, i: nat)
    requires i < |prediction| == |passes|
    ensures SignalState(prediction, passes)[i]
         == NextSignal(prediction[i], passes[i], if i == 0 then 0 else SignalState(prediction, passes)[i - 1])
  {
    SignalStatePrefix(prediction, passes, i);
    SignalStatePrefix(prediction, passes, i + 1);
    assert prediction[..i + 1][..i] == prediction[..i] && passes[..i + 1][..i] == passes[..i];
    assert SignalState(prediction, passes)[i] == SignalState(prediction[..i + 1], passes[..i + 1])[i];
  }

  /** One bar's scan over the oldest bars, appending to and popping from the two lists. */
  method ScanBar(m: Maths, e: Engine, c: Columns, bar: nat, startIndex: nat, queue: Queue)
    returns (distances: seq<real>, predictions: seq<int>)
    requires c.Valid() && bar < |c.labels| && queue.Valid(e)
    ensures Queue(distances, predictions) == Advance(m, e, c, bar, startIndex, queue)
  {
    hide Distance, EvictionIndex;
    distances, predictions := queue.distances, queue.predictions;
    var lastDistance := -1.0;
    var stop := CandidateCount(e, bar);
    var i := startIndex;
    while i < stop
      invariant startIndex <= i
      invariant |distances| == |predictions| <= e.neighborsCount
      invariant Scan(lastDistance, Queue(distances, predictions))
             == ScanRange(m, e, c, bar, startIndex, if i < stop then i else stop, Scan(-1.0, queue))
    {
      var distance := Distance(m, c, bar, i, FeaturesUsed(e, c));
      if distance.Fin? && distance.v >= lastDistance && i % 4 != 0 {
        lastDistance := distance.v;
        distances := distances + [distance.v];
        predictions := predictions + [c.labels[i]];
        if |predictions| > e.neighborsCount {
          lastDistance := distances[EvictionIndex(e.neighborsCount)];
          distances := distances[1..];
          predictions := predictions[1..];
        }
      }
      i := i + 1;
    }
  }

  /** The batch run: the two lists are declared once, outside the bar loop. */
  method Predict(m: Maths, e: Engine, c: Columns) returns (prediction: array<int>, signal: array<int>)
    requires c.Valid()
    ensures var n := |c.labels|;
            prediction[..] == Predictions(m, e, c, StartIndex(e, n), MaxBarsBackIndex(e, n))
    ensures signal[..] == SignalState(prediction[..], c.filters)
  {
    hide Advance, Votes, SignalState, MaxBarsBackIndex, StartIndex;
    var length := |c.labels|;
    var maxBarsBackIndex := MaxBarsBackIndex(e, length);
    var startIndex := StartIndex(e, length);
    prediction, signal := new int[length](_ => 0), new int[length](_ => 0);
    var predictions: seq<int>, distances: seq<real> := [], [];
    ghost var all := Predictions(m, e, c, startIndex, maxBarsBackIndex);
    for bar := 0 to length
      invariant Queue(distances, predictions) == QueueBefore(m, e, c, startIndex, maxBarsBackIndex, bar)
      invariant forall k :: 0 <= k < bar ==> prediction[k] == all[k]
      invariant forall k :: bar <= k < length ==> prediction[k] == 0
      invariant forall k :: 0 <= k < bar ==> signal[k] == SignalState(all, c.filters)[k]
    {
      if bar >= maxBarsBackIndex {
        distances, predictions := ScanBar(m, e, c, bar, startIndex, Queue(distances, predictions));
        prediction[bar] := Votes(predictions);
      }
      SignalEntry(all, c.filters, bar);
      var previous := if bar > 0 then signal[bar - 1] else 0;
      signal[bar] := if prediction[bar] > 0 && c.filters[bar] then 1
                     else if prediction[bar] < 0 && c.filters[bar] then -1 else previous;
    }
    assert prediction[..] == all;
  }

  // ---------- entries and exits ----------

  datatype Events = Events(prediction: seq<int>, signal: seq<int>, changed: seq<bool>,
                           startLong: seq<bool>, startShort: seq<bool>, endLong: seq<bool>, endShort: seq<bool>)
  {
    predicate Valid(n: nat) {
      |prediction| == |signal| == |changed| == |startLong| == |startShort| == |endLong| == |endShort| == n
    }
  }

  predicate BuyAt(c: Columns, signal: seq<int>, i: nat)
    requires c.Valid() && i < |signal| == |c.labels|
  {
    signal[i] == 1 && c.emaUp[i] && c.smaUp[i]
  }

  predicate SellAt(c: Columns, signal: seq<int>, i: nat)
    requires c.Valid() && i < |signal| == |c.labels|
  {
    signal[i] == -1 && c.emaDown[i] && c.smaDown[i]
  }

  function StartLong(e: Engine, c: Columns, signal: seq<int>): (r: seq<bool>)
    requires c.Valid() && |signal| == |c.labels|
    ensures |r| == |signal|
  {
    seq(|signal|, i requires 0 <= i < |signal| =>
      BuyAt(c, signal, i) && Changed(signal)[i] && (e.useKernelFilter ==> c.kernel.bullish[i]))
  }

  function StartShort(e: Engine, c: Columns, signal: seq<int>): (r: seq<bool>)
    requires c.Valid() && |signal| == |c.labels|
    ensures |r| == |signal|
  {
    seq(|signal|, i requires 0 <= i < |signal| =>
      SellAt(c, signal, i) && Changed(signal)[i] && (e.useKernelFilter ==> c.kernel.bearish[i]))
  }

  function BarsHeld(changed: seq<bool>): (r: seq<nat>)
    ensures |r| == |changed|
  {
    if changed == [] then []
    else
      var n := |changed| - 1;
      var before := BarsHeld(changed[..n]);
      before + [if changed[n] then 0 else if n == 0 then 1 else before[n - 1] + 1]
  }

  lemma {:induction false} BarsHeldPrefix(changed: seq<bool>, n: nat)
    requires n <= |changed|
    ensures BarsHeld(changed[..n]) == BarsHeld(changed)[..n]
  {
    if n < |changed| {
      BarsHeldPrefix(changed[..|changed| - 1], n);
      assert changed[..|changed| - 1][..n] == changed[..n];
    } else {
      assert changed[..n] == changed;
    }
  }

  method ComputeBarsHeld(changed: seq<bool>) returns (barsHeld: array<nat>)
    ensures barsHeld[..] == BarsHeld(changed)
  {
    barsHeld := new nat[|changed|](_ => 0);
    for bar := 0 to |changed|
      invariant forall k :: 0 <= k < bar ==> barsHeld[k] == BarsHeld(changed)[k]
    {
      BarsHeldPrefix(changed, bar);
      BarsHeldPrefix(changed, bar + 1);
      assert changed[..bar + 1][..bar] == changed[..bar];
      assert BarsHeld(changed)[bar] == BarsHeld(changed[..bar + 1])[bar];
      barsHeld[bar] := if changed[bar] then 0 else if bar > 0 then barsHeld[bar - 1] + 1 else 1;
    }
  }

  /** The fixed four-bar exit of one side: held four bars, or flipped earlier, after an entry four bars ago. */
  predicate StrictExit(held: nat, lastSide: bool, newOther: bool, startedFourAgo: bool) {
    ((held == 4 && lastSide) || (0 < held < 4 && newOther && lastSide)) && startedFourAgo
  }

  function StrictLong(e: Engine, c: Columns, signal: seq<int>): (r: seq<bool>)
    requires c.Valid() && |signal| == |c.labels|
    ensures |r| == |signal|
  {
    var changed := Changed(signal);
    seq(|signal|, i requires 0 <= i < |signal| =>
      i >= 4 && StrictExit(BarsHeld(changed)[i], BuyAt(c, signal, i - 4), SellAt(c, signal, i) && changed[i],
                           StartLong(e, c, signal)[i - 4]))
  }

  function StrictShort(e: Engine, c: Columns, signal: seq<int>): (r: seq<bool>)
    requires c.Valid() && |signal| == |c.labels|
    ensures |r| == |signal|
  {
    var changed := Changed(signal);
    seq(|signal|, i requires 0 <= i < |signal| =>
      i >= 4 && StrictExit(BarsHeld(changed)[i], SellAt(c, signal, i - 4), BuyAt(c, signal, i) && changed[i],
                           StartShort(e, c, signal)[i - 4]))
  }

  /** Both counters run and the alert is older than the entry. */
  predicate Outlasts(sinceExit: Option<nat>, sinceEntry: Option<nat>) {
    sinceExit.Some? && sinceEntry.Some? && sinceExit.value > sinceEntry.value
  }

  /** The kernel turns, and one bar earlier the last alert was older than the last entry. */
  function DynamicExit(turn: seq<bool>, alert: seq<bool>, entry: seq<bool>): (r: seq<bool>)
    requires |turn| == |alert| == |entry|
    ensures |r| == |turn|
  {
    seq(|turn|, i requires 0 <= i < |turn| =>
      turn[i] && i > 0 && Outlasts(SinceLast(alert[..i]), SinceLast(entry[..i])))
  }

  predicate DynamicExitsOn(e: Engine) {
    e.useDynamicExits && !e.useEmaFilter && !e.useSmaFilter && !e.useKernelSmoothing
  }

  function EntriesAndExits(e: Engine, c: Columns, prediction: seq<int>, signal: seq<int>): (r: Events)
    requires c.Valid() && |prediction| == |signal| == |c.labels|
    ensures r.Valid(|c.labels|)
  {
    var startLong, startShort := StartLong(e, c, signal), StartShort(e, c, signal);
    if DynamicExitsOn(e) then
      Events(prediction, signal, Changed(signal), startLong, startShort,
             DynamicExit(c.kernel.bearishChange, c.kernel.alertBearish, startLong),
             DynamicExit(c.kernel.bullishChange, c.kernel.alertBullish, startShort))
    else
      Events(prediction, signal, Changed(signal), startLong, startShort,
             StrictLong(e, c, signal), StrictShort(e, c, signal))
  }

  /** The batch formulas for a queue that starts empty at bar `start` and scans from `startIndex`. */
  function EventsFrom(m: Maths, e: Engine, c: Columns, startIndex: nat, start: nat): (r: Events)
    requires c.Valid()
    ensures r.Valid(|c.labels|)
  {
    var prediction := Predictions(m, e, c, startIndex, start);
    EntriesAndExits(e, c, prediction, SignalState(prediction, c.filters))
  }

  /** What `analyze` computes before it picks the last bar. */
  function Batch(m: Maths, e: Engine, c: Columns): (r: Events)
    requires c.Valid()
    ensures r.Valid(|c.labels|)
  {
    EventsFrom(m, e, c, StartIndex(e, |c.labels|), MaxBarsBackIndex(e, |c.labels|))
  }
}
