/** Facts about the batch classifier that span its functions: its events are prefix-stable for a fixed
    start bar, the first bars are silent, and with the kernel filter an entry never meets its own exit. */
module EngineProperties {
  import opened Numeric
  import opened Indicators
  import opened EngineColumns
  import opened AlphaEngine

  // ---------- prefix stability of the classifier ----------

  lemma {:induction false} DistanceCut(m: Maths, c: Columns, bar: nat, i: nat, count: nat, n: nat)
    requires c.Valid() && n <= |c.labels| && bar < n && i < n && count <= |c.features|
    ensures Distance(m, Cut(c, n), bar, i, count) == Distance(m, c, bar, i, count)
  {
    if count > 0 {
      DistanceCut(m, c, bar, i, count - 1, n);
    }
  }

  lemma {:induction false} ScanRangeCut(m: Maths, e: Engine, c: Columns, bar: nat, from: nat, to: nat, s: Scan, n: nat)
    requires c.Valid() && n <= |c.labels| && bar < n && to <= n && s.queue.Valid(e)
    ensures ScanRange(m, e, Cut(c, n), bar, from, to, s) == ScanRange(m, e, c, bar, from, to, s)
  {
    hide Distance, Admit;
    if to > from {
      ScanRangeCut(m, e, c, bar, from, to - 1, s, n);
      DistanceCut(m, c, bar, to - 1, FeaturesUsed(e, c), n);
      assert FeaturesUsed(e, Cut(c, n)) == FeaturesUsed(e, c);
    }
  }

  lemma {:induction false} QueueBeforeCut(m: Maths, e: Engine, c: Columns, startIndex: nat, start: nat, b: nat, n: nat)
    requires c.Valid() && b <= n <= |c.labels|
    ensures QueueBefore(m, e, Cut(c, n), startIndex, start, b) == QueueBefore(m, e, c, startIndex, start, b)
  {
    hide ScanRange;
    if b > start {
      var q := QueueBefore(m, e, c, startIndex, start, b - 1);
      QueueBeforeCut(m, e, c, startIndex, start, b - 1, n);
      ScanRangeCut(m, e, c, b - 1, startIndex, CandidateCount(e, b - 1), Scan(-1.0, q), n);
    }
  }

  lemma PredictionsCut(m: Maths, e: Engine, c: Columns, startIndex: nat, start: nat, n: nat)
    requires c.Valid() && n <= |c.labels|
    ensures Predictions(m, e, Cut(c, n), startIndex, start) == Predictions(m, e, c, startIndex, start)[..n]
  {
    hide QueueBefore, Votes;
    forall b | 0 <= b < n
      ensures Predictions(m, e, Cut(c, n), startIndex, start)[b] == Predictions(m, e, c, startIndex, start)[b]
    {
      QueueBeforeCut(m, e, c, startIndex, start, b + 1, n);
    }
  }

  function CutEvents(v: Events, n: nat): Events
    requires n <= |v.prediction| && v.Valid(|v.prediction|)
  {
    Events(v.prediction[..n], v.signal[..n], v.changed[..n], v.startLong[..n], v.startShort[..n], v.endLong[..n],
           v.endShort[..n])
  }

  lemma DynamicExitCut(turn: seq<bool>, alert: seq<bool>, entry: seq<bool>, n: nat)
    requires n <= |turn| == |alert| == |entry|
    ensures DynamicExit(turn[..n], alert[..n], entry[..n]) == DynamicExit(turn, alert, entry)[..n]
  {
    forall i | 0 <= i < n
      ensures DynamicExit(turn[..n], alert[..n], entry[..n])[i] == DynamicExit(turn, alert, entry)[i]
    {
      assert alert[..n][..i] == alert[..i] && entry[..n][..i] == entry[..i];
    }
  }

  lemma StartsCut(e: Engine, c: Columns, signal: seq<int>, n: nat)
    requires c.Valid() && n <= |signal| == |c.labels|
    ensures Changed(signal[..n]) == Changed(signal)[..n]
    ensures StartLong(e, Cut(c, n), signal[..n]) == StartLong(e, c, signal)[..n]
    ensures StartShort(e, Cut(c, n), signal[..n]) == StartShort(e, c, signal)[..n]
  {
  }

  lemma StrictCut(e: Engine, c: Columns, signal: seq<int>, n: nat)
    requires c.Valid() && n <= |signal| == |c.labels|
    ensures StrictLong(e, Cut(c, n), signal[..n]) == StrictLong(e, c, signal)[..n]
    ensures StrictShort(e, Cut(c, n), signal[..n]) == StrictShort(e, c, signal)[..n]
  {
    hide BarsHeld, StartLong, StartShort;
    StartsCut(e, c, signal, n);
    BarsHeldPrefix(Changed(signal), n);
  }

  /** For a fixed start bar every event column is prefix-stable. */
  lemma EventsCut(m: Maths, e: Engine, c: Columns, startIndex: nat, start: nat, n: nat)
    requires c.Valid() && n <= |c.labels|
    ensures EventsFrom(m, e, Cut(c, n), startIndex, start) == CutEvents(EventsFrom(m, e, c, startIndex, start), n)
  {
    hide Predictions, SignalState, StartLong, StartShort, StrictLong, StrictShort, DynamicExit;
    var prediction := Predictions(m, e, c, startIndex, start);
    var signal := SignalState(prediction, c.filters);
    PredictionsCut(m, e, c, startIndex, start, n);
    SignalStatePrefix(prediction, c.filters, n);
    StartsCut(e, c, signal, n);
    StrictCut(e, c, signal, n);
    DynamicExitCut(c.kernel.bearishChange, c.kernel.alertBearish, StartLong(e, c, signal), n);
    DynamicExitCut(c.kernel.bullishChange, c.kernel.alertBullish, StartShort(e, c, signal), n);
  }

  // ---------- the first bars are silent ----------

  predicate NoVotes(predictions: seq<int>) {
    forall k :: 0 <= k < |predictions| ==> predictions[k] == 0
  }

  lemma {:induction false} NoVotesSum(predictions: seq<int>)
    requires NoVotes(predictions)
    ensures Votes(predictions) == 0
  {
    if predictions != [] {
      NoVotesSum(predictions[..|predictions| - 1]);
    }
  }

  /** No bar before the fifth has a label, and the fifth is skipped by the scan's stride. */
  predicate EarlyLabelsSilent(c: Columns) {
    forall i :: 0 <= i < 4 && i < |c.labels| ==> c.labels[i] == 0
  }

  lemma {:induction false} EarlyScan(m: Maths, e: Engine, c: Columns, bar: nat, from: nat, to: nat, s: Scan)
    requires c.Valid() && EarlyLabelsSilent(c) && bar < |c.labels| && to <= |c.labels| && to <= 5
    requires s.queue.Valid(e) && NoVotes(s.queue.predictions)
    ensures NoVotes(ScanRange(m, e, c, bar, from, to, s).queue.predictions)
  {
    hide Distance, EvictionIndex;
    if to > from {
      EarlyScan(m, e, c, bar, from, to - 1, s);
    }
  }

  lemma {:induction false} EarlyQueue(m: Maths, e: Engine, c: Columns, startIndex: nat, start: nat, b: nat)
    requires c.Valid() && EarlyLabelsSilent(c) && b <= |c.labels| && (b <= 5 || e.maxBarsBack <= 5)
    ensures NoVotes(QueueBefore(m, e, c, startIndex, start, b).predictions)
  {
    hide ScanRange;
    if b > start {
      EarlyQueue(m, e, c, startIndex, start, b - 1);
      EarlyScan(m, e, c, b - 1, startIndex, CandidateCount(e, b - 1),
                Scan(-1.0, QueueBefore(m, e, c, startIndex, start, b - 1)));
    }
  }

  /** The prediction is 0 on the first five bars and on every bar before the start bar. */
  lemma SilentStart(m: Maths, e: Engine, c: Columns, startIndex: nat, start: nat, b: nat)
    requires c.Valid() && EarlyLabelsSilent(c) && b < |c.labels|
    requires b < 5 || b < start
    ensures Predictions(m, e, c, startIndex, start)[b] == 0
  {
    if b >= start {
      EarlyQueue(m, e, c, startIndex, start, b + 1);
      NoVotesSum(QueueBefore(m, e, c, startIndex, start, b + 1).predictions);
    }
  }

  /** So the signal is 0 there, nothing has changed and nothing has started. */
  lemma {:induction false} SilentSignal(m: Maths, e: Engine, c: Columns, startIndex: nat, start: nat, b: nat)
    requires c.Valid() && EarlyLabelsSilent(c) && b < |c.labels|
    requires b < 5 || b < start
    ensures var v := EventsFrom(m, e, c, startIndex, start);
            v.signal[b] == 0 && !v.changed[b] && !v.startLong[b] && !v.startShort[b]
  {
    hide QueueBefore, StrictLong, StrictShort, DynamicExit;
    var prediction := Predictions(m, e, c, startIndex, start);
    SilentStart(m, e, c, startIndex, start, b);
    SignalEntry(prediction, c.filters, b);
    if b > 0 {
      SilentSignal(m, e, c, startIndex, start, b - 1);
    }
  }

  /** A sum of votes of at most one each is bounded by their number. */
  lemma {:induction false} VotesBounded(predictions: seq<int>)
    requires forall k :: 0 <= k < |predictions| ==> -1 <= predictions[k] <= 1
    ensures -|predictions| <= Votes(predictions) <= |predictions|
  {
    if predictions != [] {
      VotesBounded(predictions[..|predictions| - 1]);
    }
  }

  predicate UnitVotes(predictions: seq<int>) {
    forall k :: 0 <= k < |predictions| ==> -1 <= predictions[k] <= 1
  }

  lemma {:induction false} UnitScan(m: Maths, e: Engine, c: Columns, bar: nat, from: nat, to: nat, s: Scan)
    requires c.Valid() && UnitVotes(c.labels) && bar < |c.labels| && to <= |c.labels|
    requires s.queue.Valid(e) && UnitVotes(s.queue.predictions)
    ensures UnitVotes(ScanRange(m, e, c, bar, from, to, s).queue.predictions)
  {
    hide Distance, EvictionIndex;
    if to > from {
      UnitScan(m, e, c, bar, from, to - 1, s);
    }
  }

  lemma {:induction false} UnitQueue(m: Maths, e: Engine, c: Columns, startIndex: nat, start: nat, b: nat)
    requires c.Valid() && UnitVotes(c.labels) && b <= |c.labels|
    ensures UnitVotes(QueueBefore(m, e, c, startIndex, start, b).predictions)
  {
    hide ScanRange;
    if b > start {
      UnitQueue(m, e, c, startIndex, start, b - 1);
      UnitScan(m, e, c, b - 1, startIndex, CandidateCount(e, b - 1),
               Scan(-1.0, QueueBefore(m, e, c, startIndex, start, b - 1)));
    }
  }

  /** On every reachable run the two lists are equally long, at most the neighbour count, and so is the vote in size. */
  lemma PredictionBounded(m: Maths, e: Engine, h: seq<Bar>, startIndex: nat, start: nat, b: nat)
    requires b < |h|
    ensures var q := QueueBefore(m, e, ColumnsOf(m, e, h), startIndex, start, b + 1);
            |q.distances| == |q.predictions| <= e.neighborsCount
    ensures -(e.neighborsCount as int)
         <= Predictions(m, e, ColumnsOf(m, e, h), startIndex, start)[b] <= e.neighborsCount
  {
    hide Features, Filters, KernelRegression, Trend;
    var c := ColumnsOf(m, e, h);
    assert UnitVotes(c.labels);
    UnitQueue(m, e, c, startIndex, start, b + 1);
    VotesBounded(QueueBefore(m, e, c, startIndex, start, b + 1).predictions);
  }

  // ---------- an entry never meets its own exit ----------

  /** With the kernel filter on, smoothing off and dynamic exits on, no bar both starts and ends a side. */
  lemma EntryExcludesExit(m: Maths, e: Engine, h: seq<Bar>, startIndex: nat, start: nat, b: nat)
    requires b < |h| && e.useKernelFilter && DynamicExitsOn(e)
    ensures var v := EventsFrom(m, e, ColumnsOf(m, e, h), startIndex, start);
            !(v.startLong[b] && v.endLong[b]) && !(v.startShort[b] && v.endShort[b])
  {
    hide Predictions, SignalState, Features, Filters, KernelEstimate, Trend, BuyAt, SellAt;
    var yhat := KernelEstimate(Source(h), e.x, RationalWeight(m, e));
    var kernel := ColumnsOf(m, e, h).kernel;
    assert kernel.bullish[b] == Less(Shift(yhat, 1, NaN)[b], yhat[b]);
    assert kernel.bearish[b] == Greater(Shift(yhat, 1, NaN)[b], yhat[b]);
    assert kernel.bearishChange[b] == Both(Zip(Greater, Shift(yhat, 1, NaN), yhat)[b],
                                           Zip(Less, Shift(yhat, 2, NaN), Shift(yhat, 1, NaN))[b]);
    assert kernel.bullishChange[b] == Both(Zip(Less, Shift(yhat, 1, NaN), yhat)[b],
                                           Zip(Greater, Shift(yhat, 2, NaN), Shift(yhat, 1, NaN))[b]);
  }
}
