/** Exactly how far the results of the incremental classifier equal the batch ones. Once the history outgrows
    `maxBarsBack` the batch run starts later than the bootstrap did, but a result can only differ when a bar in
    between casts a vote. */
module ResultLimit {
  import opened Numeric
  import opened Indicators
  import opened EngineColumns
  import opened AlphaEngine
  import opened EngineProperties
  import opened FastPredict
  import opened FastRefinement
  import opened FallingMarket

  // ---------- the newest result ----------

  /** The result of the newest bar is what the batch run gives for it. */
  ghost predicate NewestMatches(m: Maths, e: Engine, h: seq<Bar>, k: nat)
    requires k < |h|
  {
    ResultMatches(e, FastRun(m, e, h, k, |h|).0[|h| - 1 - k], Batch(m, e, ColumnsOf(m, e, h)), |h| - 1)
  }

  /** Only the signal to trade on: buy, sell or neither. */
  ghost predicate NewestSignalMatches(m: Maths, e: Engine, h: seq<Bar>, k: nat)
    requires k < |h|
  {
    var v := Batch(m, e, ColumnsOf(m, e, h));
    FastRun(m, e, h, k, |h|).0[|h| - 1 - k].signal == SignalOf(v.startLong[|h| - 1], v.startShort[|h| - 1])
  }

  /** Equal predictions make equal results. */
  lemma SameVotesSameResult(m: Maths, e: Engine, h: seq<Bar>, k: nat)
    requires k < |h| && e.includeFullHistory
    requires var c := ColumnsOf(m, e, h);
             Predictions(m, e, c, 0, MaxBarsBackIndex(e, k)) == Predictions(m, e, c, 0, MaxBarsBackIndex(e, |h|))
    ensures NewestMatches(m, e, h, k)
  {
    hide ColumnsOf, Predictions, Evaluate, EntriesAndExits, ResultMatches, Tracks;
    ContinuousRun(m, e, h, k, |h| - 1);
  }

  // ---------- engines that compare features: nothing is a neighbour of or in the first fourteen bars ----------

  predicate WarmsUp(c: Columns)
    requires c.Valid()
  {
    c.features != [] && forall i :: 0 <= i < 14 && i < |c.labels| ==> c.features[0][i].NaN?
  }

  lemma ColumnsWarmUp(m: Maths, e: Engine, h: seq<Bar>)
    ensures WarmsUp(ColumnsOf(m, e, h))
  {
    hide Features, Filters, KernelRegression, Trend;
    forall i | 0 <= i < 14 && i < |h|
      ensures ColumnsOf(m, e, h).features[0][i].NaN?
    {
      FirstFeatureMissing(h, i);
    }
  }

  lemma {:induction false} MissingDistance(m: Maths, c: Columns, bar: nat, i: nat, count: nat)
    requires c.Valid() && WarmsUp(c) && bar < |c.labels| && i < |c.labels| && 0 < count <= |c.features|
    requires bar < 14 || i < 14
    ensures Distance(m, c, bar, i, count) == NaN
  {
    if count > 1 {
      MissingDistance(m, c, bar, i, count - 1);
    }
  }

  lemma {:induction false} NothingAdmitted(m: Maths, e: Engine, c: Columns, bar: nat, to: nat, s: Scan)
    requires c.Valid() && WarmsUp(c) && e.featureCount > 0 && bar < |c.labels| && to <= |c.labels| && s.queue.Valid(e)
    requires bar < 14 || to <= 14
    ensures ScanRange(m, e, c, bar, 0, to, s) == s
  {
    hide Distance;
    if to > 0 {
      NothingAdmitted(m, e, c, bar, to - 1, s);
      MissingDistance(m, c, bar, to - 1, FeaturesUsed(e, c));
    }
  }

  lemma {:induction false} NothingCarried(m: Maths, e: Engine, c: Columns, start: nat, b: nat)
    requires c.Valid() && WarmsUp(c) && e.featureCount > 0 && b <= |c.labels|
    requires b <= 14 || e.maxBarsBack <= 14
    ensures QueueBefore(m, e, c, 0, start, b) == EMPTY
  {
    hide ScanRange;
    if b > start {
      NothingCarried(m, e, c, start, b - 1);
      NothingAdmitted(m, e, c, b - 1, CandidateCount(e, b - 1), Scan(-1.0, EMPTY));
    }
  }

  /** A queue that is still empty at a later start is the queue of that start. */
  lemma {:induction false} SameFromEmpty(m: Maths, e: Engine, c: Columns, carried: nat, restarted: nat, b: nat)
    requires c.Valid() && carried <= restarted <= b <= |c.labels|
    requires QueueBefore(m, e, c, 0, carried, restarted) == EMPTY
    ensures QueueBefore(m, e, c, 0, carried, b) == QueueBefore(m, e, c, 0, restarted, b)
  {
    hide Advance;
    if b > restarted {
      SameFromEmpty(m, e, c, carried, restarted, b - 1);
    }
  }

  lemma ComparingPredictions(m: Maths, e: Engine, c: Columns, carried: nat, restarted: nat)
    requires c.Valid() && WarmsUp(c) && e.featureCount > 0 && carried <= restarted <= |c.labels|
    requires restarted <= 14 || e.maxBarsBack <= 14
    ensures Predictions(m, e, c, 0, carried) == Predictions(m, e, c, 0, restarted)
  {
    hide QueueBefore;
    forall b | 0 <= b < |c.labels|
      ensures Predictions(m, e, c, 0, carried)[b] == Predictions(m, e, c, 0, restarted)[b]
    {
      if b < restarted {
        NothingCarried(m, e, c, carried, b + 1);
      } else {
        NothingCarried(m, e, c, carried, restarted);
        SameFromEmpty(m, e, c, carried, restarted, b + 1);
      }
    }
  }

  // ---------- engines that compare none: the first five bars leave neighbours without a vote ----------

  /** A scan in which every distance is 0. */
  predicate AtZero(s: Scan) {
    s.last <= 0.0 && forall k :: 0 <= k < |s.queue.distances| ==> s.queue.distances[k] == 0.0
  }

  /** The carried predictions are the restarted ones behind some that do not count. */
  predicate Padded(carried: seq<int>, restarted: seq<int>) {
    && |restarted| <= |carried|
    && NoVotes(carried[..|carried| - |restarted|])
    && carried[|carried| - |restarted|..] == restarted
  }

  /** Appending the same vote and then dropping the oldest one where there is no room keeps the padding. */
  lemma PushPadded(carried: seq<int>, restarted: seq<int>, vote: int)
    requires Padded(carried, restarted)
    ensures var p, q := carried + [vote], restarted + [vote];
            Padded(p, q) && Padded(p[1..], if |p| > |q| then q else q[1..])
  {
    var z := |carried| - |restarted|;
    var p, q := carried + [vote], restarted + [vote];
    assert p[..z] == carried[..z] && p[z..] == q;
    if z > 0 {
      assert p[1..][..z - 1] == carried[..z][1..] && p[1..][z - 1..] == q;
    } else {
      assert p == q;
    }
  }

  lemma AdmitPadded(e: Engine, s: Scan, t: Scan, i: nat, vote: int)
    requires s.queue.Valid(e) && t.queue.Valid(e) && AtZero(s) && AtZero(t)
          && Padded(s.queue.predictions, t.queue.predictions)
    ensures AtZero(Admit(e, s, i, Fin(0.0), vote)) && AtZero(Admit(e, t, i, Fin(0.0), vote))
    ensures Padded(Admit(e, s, i, Fin(0.0), vote).queue.predictions, Admit(e, t, i, Fin(0.0), vote).queue.predictions)
  {
    hide EvictionIndex, Padded;
    PushPadded(s.queue.predictions, t.queue.predictions, vote);
    PaddedLonger(s.queue.predictions, t.queue.predictions);
  }

  lemma PaddedLonger(carried: seq<int>, restarted: seq<int>)
    requires Padded(carried, restarted)
    ensures |restarted| <= |carried|
  {
  }

  lemma {:induction false} ScanPadded(m: Maths, e: Engine, c: Columns, bar: nat, to: nat, s: Scan, t: Scan)
    requires c.Valid() && e.featureCount == 0 && bar < |c.labels| && to <= |c.labels|
    requires s.queue.Valid(e) && t.queue.Valid(e) && AtZero(s) && AtZero(t)
          && Padded(s.queue.predictions, t.queue.predictions)
    ensures var s', t' := ScanRange(m, e, c, bar, 0, to, s), ScanRange(m, e, c, bar, 0, to, t);
            AtZero(s') && AtZero(t') && Padded(s'.queue.predictions, t'.queue.predictions)
  {
    hide Admit, AtZero, Padded;
    if to > 0 {
      ScanPadded(m, e, c, bar, to - 1, s, t);
      assert Distance(m, c, bar, to - 1, FeaturesUsed(e, c)) == Fin(0.0);
      AdmitPadded(e, ScanRange(m, e, c, bar, 0, to - 1, s), ScanRange(m, e, c, bar, 0, to - 1, t), to - 1,
                  c.labels[to - 1]);
    }
  }

  lemma PaddedNothing(carried: seq<int>)
    requires NoVotes(carried)
    ensures Padded(carried, [])
  {
    assert carried[..|carried|] == carried;
  }

  lemma StartsAtZero()
    ensures AtZero(Scan(-1.0, EMPTY)) && Padded([], [])
  {
  }

  lemma NextScanAtZero(s: Scan)
    requires AtZero(s)
    ensures AtZero(Scan(-1.0, s.queue))
  {
  }

  lemma {:induction false} QueuePadded(m: Maths, e: Engine, c: Columns, carried: nat, restarted: nat, b: nat)
    requires c.Valid() && EarlyLabelsSilent(c) && e.featureCount == 0 && carried <= restarted && b <= |c.labels|
    requires restarted <= 5 || e.maxBarsBack <= 5
    ensures var q, r := QueueBefore(m, e, c, 0, carried, b), QueueBefore(m, e, c, 0, restarted, b);
            AtZero(Scan(-1.0, q)) && AtZero(Scan(-1.0, r)) && Padded(q.predictions, r.predictions)
  {
    hide ScanRange, AtZero, Padded, NoVotes, EarlyLabelsSilent;
    StartsAtZero();
    if b > carried {
      QueuePadded(m, e, c, carried, restarted, b - 1);
      var s := Scan(-1.0, QueueBefore(m, e, c, 0, carried, b - 1));
      var t := Scan(-1.0, QueueBefore(m, e, c, 0, restarted, b - 1));
      var to := CandidateCount(e, b - 1);
      ScanPadded(m, e, c, b - 1, to, s, t);
      NextScanAtZero(ScanRange(m, e, c, b - 1, 0, to, s));
      NextScanAtZero(ScanRange(m, e, c, b - 1, 0, to, t));
      if b <= restarted {
        EarlyQueue(m, e, c, 0, carried, b);
        PaddedNothing(QueueBefore(m, e, c, 0, carried, b).predictions);
      }
    }
  }

  lemma {:induction false} PaddedVotes(carried: seq<int>, restarted: seq<int>)
    requires Padded(carried, restarted)
    ensures Votes(carried) == Votes(restarted)
  {
    if restarted == [] {
      assert carried[..|carried|] == carried;
      NoVotesSum(carried);
    } else {
      var n := |restarted| - 1;
      assert carried[..|carried| - 1][..|carried| - 1 - n] == carried[..|carried| - |restarted|];
      assert carried[..|carried| - 1][|carried| - 1 - n..] == restarted[..n];
      PaddedVotes(carried[..|carried| - 1], restarted[..n]);
    }
  }

  lemma PlainPredictions(m: Maths, e: Engine, c: Columns, carried: nat, restarted: nat)
    requires c.Valid() && EarlyLabelsSilent(c) && e.featureCount == 0 && carried <= restarted
    requires restarted <= 5 || e.maxBarsBack <= 5
    ensures Predictions(m, e, c, 0, carried) == Predictions(m, e, c, 0, restarted)
  {
    hide QueueBefore, Votes, Padded;
    forall b | 0 <= b < |c.labels|
      ensures Predictions(m, e, c, 0, carried)[b] == Predictions(m, e, c, 0, restarted)[b]
    {
      if b < restarted {
        EarlyOrShort(m, e, c, carried, restarted, b);
      } else {
        QueuePadded(m, e, c, carried, restarted, b + 1);
        PaddedVotes(QueueBefore(m, e, c, 0, carried, b + 1).predictions,
                    QueueBefore(m, e, c, 0, restarted, b + 1).predictions);
      }
    }
  }

  lemma EarlyOrShort(m: Maths, e: Engine, c: Columns, carried: nat, restarted: nat, b: nat)
    requires c.Valid() && EarlyLabelsSilent(c) && b < |c.labels| && b < restarted
    requires restarted <= 5 || e.maxBarsBack <= 5
    ensures Predictions(m, e, c, 0, carried)[b] == 0
  {
    if b >= carried {
      EarlyQueue(m, e, c, 0, carried, b + 1);
      NoVotesSum(QueueBefore(m, e, c, 0, carried, b + 1).predictions);
    }
  }

  // ---------- in a falling market every late bar predicts a rise ----------

  predicate UpVotes(predictions: seq<int>) {
    forall k :: 0 <= k < |predictions| ==> 0 <= predictions[k] <= 1
  }

  predicate EndsUp(predictions: seq<int>) {
    predictions != [] && predictions[|predictions| - 1] == 1
  }

  lemma {:induction false} UpVotesSum(predictions: seq<int>)
    requires UpVotes(predictions)
    ensures Votes(predictions) >= 0 && (EndsUp(predictions) ==> Votes(predictions) > 0)
  {
    if predictions != [] {
      UpVotesSum(predictions[..|predictions| - 1]);
    }
  }

  /** The first bar that has an effective vote: the features warm up over fourteen bars, the labels over five. */
  function First(compares: bool): nat {
    if compares then 14 else 5
  }

  /** The engine that compares at most the first feature and lets the regime filter alone decide. */
  function RegimeEngine(neighbours: nat, maxBarsBack: nat, compares: bool): Engine {
    DEFAULTS.(neighborsCount := neighbours, maxBarsBack := maxBarsBack, featureCount := if compares then 1 else 0,
              includeFullHistory := true, useVolatilityFilter := false, regimeThreshold := 0.0,
              useKernelFilter := false)
  }

  /** The falling market whose filter passes on the bar before the batch run of `length` bars starts, and on the
      last. */
  function FallFor(maxBarsBack: nat, length: nat): (f: Fall)
    requires maxBarsBack > 0 && length >= maxBarsBack + 5
    ensures f.Valid() && f.turn + 2 == length - 1 - maxBarsBack && f.last == length - 1
  {
    Fall(length - 3 - maxBarsBack, length - 1, 12.0 * (maxBarsBack as real) + 72.0)
  }

  lemma FallDistance(m: Maths, e: Engine, f: Fall, bar: nat, i: nat)
    requires m.ln(1.0) == 0.0 && f.Valid() && e.featureCount <= 1 && bar <= f.last && i <= f.last
    ensures var c := ColumnsOf(m, e, f.Bars());
            Distance(m, c, bar, i, FeaturesUsed(e, c)) == if e.featureCount == 0 || (bar >= 14 && i >= 14)
                then Fin(0.0) else NaN
  {
    hide Features, Filters, KernelRegression, Trend, WarmsUp;
    var c := ColumnsOf(m, e, f.Bars());
    assert FeaturesUsed(e, c) == e.featureCount;
    assert Distance(m, c, bar, i, 0) == Fin(0.0);
    if e.featureCount == 1 {
      if bar >= 14 && i >= 14 {
        FirstFeatureOfFall(f, bar);
        FirstFeatureOfFall(f, i);
      } else {
        ColumnsWarmUp(m, e, f.Bars());
        MissingDistance(m, c, bar, i, 1);
      }
    }
  }

  lemma FallLabel(m: Maths, e: Engine, f: Fall, i: nat)
    requires f.Valid() && i <= f.last
    ensures ColumnsOf(m, e, f.Bars()).labels[i] == if i < 4 then 0 else 1
  {
    hide Features, Filters, KernelRegression, Trend, Labels;
    FallingLabels(f, i);
  }

  lemma AdmitUp(e: Engine, s: Scan, i: nat, distance: Num, vote: int)
    requires s.queue.Valid(e) && AtZero(s) && UpVotes(s.queue.predictions) && distance in {NaN, Fin(0.0)}
          && 0 <= vote <= 1
    ensures var t := Admit(e, s, i, distance, vote);
            && AtZero(t) && UpVotes(t.queue.predictions)
            && (EndsUp(s.queue.predictions) && vote == 1 && e.neighborsCount > 0 ==> EndsUp(t.queue.predictions))
            && (distance == Fin(0.0) && i % 4 != 0 && vote == 1 && e.neighborsCount > 0 ==> EndsUp(t.queue.predictions))
  {
    hide EvictionIndex;
  }

  lemma {:induction false} ScanUp(m: Maths, e: Engine, f: Fall, bar: nat, to: nat, s: Scan)
    requires m.ln(1.0) == 0.0 && f.Valid() && e.featureCount <= 1 && e.neighborsCount > 0 && bar <= f.last
          && to <= f.last + 1
    requires s.queue.Valid(e) && AtZero(s) && UpVotes(s.queue.predictions)
    ensures var t := ScanRange(m, e, ColumnsOf(m, e, f.Bars()), bar, 0, to, s);
            && AtZero(t) && UpVotes(t.queue.predictions)
            && (First(e.featureCount > 0) <= bar && First(e.featureCount > 0) < to ==> EndsUp(t.queue.predictions))
  {
    hide ColumnsOf, Distance, Admit, AtZero, UpVotes, EndsUp;
    if to > 0 {
      var c := ColumnsOf(m, e, f.Bars());
      ScanUp(m, e, f, bar, to - 1, s);
      FallDistance(m, e, f, bar, to - 1);
      FallLabel(m, e, f, to - 1);
      AdmitUp(e, ScanRange(m, e, c, bar, 0, to - 1, s), to - 1, Distance(m, c, bar, to - 1, FeaturesUsed(e, c)),
              c.labels[to - 1]);
    }
  }

  lemma {:induction false} QueueUp(m: Maths, e: Engine, f: Fall, start: nat, b: nat)
    requires m.ln(1.0) == 0.0 && f.Valid() && e.featureCount <= 1 && e.neighborsCount > 0 && b <= f.last + 1
    ensures var q := QueueBefore(m, e, ColumnsOf(m, e, f.Bars()), 0, start, b);
            && AtZero(Scan(-1.0, q)) && UpVotes(q.predictions)
            && (start < b && First(e.featureCount > 0) < b && First(e.featureCount > 0) < e.maxBarsBack
                ==> EndsUp(q.predictions))
  {
    hide ColumnsOf, ScanRange, EndsUp;
    if b > start {
      QueueUp(m, e, f, start, b - 1);
      var q := QueueBefore(m, e, ColumnsOf(m, e, f.Bars()), 0, start, b - 1);
      ScanUp(m, e, f, b - 1, CandidateCount(e, b - 1), Scan(-1.0, q));
    }
  }

  lemma PredictionUp(m: Maths, e: Engine, f: Fall, start: nat, b: nat)
    requires m.ln(1.0) == 0.0 && f.Valid() && e.featureCount <= 1 && e.neighborsCount > 0 && b <= f.last
    ensures var p := Predictions(m, e, ColumnsOf(m, e, f.Bars()), 0, start)[b];
            && p >= 0 && (b < start ==> p == 0)
            && (start <= b && First(e.featureCount > 0) <= b && First(e.featureCount > 0) < e.maxBarsBack ==> p > 0)
  {
    hide ColumnsOf, QueueBefore, AtZero, UpVotes, EndsUp;
    if b >= start {
      QueueUp(m, e, f, start, b + 1);
      UpVotesSum(QueueBefore(m, e, ColumnsOf(m, e, f.Bars()), 0, start, b + 1).predictions);
    }
  }

  // ---------- the signal remembers the first filtered prediction ----------

  lemma {:induction false} SignalStays(prediction: seq<int>, passes: seq<bool>, on: nat, b: nat)
    requires on <= b < |prediction| == |passes| && prediction[on] > 0 && passes[on]
    requires forall i :: 0 <= i <= b ==> prediction[i] >= 0
    ensures SignalState(prediction, passes)[b] == 1
  {
    hide SignalState;
    SignalEntry(prediction, passes, b);
    if b > on {
      SignalStays(prediction, passes, on, b - 1);
    }
  }

  lemma {:induction false} SignalWaits(prediction: seq<int>, passes: seq<bool>, b: nat)
    requires b < |prediction| == |passes|
    requires forall i :: 0 <= i <= b ==> prediction[i] >= 0 && (prediction[i] == 0 || !passes[i])
    ensures SignalState(prediction, passes)[b] == 0
  {
    hide SignalState;
    SignalEntry(prediction, passes, b);
    if b > 0 {
      SignalWaits(prediction, passes, b - 1);
    }
  }

  /** With the trend and kernel filters off a start is a change of the signal. */
  lemma StartsOfRegimeEngine(m: Maths, e: Engine, h: seq<Bar>, start: nat, b: nat)
    requires 0 < b < |h| && !e.useEmaFilter && !e.useSmaFilter && !e.useKernelFilter
    ensures var v := EventsFrom(m, e, ColumnsOf(m, e, h), 0, start);
            && v.startLong[b] == (v.signal[b] == 1 && v.signal[b - 1] != 1)
            && v.startShort[b] == (v.signal[b] == -1 && v.signal[b - 1] != -1)
  {
    hide Features, Filters, KernelRegression, Predictions, SignalState, StrictLong, StrictShort, DynamicExit, Labels,
        Ema, Rolling;
  }

  /** The run bought on the bar before the batch run starts, and the signal never changes again. */
  lemma CarriedSignalStays(m: Maths, e: Engine, f: Fall, start: nat)
    requires m.ln(1.0) == 0.0 && Roots(m) && f.Valid() && e.featureCount <= 1 && e.neighborsCount > 0
    requires e.useRegimeFilter && e.regimeThreshold == 0.0 && !e.useVolatilityFilter && !e.useAdxFilter
    requires start <= f.turn + 1 && First(e.featureCount > 0) <= f.turn + 1 && First(e.featureCount > 0) < e.maxBarsBack
    ensures var v := EventsFrom(m, e, ColumnsOf(m, e, f.Bars()), 0, start);
            v.signal[f.last - 1] == 1 && v.signal[f.last] == 1
  {
    hide Features, Filters, KernelRegression, Trend, Predictions, SignalState, EntriesAndExits;
    var c := ColumnsOf(m, e, f.Bars());
    var p := Predictions(m, e, c, 0, start);
    forall b | 0 <= b <= f.last
      ensures p[b] >= 0 && (b == f.turn + 1 ==> p[b] > 0)
    {
      PredictionUp(m, e, f, start, b);
    }
    FilterOfFall(m, e, f, f.turn + 1);
    SignalStays(p, c.filters, f.turn + 1, f.last - 1);
    SignalStays(p, c.filters, f.turn + 1, f.last);
    SignalColumn(e, c, p);
  }

  /** The batch run has nothing to say before the newest bar and buys there. */
  lemma RestartedSignalRises(m: Maths, e: Engine, f: Fall)
    requires m.ln(1.0) == 0.0 && Roots(m) && f.Valid() && e.featureCount <= 1 && e.neighborsCount > 0
    requires e.useRegimeFilter && e.regimeThreshold == 0.0 && !e.useVolatilityFilter && !e.useAdxFilter
    requires First(e.featureCount > 0) <= f.last && First(e.featureCount > 0) < e.maxBarsBack
    ensures var v := EventsFrom(m, e, ColumnsOf(m, e, f.Bars()), 0, f.turn + 2);
            v.signal[f.last - 1] == 0 && v.signal[f.last] == 1
  {
    hide Features, Filters, KernelRegression, Trend, Predictions, SignalState, EntriesAndExits;
    var c := ColumnsOf(m, e, f.Bars());
    var p := Predictions(m, e, c, 0, f.turn + 2);
    forall b | 0 <= b <= f.last
      ensures p[b] >= 0 && (b < f.last ==> p[b] == 0 || !c.filters[b]) && (b == f.last ==> p[b] > 0 && c.filters[b])
    {
      PredictionUp(m, e, f, f.turn + 2, b);
      if b >= f.turn + 2 {
        FilterOfFall(m, e, f, b);
      }
    }
    SignalWaits(p, c.filters, f.last - 1);
    SignalEntry(p, c.filters, f.last);
    SignalColumn(e, c, p);
  }

  lemma SignalColumn(e: Engine, c: Columns, prediction: seq<int>)
    requires c.Valid() && |prediction| == |c.labels|
    ensures EntriesAndExits(e, c, prediction, SignalState(prediction, c.filters)).signal
         == SignalState(prediction, c.filters)
  {
    hide StartLong, StartShort, StrictLong, StrictShort, DynamicExit;
  }

  // ---------- the limit ----------

  predicate Fits(e: Engine, neighbours: nat, maxBarsBack: nat, compares: bool) {
    e.neighborsCount == neighbours && e.maxBarsBack == maxBarsBack && (e.featureCount > 0) == compares
        && e.includeFullHistory
  }

  /** For every engine with these settings and every history of `length` bars, bootstrapped on its first `k`, the
      newest result of the run is the batch one: prediction, signal, exits and early-flip flag. */
  ghost predicate ResultsAlwaysAgree(m: Maths, neighbours: nat, maxBarsBack: nat, compares: bool, k: nat, length: nat)
    requires k < length
  {
    forall e: Engine, h: seq<Bar> | Fits(e, neighbours, maxBarsBack, compares) && |h| == length ::
      NewestMatches(m, e, h, k)
  }

  /** The same for the signal alone, and only on plausible histories. */
  ghost predicate SignalsAlwaysAgree(m: Maths, neighbours: nat, maxBarsBack: nat, compares: bool, k: nat, length: nat)
    requires k < length
  {
    forall e: Engine, h: seq<Bar> | Fits(e, neighbours, maxBarsBack, compares) && |h| == length && Plausible(h) ::
      NewestSignalMatches(m, e, h, k)
  }

  /** There is no neighbour, or no candidate with a vote, or no bar with a vote before the batch run starts. */
  predicate WithinLimit(neighbours: nat, maxBarsBack: nat, compares: bool, length: nat) {
    neighbours == 0 || maxBarsBack <= First(compares) || length <= maxBarsBack + 1 + First(compares)
  }

  lemma NoNeighbours(m: Maths, e: Engine, c: Columns, carried: nat, restarted: nat)
    requires c.Valid() && e.neighborsCount == 0
    ensures Predictions(m, e, c, 0, carried) == Predictions(m, e, c, 0, restarted)
  {
    forall b | 0 <= b < |c.labels|
      ensures Predictions(m, e, c, 0, carried)[b] == Predictions(m, e, c, 0, restarted)[b]
    {
      assert QueueBefore(m, e, c, 0, carried, b + 1).predictions == [];
      assert QueueBefore(m, e, c, 0, restarted, b + 1).predictions == [];
    }
  }

  lemma AgreesWithin(m: Maths, e: Engine, h: seq<Bar>, k: nat)
    requires k < |h| && e.includeFullHistory && WithinLimit(e.neighborsCount, e.maxBarsBack, e.featureCount > 0, |h|)
    ensures NewestMatches(m, e, h, k)
  {
    hide ColumnsOf, Predictions, NewestMatches;
    var c, carried, restarted := ColumnsOf(m, e, h), MaxBarsBackIndex(e, k), MaxBarsBackIndex(e, |h|);
    if e.neighborsCount == 0 {
      NoNeighbours(m, e, c, carried, restarted);
    } else if e.featureCount > 0 {
      ColumnsWarmUp(m, e, h);
      ComparingPredictions(m, e, c, carried, restarted);
    } else {
      EarlyLabels(m, e, h);
      PlainPredictions(m, e, c, carried, restarted);
    }
    SameVotesSameResult(m, e, h, k);
  }

  lemma DiffersBeyond(m: Maths, neighbours: nat, maxBarsBack: nat, compares: bool, k: nat, length: nat)
    requires Roots(m) && m.ln(1.0) == 0.0 && k < length && !WithinLimit(neighbours, maxBarsBack, compares, length)
    ensures var e, h := RegimeEngine(neighbours, maxBarsBack, compares), FallFor(maxBarsBack, length).Bars();
            && Fits(e, neighbours, maxBarsBack, compares) && |h| == length && Plausible(h)
            && FastRun(m, e, h, k, length).0[length - 1 - k].signal == NEUTRAL
            && Batch(m, e, ColumnsOf(m, e, h)).startLong[length - 1]
  {
    hide ColumnsOf, EventsFrom, Evaluate, Plausible, Tracks;
    var e, f := RegimeEngine(neighbours, maxBarsBack, compares), FallFor(maxBarsBack, length);
    var carried := MaxBarsBackIndex(e, k);
    PricesArePlausible(f);
    CarriedSignalStays(m, e, f, carried);
    RestartedSignalRises(m, e, f);
    StartsOfRegimeEngine(m, e, f.Bars(), carried, f.last);
    StartsOfRegimeEngine(m, e, f.Bars(), f.turn + 2, f.last);
    ContinuousRun(m, e, f.Bars(), k, f.last);
  }

  lemma MatchImpliesSignal(m: Maths, e: Engine, h: seq<Bar>, k: nat)
    requires k < |h|
    ensures NewestMatches(m, e, h, k) ==> NewestSignalMatches(m, e, h, k)
  {
    hide FastRun, Batch, ColumnsOf;
  }

  lemma BuyIsNoMatch(m: Maths, e: Engine, h: seq<Bar>, k: nat)
    requires k < |h| && FastRun(m, e, h, k, |h|).0[|h| - 1 - k].signal == NEUTRAL
    requires Batch(m, e, ColumnsOf(m, e, h)).startLong[|h| - 1]
    ensures !NewestSignalMatches(m, e, h, k)
  {
    hide FastRun, Batch, ColumnsOf;
  }

  /** Main result 3. The newest result of the run is always the batch one exactly when no vote is lost: the history
      outgrows `maxBarsBack` by at most the bars without a vote, or nothing ever has one. One bar more, and in a
      falling market even the buy and sell signals differ. */
  lemma ExactLimit(m: Maths, neighbours: nat, maxBarsBack: nat, compares: bool, k: nat, length: nat)
    requires Roots(m) && m.ln(1.0) == 0.0 && k < length
    ensures ResultsAlwaysAgree(m, neighbours, maxBarsBack, compares, k, length)
       <==> WithinLimit(neighbours, maxBarsBack, compares, length)
    ensures SignalsAlwaysAgree(m, neighbours, maxBarsBack, compares, k, length)
       <==> WithinLimit(neighbours, maxBarsBack, compares, length)
  {
    hide RegimeEngine, FallFor, Plausible, NewestMatches, NewestSignalMatches, WithinLimit, FastRun, Batch, ColumnsOf;
    forall e: Engine, h: seq<Bar> | Fits(e, neighbours, maxBarsBack, compares) && |h| == length
      ensures NewestMatches(m, e, h, k) ==> NewestSignalMatches(m, e, h, k)
      ensures WithinLimit(neighbours, maxBarsBack, compares, length) ==> NewestMatches(m, e, h, k)
    {
      MatchImpliesSignal(m, e, h, k);
      if WithinLimit(neighbours, maxBarsBack, compares, length) {
        AgreesWithin(m, e, h, k);
      }
    }
    if !WithinLimit(neighbours, maxBarsBack, compares, length) {
      DiffersBeyond(m, neighbours, maxBarsBack, compares, k, length);
      var e, h := RegimeEngine(neighbours, maxBarsBack, compares), FallFor(maxBarsBack, length).Bars();
      BuyIsNoMatch(m, e, h, k);
      assert !NewestSignalMatches(m, e, h, k) && !NewestMatches(m, e, h, k);
    }
  }
}
