/** How far the carried queue is the queue of the batch run: the batch run forgets its oldest bars once the history
    outgrows `maxBarsBack`, the carried queue does not. What that does to the results is in `ResultLimit`. */
module RefinementLimit {
  import opened Numeric
  import opened Indicators
  import opened EngineColumns
  import opened AlphaEngine
  import opened FastPredict
  import opened FastRefinement

  /** For every engine with this `maxBarsBack` and full history on, and every history of `length` bars bootstrapped
      on its first `k`, the carried queue is the queue of the batch run on the whole history. */
  ghost predicate QueueAlwaysAgrees(maxBarsBack: nat, k: nat, length: nat)
    requires k <= length
  {
    forall m: Maths, e: Engine, h: seq<Bar> | e.maxBarsBack == maxBarsBack && e.includeFullHistory && |h| == length ::
      FastRun(m, e, h, k, length).1.queue
      == QueueBefore(m, e, ColumnsOf(m, e, h), StartIndex(e, length), MaxBarsBackIndex(e, length), length)
  }

  // ---------- counting what a scan admits when every distance is equal ----------

  function Admitted(to: nat): nat {
    if to == 0 then 0 else Admitted(to - 1) + (if (to - 1) % 4 != 0 then 1 else 0)
  }

  function TotalAdmitted(maxBarsBack: nat, from: nat, b: nat): nat {
    if b <= from then 0
    else TotalAdmitted(maxBarsBack, from, b - 1) + Admitted(if maxBarsBack < b then maxBarsBack else b)
  }

  lemma {:induction false} TotalSplits(maxBarsBack: nat, a: nat, b: nat, c: nat)
    requires a <= b <= c
    ensures TotalAdmitted(maxBarsBack, a, c) == TotalAdmitted(maxBarsBack, a, b) + TotalAdmitted(maxBarsBack, b, c)
  {
    if b < c {
      TotalSplits(maxBarsBack, a, b, c - 1);
    }
  }

  lemma {:induction false} AdmittedPositive(to: nat)
    requires to >= 2
    ensures Admitted(to) >= 1
  {
    if to == 2 {
      assert Admitted(1) == 0;
    } else {
      AdmittedPositive(to - 1);
    }
  }

  /** With no features every distance is 0, so nothing is refused and, with room, nothing is evicted. */
  lemma {:induction false} ScanCounts(m: Maths, e: Engine, c: Columns, bar: nat, to: nat, s: Scan)
    requires e.featureCount == 0 && c.Valid() && bar < |c.labels| && to <= |c.labels|
    requires s.queue.Valid(e) && s.last <= 0.0 && |s.queue.predictions| + Admitted(to) <= e.neighborsCount
    ensures var t := ScanRange(m, e, c, bar, 0, to, s);
            t.last <= 0.0 && |t.queue.predictions| == |s.queue.predictions| + Admitted(to)
  {
    if to > 0 {
      ScanCounts(m, e, c, bar, to - 1, s);
      assert FeaturesUsed(e, c) == 0;
      assert Distance(m, c, bar, to - 1, 0) == Fin(0.0);
    }
  }

  lemma {:induction false} QueueCounts(m: Maths, e: Engine, c: Columns, start: nat, b: nat)
    requires e.featureCount == 0 && c.Valid() && b <= |c.labels|
    requires TotalAdmitted(e.maxBarsBack, start, b) <= e.neighborsCount
    ensures |QueueBefore(m, e, c, 0, start, b).predictions| == TotalAdmitted(e.maxBarsBack, start, b)
  {
    hide ScanRange;
    if b > start {
      QueueCounts(m, e, c, start, b - 1);
      ScanCounts(m, e, c, b - 1, CandidateCount(e, b - 1), Scan(-1.0, QueueBefore(m, e, c, 0, start, b - 1)));
    }
  }

  /** A history that only bar 0 may be a neighbour of keeps the queue empty. */
  lemma {:induction false} NoCandidates(m: Maths, e: Engine, c: Columns, start: nat, b: nat)
    requires e.maxBarsBack <= 1 && c.Valid() && b <= |c.labels|
    ensures QueueBefore(m, e, c, 0, start, b) == EMPTY
  {
    if b > start {
      NoCandidates(m, e, c, start, b - 1);
      var s := Scan(-1.0, EMPTY);
      assert ScanRange(m, e, c, b - 1, 0, 0, s) == s;
    }
  }

  // ---------- the limit ----------

  lemma RunQueue(m: Maths, e: Engine, h: seq<Bar>, k: nat, n: nat)
    requires k <= n <= |h| && e.includeFullHistory
    ensures FastRun(m, e, h, k, n).1.queue == QueueBefore(m, e, ColumnsOf(m, e, h), 0, MaxBarsBackIndex(e, k), n)
  {
    hide ColumnsOf, Evaluate, EventsFrom, QueueBefore, Replay;
    EarlyLabels(m, e, h);
    RunIsOneFold(m, e, h, k, n);
    ReplayTracks(m, e, ColumnsOf(m, e, h), 0, MaxBarsBackIndex(e, k), n);
  }

  lemma QueueAgreesWithin(maxBarsBack: nat, k: nat, length: nat)
    requires k <= length
    requires length <= maxBarsBack + 2 || maxBarsBack <= 1 || k == length
    ensures QueueAlwaysAgrees(maxBarsBack, k, length)
  {
    hide ColumnsOf, Evaluate, EventsFrom, QueueBefore;
    forall m: Maths, e: Engine, h: seq<Bar> | e.maxBarsBack == maxBarsBack && e.includeFullHistory && |h| == length
      ensures FastRun(m, e, h, k, length).1.queue
           == QueueBefore(m, e, ColumnsOf(m, e, h), StartIndex(e, length), MaxBarsBackIndex(e, length), length)
    {
      var c := ColumnsOf(m, e, h);
      RunQueue(m, e, h, k, length);
      if length <= maxBarsBack + 2 {
        StartAtBarOne(m, e, c, 0, MaxBarsBackIndex(e, k), length);
        StartAtBarOne(m, e, c, 0, MaxBarsBackIndex(e, length), length);
      } else if maxBarsBack <= 1 {
        NoCandidates(m, e, c, MaxBarsBackIndex(e, k), length);
        NoCandidates(m, e, c, MaxBarsBackIndex(e, length), length);
      }
    }
  }

  lemma QueueDiffersBeyond(maxBarsBack: nat, k: nat, length: nat)
    requires k < length && length > maxBarsBack + 2 && maxBarsBack > 1
    ensures !QueueAlwaysAgrees(maxBarsBack, k, length)
  {
    hide ColumnsOf, Evaluate, EventsFrom, QueueBefore;
    var m := Maths(x => x, x => x, x => x, (x, y) => x);
    var room := TotalAdmitted(maxBarsBack, 0, length);
    var e: Engine := DEFAULTS.(neighborsCount := room, maxBarsBack := maxBarsBack, featureCount := 0,
                               includeFullHistory := true);
    var h := seq(length, _ => ZERO_BAR);
    var c := ColumnsOf(m, e, h);
    var carried, restarted := MaxBarsBackIndex(e, k), MaxBarsBackIndex(e, length);
    TotalSplits(maxBarsBack, 0, carried, length);
    TotalSplits(maxBarsBack, 0, restarted, length);
    TotalSplits(maxBarsBack, carried, restarted, length);
    AdmittedPositive(if maxBarsBack < restarted then maxBarsBack else restarted);
    QueueCounts(m, e, c, carried, length);
    QueueCounts(m, e, c, restarted, length);
    RunQueue(m, e, h, k, length);
  }

  /** The carried queue is always the batch queue exactly when the history has at most
      `maxBarsBack + 2` bars, or no bar but bar 0 is ever a candidate, or nothing was carried. */
  lemma QueueAgreesExactly(maxBarsBack: nat, k: nat, length: nat)
    requires k <= length
    ensures QueueAlwaysAgrees(maxBarsBack, k, length) <==> length <= maxBarsBack + 2 || maxBarsBack <= 1 || k == length
  {
    if length <= maxBarsBack + 2 || maxBarsBack <= 1 || k == length {
      QueueAgreesWithin(maxBarsBack, k, length);
    } else {
      QueueDiffersBeyond(maxBarsBack, k, length);
    }
  }
}
