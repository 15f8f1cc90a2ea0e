/** Ticks collected into candles over whole sessions: the aggregator of `infrastructure/kite_ticker.py` and the
    roll-over of `daily_swing_live.py`, seen by one instrument. */
module CandleFeed {
  import opened Numeric
  import opened CandleBuilding

  /** `volume` is the exchange's running total for the day. */
  datatype Tick = Tick(now: int, price: real, volume: int)

  datatype Candle = Candle(open: real, high: real, low: real, close: real, volume: int)

  // ---------- the candle of some ticks ----------

  function Highest(ticks: seq<Tick>): (r: real)
    requires ticks != []
    ensures forall i :: 0 <= i < |ticks| ==> ticks[i].price <= r
    ensures exists i :: 0 <= i < |ticks| && ticks[i].price == r
  {
    if |ticks| == 1 then ticks[0].price
    else
      var earlier := Highest(ticks[..|ticks| - 1]);
      if ticks[|ticks| - 1].price > earlier then ticks[|ticks| - 1].price else earlier
  }

  function Lowest(ticks: seq<Tick>): (r: real)
    requires ticks != []
    ensures forall i :: 0 <= i < |ticks| ==> r <= ticks[i].price
    ensures exists i :: 0 <= i < |ticks| && ticks[i].price == r
  {
    if |ticks| == 1 then ticks[0].price
    else
      var earlier := Lowest(ticks[..|ticks| - 1]);
      if ticks[|ticks| - 1].price < earlier then ticks[|ticks| - 1].price else earlier
  }

  function VolumeOf(ticks: seq<Tick>): int
    requires ticks != []
  {
    var rise := ticks[|ticks| - 1].volume - ticks[0].volume;
    if rise < 0 then 0 else rise
  }

  /** First, highest, lowest and last price, and the rise in volume. */
  function CandleOf(ticks: seq<Tick>): Candle
    requires ticks != []
  {
    Candle(ticks[0].price, Highest(ticks), Lowest(ticks), ticks[|ticks| - 1].price, VolumeOf(ticks))
  }

  class CandleAggregator {
    var currentBucket: Option<int>
    var open: Option<real>
    var high: real
    var low: real
    var close: real
    var volumeAtBucketStart: int
    var lastVolume: int
    /** The ticks added since the last start. */
    ghost var ticks: seq<Tick>

    ghost predicate Valid()
      reads this
    {
      && (open.None? <==> ticks == [])
      && (ticks != [] ==>
            && open == Some(ticks[0].price) && high == Highest(ticks) && low == Lowest(ticks)
            && close == ticks[|ticks| - 1].price
            && volumeAtBucketStart == ticks[0].volume && lastVolume == ticks[|ticks| - 1].volume)
    }

    constructor ()
      ensures Valid() && ticks == []
    {
      currentBucket, open, high, low, close, volumeAtBucketStart, lastVolume := None, None, 0.0, 0.0, 0.0, 0, 0;
      ticks := [];
    }

    method AddTick(tick: Tick)
      requires Valid()
      modifies this
      ensures Valid() && ticks == old(ticks) + [tick] && currentBucket == old(currentBucket)
    {
      ghost var before := ticks;
      assert (before + [tick])[..|before|] == before;
      if open.None? {
        open, high, low, volumeAtBucketStart := Some(tick.price), tick.price, tick.price, tick.volume;
      } else {
        high := if tick.price > high then tick.price else high;
        low := if tick.price < low then tick.price else low;
      }
      close := tick.price;
      lastVolume := tick.volume;
      ticks := ticks + [tick];
    }

    method Start(bucket: int)
      modifies this
      ensures Valid() && ticks == [] && currentBucket == Some(bucket)
    {
      currentBucket, open := Some(bucket), None;
      ticks := [];
    }

    method Finalize() returns (r: Option<Candle>)
      requires Valid()
      ensures r == if ticks == [] then None else Some(CandleOf(ticks))
    {
      if open.None? {
        return None;
      }
      var volume := if lastVolume - volumeAtBucketStart > 0 then lastVolume - volumeAtBucketStart else 0;
      return Some(Candle(open.value, high, low, close, volume));
    }
  }

  method NewAggregators(count: nat) returns (created: seq<CandleAggregator>)
    ensures |created| == count && fresh(created)
    ensures forall i, j :: 0 <= i < j < count ==> created[i] != created[j]
    ensures forall i :: 0 <= i < count ==> created[i].Valid() && created[i].ticks == []
  {
    created := [];
    for n := 0 to count
      invariant |created| == n && fresh(created)
      invariant forall i, j :: 0 <= i < j < n ==> created[i] != created[j]
      invariant forall i :: 0 <= i < n ==> created[i].Valid() && created[i].ticks == []
    {
      var aggregator := new CandleAggregator();
      created := created + [aggregator];
    }
  }

  // ---------- the feed over a run of events ----------

  /** A finished bucket with the ticks of its candle. */
  datatype Finished = Finished(bucket: int, ticks: seq<Tick>)

  /** The bucket in progress, its ticks, and the finished buckets. */
  datatype Feed = Feed(bucket: Option<int>, ticks: seq<Tick>, finished: seq<Finished>)

  const NO_FEED := Feed(None, [], [])

  datatype Event =
    | SessionStart(now: int)
    | TickArrives(tick: Tick)
    | Boundary(now: int)
    | MarketClose(now: int)

  function When(e: Event): int {
    match e
    case SessionStart(now) => now
    case TickArrives(tick) => tick.now
    case Boundary(now) => now
    case MarketClose(now) => now
  }

  function Finish(f: Feed): seq<Finished>
    requires f.bucket.Some?
  {
    if f.ticks == [] then f.finished else f.finished + [Finished(f.bucket.value, f.ticks)]
  }

  /** Moves on to a later bucket; an earlier or equal one changes nothing. */
  function RollTo(f: Feed, bucket: int): Feed {
    if f.bucket.None? then Feed(Some(bucket), [], f.finished)
    else if bucket <= f.bucket.value then f
    else Feed(Some(bucket), [], Finish(f))
  }

  function Handle(f: Feed, e: Event, minutes: int): Feed
    requires minutes > 0
  {
    match e
    case SessionStart(now) => Feed(Some(BucketAt(now, minutes)), [], f.finished)
    case TickArrives(tick) =>
      var rolled := RollTo(f, BucketAt(tick.now, minutes));
      rolled.(ticks := rolled.ticks + [tick])
    case Boundary(now) => RollTo(f, BucketAt(now, minutes))
    case MarketClose(_) => if f.bucket.None? then f else Feed(None, f.ticks, Finish(f))
  }

  function RunFeed(f: Feed, events: seq<Event>, minutes: int): Feed
    requires minutes > 0
  {
    if events == [] then f else Handle(RunFeed(f, events[..|events| - 1], minutes), events[|events| - 1], minutes)
  }

  lemma RunFeedStep(f: Feed, events: seq<Event>, minutes: int)
    requires minutes > 0 && events != []
    ensures RunFeed(f, events, minutes)
         == Handle(RunFeed(f, events[..|events| - 1], minutes), events[|events| - 1], minutes)
  {
  }

  /** The stored candles are those of the finished buckets, in order. */
  ghost predicate StoresAll(finished: seq<Finished>, stored: seq<(int, Candle)>) {
    |stored| == |finished| && forall i :: 0 <= i < |finished| ==> Stores(finished[i], stored[i])
  }

  ghost predicate Stores(f: Finished, candle: (int, Candle)) {
    f.ticks != [] && candle == (f.bucket, CandleOf(f.ticks))
  }

  lemma StoredOneMore(finished: seq<Finished>, stored: seq<(int, Candle)>, bucket: int, ticks: seq<Tick>)
    requires StoresAll(finished, stored) && ticks != []
    ensures StoresAll(finished + [Finished(bucket, ticks)], stored + [(bucket, CandleOf(ticks))])
  {
  }

  ghost function Restarted(feeds: seq<Feed>, bucket: int): seq<Feed> {
    seq(|feeds|, i requires 0 <= i < |feeds| => Feed(Some(bucket), [], feeds[i].finished))
  }

  ghost function Unset(feeds: seq<Feed>): seq<Feed> {
    seq(|feeds|, i requires 0 <= i < |feeds| => feeds[i].(bucket := None))
  }

  /** The recorder of all instruments: one aggregator each, and one bucket for all of them. */
  class CandleRecorder {
    const minutes: int
    var currentBucket: Option<int>
    var aggregators: seq<CandleAggregator>
    /** The stored candles of each instrument, by bucket. */
    var stored: seq<seq<(int, Candle)>>
    /** What each instrument has seen. */
    ghost var feeds: seq<Feed>

    ghost predicate Valid()
      reads this, aggregators
    {
      && minutes > 0
      && |feeds| == |aggregators| == |stored|
      && (forall i, j :: 0 <= i < j < |aggregators| ==> aggregators[i] != aggregators[j])
      && (forall i :: 0 <= i < |aggregators| ==>
            && aggregators[i].Valid()
            && feeds[i].bucket == currentBucket && feeds[i].ticks == aggregators[i].ticks
            && StoresAll(feeds[i].finished, stored[i]))
    }

    constructor (minutes: int, instruments: nat)
      requires minutes > 0
      ensures Valid() && this.minutes == minutes && feeds == seq(instruments, _ => NO_FEED)
    {
      this.minutes := minutes;
      currentBucket := None;
      stored, feeds := seq(instruments, _ => []), seq(instruments, _ => NO_FEED);
      new;
      aggregators := NewAggregators(instruments);
    }

    /** Starts every aggregator on a bucket. */
    method StartAll(bucket: int)
      requires forall i, j :: 0 <= i < j < |aggregators| ==> aggregators[i] != aggregators[j]
      modifies aggregators
      ensures forall i :: 0 <= i < |aggregators| ==> aggregators[i].Valid() && aggregators[i].ticks == []
    {
      for n := 0 to |aggregators|
        invariant forall i :: 0 <= i < n ==> aggregators[i].Valid() && aggregators[i].ticks == []
      {
        aggregators[n].Start(bucket);
      }
    }

    /** Stores the candle of the bucket in progress of every instrument that has one. */
    method StoreAll(bucket: int)
      requires Valid() && currentBucket == Some(bucket)
      modifies this`stored, this`feeds
      ensures Valid() && |feeds| == |old(feeds)|
      ensures forall i :: 0 <= i < |feeds| ==> feeds[i] == old(feeds)[i].(finished := Finish(old(feeds)[i]))
    {
      ghost var before := feeds;
      for n := 0 to |aggregators|
        invariant Valid() && |feeds| == |before|
        invariant forall i :: 0 <= i < n ==> feeds[i] == before[i].(finished := Finish(before[i]))
        invariant forall i :: n <= i < |feeds| ==> feeds[i] == before[i]
      {
        var candle := aggregators[n].Finalize();
        if candle.Some? {
          StoredOneMore(feeds[n].finished, stored[n], bucket, aggregators[n].ticks);
          stored := stored[n := stored[n] + [(bucket, candle.value)]];
          feeds := feeds[n := feeds[n].(finished := Finish(feeds[n]))];
        }
      }
    }

    method Roll(newBucket: int)
      requires Valid()
      modifies this, aggregators
      ensures Valid() && aggregators == old(aggregators) && |feeds| == |old(feeds)|
      ensures currentBucket == if old(currentBucket).Some? && newBucket <= old(currentBucket).value
              then old(currentBucket) else Some(newBucket)
      ensures forall i :: 0 <= i < |feeds| ==> feeds[i] == RollTo(old(feeds)[i], newBucket)
    {
      if currentBucket.Some? {
        if newBucket <= currentBucket.value {
          return;
        }
        StoreAll(currentBucket.value);
      }
      currentBucket := Some(newBucket);
      StartAll(newBucket);
      feeds := Restarted(feeds, newBucket);
    }

    /** A session begins with new aggregators; what an earlier session left unfinished is gone. */
    method StartSession(now: int)
      requires Valid()
      modifies this
      ensures Valid() && fresh(aggregators) && |feeds| == |old(feeds)|
      ensures forall i :: 0 <= i < |feeds| ==> feeds[i] == Handle(old(feeds)[i], SessionStart(now), minutes)
    {
      aggregators := NewAggregators(|aggregators|);
      currentBucket := Some(BucketAt(now, minutes));
      feeds := Restarted(feeds, BucketAt(now, minutes));
    }

    method AddTo(instrument: nat, tick: Tick)
      requires Valid() && instrument < |feeds|
      modifies this`feeds, aggregators[instrument]
      ensures Valid()
           && feeds == old(feeds)[instrument := old(feeds)[instrument].(ticks := old(feeds)[instrument].ticks + [tick])]
    {
      hide StoresAll;
      aggregators[instrument].AddTick(tick);
      feeds := feeds[instrument := feeds[instrument].(ticks := aggregators[instrument].ticks)];
    }

    /** A tick of one instrument rolls all of them. */
    method OnTick(instrument: nat, tick: Tick)
      requires Valid() && instrument < |feeds|
      modifies this, aggregators
      ensures Valid() && aggregators == old(aggregators) && |feeds| == |old(feeds)|
      ensures forall i :: 0 <= i < |feeds| ==>
                feeds[i] == Handle(old(feeds)[i], if i == instrument then TickArrives(tick)
                                   else Boundary(tick.now), minutes)
    {
      hide BucketAt, RollTo;
      Roll(BucketAt(tick.now, minutes));
      AddTo(instrument, tick);
    }

    method OnBoundary(now: int)
      requires Valid()
      modifies this, aggregators
      ensures Valid() && aggregators == old(aggregators) && |feeds| == |old(feeds)|
      ensures forall i :: 0 <= i < |feeds| ==> feeds[i] == Handle(old(feeds)[i], Boundary(now), minutes)
    {
      hide BucketAt, RollTo;
      Roll(BucketAt(now, minutes));
    }

    method OnMarketClose(now: int)
      requires Valid()
      modifies this
      ensures Valid() && aggregators == old(aggregators) && |feeds| == |old(feeds)|
      ensures forall i :: 0 <= i < |feeds| ==> feeds[i] == Handle(old(feeds)[i], MarketClose(now), minutes)
    {
      if currentBucket.Some? {
        StoreAll(currentBucket.value);
        currentBucket := None;
        feeds := Unset(feeds);
      }
    }
  }

  // ---------- each tick in exactly one candle ----------

  function TicksOf(events: seq<Event>): seq<Tick> {
    if events == [] then []
    else
      var e := events[|events| - 1];
      TicksOf(events[..|events| - 1]) + (if e.TickArrives? then [e.tick] else [])
  }

  function AllTicks(finished: seq<Finished>): seq<Tick> {
    if finished == [] then [] else AllTicks(finished[..|finished| - 1]) + finished[|finished| - 1].ticks
  }

  /** Ticks and boundary checks, as they come within one session. */
  predicate InSession(events: seq<Event>) {
    forall i :: 0 <= i < |events| ==> events[i].TickArrives? || events[i].Boundary?
  }

  lemma FinishKeepsTicks(f: Feed)
    requires f.bucket.Some?
    ensures AllTicks(Finish(f)) == AllTicks(f.finished) + f.ticks
  {
    if f.ticks != [] {
      assert Finish(f)[..|f.finished|] == f.finished;
    }
  }

  lemma StepKeepsTicks(f: Feed, e: Event, minutes: int)
    requires minutes > 0 && (e.TickArrives? || e.Boundary?) && f.bucket.Some?
    ensures var next := Handle(f, e, minutes);
            && next.bucket.Some?
            && AllTicks(next.finished) + next.ticks
                == AllTicks(f.finished) + f.ticks + (if e.TickArrives? then [e.tick] else [])
  {
    hide BucketAt, AllTicks, Finish;
    FinishKeepsTicks(f);
  }

  /** Main result. Within a session every tick is in exactly one candle or in the bucket in progress, in order. */
  lemma {:induction false} EveryTickOnce(f: Feed, events: seq<Event>, minutes: int)
    requires minutes > 0 && InSession(events) && f.bucket.Some?
    ensures var end := RunFeed(f, events, minutes);
            end.bucket.Some? && AllTicks(end.finished) + end.ticks == AllTicks(f.finished) + f.ticks + TicksOf(events)
  {
    hide Handle, AllTicks;
    if events != [] {
      EveryTickOnce(f, events[..|events| - 1], minutes);
      StepKeepsTicks(RunFeed(f, events[..|events| - 1], minutes), events[|events| - 1], minutes);
    }
  }

  /** At the market close nothing stays behind. */
  lemma CloseFlushesAll(f: Feed, now: int, minutes: int)
    requires minutes > 0 && f.bucket.Some?
    ensures AllTicks(Handle(f, MarketClose(now), minutes).finished) == AllTicks(f.finished) + f.ticks
  {
    FinishKeepsTicks(f);
  }

  // ---------- the order of buckets ----------

  ghost predicate Increasing(finished: seq<Finished>) {
    forall i, j :: 0 <= i < j < |finished| ==> finished[i].bucket < finished[j].bucket
  }

  function LastBucket(f: Feed): int
    requires f.finished != []
  {
    f.finished[|f.finished| - 1].bucket
  }

  /** Finished buckets increase, and a later one is in progress. */
  ghost predicate Ahead(f: Feed) {
    Increasing(f.finished) && f.bucket.Some? && (f.finished != [] ==> LastBucket(f) < f.bucket.value)
  }

  lemma RollKeepsAhead(f: Feed, bucket: int)
    requires Ahead(f)
    ensures Ahead(RollTo(f, bucket))
  {
  }

  /** Main result. Within a session finished buckets strictly increase, whatever the clock does. */
  lemma {:induction false} SessionKeepsAhead(f: Feed, events: seq<Event>, minutes: int)
    requires minutes > 0 && InSession(events) && Ahead(f)
    ensures Ahead(RunFeed(f, events, minutes))
  {
    hide Ahead, Handle;
    if events != [] {
      SessionKeepsAhead(f, events[..|events| - 1], minutes);
      StepStaysAhead(RunFeed(f, events[..|events| - 1], minutes), events[|events| - 1], minutes);
    }
  }

  predicate OnTime(events: seq<Event>, from: int) {
    (forall i :: 0 <= i < |events| ==> from <= When(events[i]))
    && forall i, j :: 0 <= i < j < |events| ==> When(events[i]) <= When(events[j])
  }

  // ---------- what a late tick can do ----------

  /** A tick of the bucket `b`. */
  ghost predicate HasTickOf(events: seq<Event>, b: int, minutes: int)
    requires minutes > 0
  {
    exists i :: 0 <= i < |events| && events[i].TickArrives? && BucketAt(When(events[i]), minutes) == b
  }

  /** The clock has moved past the bucket `b`. */
  predicate Past(events: seq<Event>, b: int, minutes: int)
    requires minutes > 0
  {
    events != [] && BucketAt(When(events[|events| - 1]), minutes) > b
  }

  lemma LaterFinishes(f: Feed, e: Event, minutes: int)
    requires minutes > 0 && (e.TickArrives? || e.Boundary?)
    ensures f.finished <= Handle(f, e, minutes).finished
    ensures !Increasing(f.finished) ==> !Increasing(Handle(f, e, minutes).finished)
  {
    hide BucketAt;
    var next := Handle(f, e, minutes).finished;
    if i, j :| 0 <= i < j < |f.finished| && f.finished[i].bucket >= f.finished[j].bucket {
      assert next[i].bucket >= next[j].bucket;
    }
  }

  lemma TickOfStep(before: seq<Event>, e: Event, b: int, minutes: int)
    requires minutes > 0
    ensures HasTickOf(before + [e], b, minutes)
       <==> HasTickOf(before, b, minutes) || (e.TickArrives? && BucketAt(When(e), minutes) == b)
  {
    hide BucketAt;
    var events := before + [e];
    if HasTickOf(before, b, minutes) {
      var i :| 0 <= i < |before| && before[i].TickArrives? && BucketAt(When(before[i]), minutes) == b;
      assert events[i] == before[i];
    }
    if e.TickArrives? && BucketAt(When(e), minutes) == b {
      assert events[|before|] == e;
    }
  }

  /** The feed has been flushed and its last bucket stored; `from` is not before that bucket. */
  ghost predicate Flushed(f: Feed, from: int, minutes: int)
    requires minutes > 0
  {
    f.bucket.None? && f.finished != [] && Increasing(f.finished) && LastBucket(f) <= BucketAt(from, minutes)
  }

  lemma NextAfterFlush(f: Feed, before: seq<Event>, e: Event, end: Feed, minutes: int)
    requires minutes > 0 && f.finished != [] && Increasing(f.finished) && (e.TickArrives? || e.Boundary?)
    requires f.bucket.None? && (if before == [] then end == f
                                else end == Feed(Some(LastBucket(f)), TicksOf(before), f.finished))
    requires BucketAt(When(e), minutes) >= LastBucket(f)
    ensures var b, next := LastBucket(f), Handle(end, e, minutes);
            && (BucketAt(When(e), minutes) == b ==> next == Feed(Some(b), TicksOf(before + [e]), f.finished))
            && (BucketAt(When(e), minutes) > b ==> if TicksOf(before) == [] then Ahead(next)
                else !Increasing(next.finished))
  {
    hide BucketAt;
    assert (before + [e])[..|before|] == before;
    var b, next := LastBucket(f), Handle(end, e, minutes);
    if BucketAt(When(e), minutes) > b && TicksOf(before) != [] {
      assert next.finished[|f.finished| - 1].bucket == b && next.finished[|f.finished|].bucket == b;
    }
  }

  /** What a flushed feed has become after some events: it fills its last bucket again, and may then store it again. */
  ghost predicate Resumed(f: Feed, events: seq<Event>, end: Feed, minutes: int)
    requires minutes > 0 && f.finished != []
  {
    var b := LastBucket(f);
    && (!Past(events, b, minutes) ==>
          && end == (if events == [] then f else Feed(Some(b), TicksOf(events), f.finished))
          && (HasTickOf(events, b, minutes) <==> TicksOf(events) != []))
    && (Past(events, b, minutes) ==> if HasTickOf(events, b, minutes) then !Increasing(end.finished) else Ahead(end))
  }

  lemma PastResumes(f: Feed, before: seq<Event>, e: Event, end: Feed, minutes: int)
    requires minutes > 0 && f.finished != [] && (e.TickArrives? || e.Boundary?) && Resumed(f, before, end, minutes)
    requires Past(before, LastBucket(f), minutes) && BucketAt(When(e), minutes) > LastBucket(f)
    ensures Resumed(f, before + [e], Handle(end, e, minutes), minutes)
  {
    hide BucketAt, Handle, Ahead, Increasing, HasTickOf, TicksOf, LastBucket;
    TickOfStep(before, e, LastBucket(f), minutes);
    LaterFinishes(end, e, minutes);
    if !HasTickOf(before, LastBucket(f), minutes) {
      StepStaysAhead(end, e, minutes);
    }
  }

  lemma StepResumes(f: Feed, before: seq<Event>, e: Event, end: Feed, minutes: int)
    requires minutes > 0 && f.finished != [] && Increasing(f.finished) && f.bucket.None?
    requires (e.TickArrives? || e.Boundary?) && Resumed(f, before, end, minutes)
    requires !Past(before, LastBucket(f), minutes) && BucketAt(When(e), minutes) >= LastBucket(f)
    ensures Resumed(f, before + [e], Handle(end, e, minutes), minutes)
  {
    NextAfterFlush(f, before, e, end, minutes);
    TickOfStep(before, e, LastBucket(f), minutes);
    assert (before + [e])[..|before|] == before;
    hide BucketAt, Handle, Ahead, Increasing, HasTickOf, LastBucket;
  }

  lemma {:induction false} AfterFlush(f: Feed, events: seq<Event>, from: int, minutes: int)
    requires 0 < minutes <= DAY_MINUTES && DAY_MINUTES % minutes == 0
    requires Flushed(f, from, minutes) && InSession(events) && OnTime(events, from)
    ensures Resumed(f, events, RunFeed(f, events, minutes), minutes)
  {
    if events == [] {
      hide Increasing, Ahead;
    } else {
      hide BucketAt, Handle, Ahead, Increasing, HasTickOf, TicksOf, RunFeed, Resumed;
      var before, e := events[..|events| - 1], events[|events| - 1];
      var b, end := LastBucket(f), RunFeed(f, before, minutes);
      assert events == before + [e];
      AfterFlush(f, before, from, minutes);
      RunFeedStep(f, events, minutes);
      GridMonotone(from, When(e), minutes);
      if Past(before, b, minutes) {
        GridMonotone(When(before[|before| - 1]), When(e), minutes);
        PastResumes(f, before, e, end, minutes);
      } else {
        StepResumes(f, before, e, end, minutes);
      }
    }
  }

  lemma StepStaysAhead(f: Feed, e: Event, minutes: int)
    requires minutes > 0 && Ahead(f) && (e.TickArrives? || e.Boundary?)
    ensures Ahead(Handle(f, e, minutes))
  {
    hide BucketAt, RollTo;
    RollKeepsAhead(f, BucketAt(When(e), minutes));
  }

  /** A session that goes on after its closing flush stores a bucket twice exactly when a tick still falls into the
      stored bucket and the clock then moves past it. */
  lemma LateTickRepeatsExactly(f: Feed, events: seq<Event>, from: int, minutes: int)
    requires 0 < minutes <= DAY_MINUTES && DAY_MINUTES % minutes == 0
    requires Flushed(f, from, minutes) && InSession(events) && OnTime(events, from)
    ensures Increasing(RunFeed(f, events, minutes).finished)
       <==> !(HasTickOf(events, LastBucket(f), minutes) && Past(events, LastBucket(f), minutes))
  {
    hide RunFeed, BucketAt, HasTickOf, TicksOf;
    AfterFlush(f, events, from, minutes);
  }

  // ---------- the right bucket ----------

  /** Every tick is filed under its own bucket, and the bucket in progress is the one of the last event. */
  ghost predicate Filed(f: Feed, last: int, minutes: int)
    requires minutes > 0
  {
    && f.bucket == Some(BucketAt(last, minutes))
    && (forall i :: 0 <= i < |f.ticks| ==> BucketAt(f.ticks[i].now, minutes) == f.bucket.value)
    && (forall i, j :: 0 <= i < |f.finished| && 0 <= j < |f.finished[i].ticks| ==>
          BucketAt(f.finished[i].ticks[j].now, minutes) == f.finished[i].bucket)
  }

  lemma StepFiles(f: Feed, last: int, e: Event, minutes: int)
    requires 0 < minutes <= DAY_MINUTES && DAY_MINUTES % minutes == 0
    requires Filed(f, last, minutes) && (e.TickArrives? || e.Boundary?) && last <= When(e)
    ensures Filed(Handle(f, e, minutes), When(e), minutes)
  {
    GridMonotone(last, When(e), minutes);
    hide BucketAt;
  }

  /** Main result. With a clock that never runs backwards and a bucket that divides the day, every tick of a session is
      filed under the bucket its own time falls into. */
  lemma {:induction false} TicksLandInTheirBucket(f: Feed, events: seq<Event>, from: int, minutes: int)
    requires 0 < minutes <= DAY_MINUTES && DAY_MINUTES % minutes == 0
    requires Filed(f, from, minutes) && InSession(events) && OnTime(events, from)
    ensures Filed(RunFeed(f, events, minutes), if events == [] then from else When(events[|events| - 1]), minutes)
  {
    hide Filed, BucketAt, Handle;
    if events != [] {
      var before := events[..|events| - 1];
      TicksLandInTheirBucket(f, before, from, minutes);
      var last := if before == [] then from else When(before[|before| - 1]);
      StepFiles(RunFeed(f, before, minutes), last, events[|events| - 1], minutes);
    }
  }

  // ---------- volume ----------

  function Volumes(finished: seq<Finished>): int {
    if finished == [] then 0
    else
      Volumes(finished[..|finished| - 1])
      + (if finished[|finished| - 1].ticks == [] then 0 else VolumeOf(finished[|finished| - 1].ticks))
  }

  function Rise(ticks: seq<Tick>): int {
    if ticks == [] then 0 else ticks[|ticks| - 1].volume - ticks[0].volume
  }

  /** The running total never falls. */
  ghost predicate Cumulative(ticks: seq<Tick>) {
    forall i, j :: 0 <= i <= j < |ticks| ==> ticks[i].volume <= ticks[j].volume
  }

  lemma CumulativeParts(xs: seq<Tick>, ys: seq<Tick>)
    requires Cumulative(xs + ys)
    ensures Cumulative(xs) && Cumulative(ys)
    ensures xs != [] && ys != [] ==> xs[|xs| - 1].volume <= ys[0].volume
  {
    var all := xs + ys;
    assert forall i :: 0 <= i < |xs| ==> xs[i] == all[i];
    assert forall i :: 0 <= i < |ys| ==> ys[i] == all[|xs| + i];
  }

  /** The candles' volumes add up to no more than the rise in the running total over their ticks. */
  lemma {:induction false} VolumesFitTheRise(finished: seq<Finished>)
    requires Cumulative(AllTicks(finished))
    ensures Volumes(finished) <= Rise(AllTicks(finished))
  {
    if finished != [] {
      var before := AllTicks(finished[..|finished| - 1]);
      var last := finished[|finished| - 1].ticks;
      CumulativeParts(before, last);
      VolumesFitTheRise(finished[..|finished| - 1]);
      assert Cumulative(last);
      assert before + last == AllTicks(finished);
      if last != [] {
        assert last[0].volume <= last[|last| - 1].volume;
      }
    }
  }
}
