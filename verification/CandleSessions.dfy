/** Whole days of the candle service of `daily_swing_live.py`: sessions with a closing flush, and when a bucket is
    stored twice. The service cancels a session's tasks once its flush is done, so what a session does after it is
    short: the moment until the closing message is sent, longer only if something stalls. */
module CandleSessions {
  import opened Numeric
  import opened CandleBuilding
  import opened CandleFeed

  // ---------- sessions ----------

  /** One session: its start, its ticks and checks, its closing flush if it comes to one, and the ticks and checks that
      still get through before its tasks are cancelled. */
  datatype Session = Session(start: int, during: seq<Event>, close: Option<int>, after: seq<Event>)

  predicate Regular(s: Session) {
    InSession(s.during) && InSession(s.after) && (s.close.None? ==> s.after == [])
  }

  function Opening(s: Session): (r: seq<Event>)
    ensures r != []
  {
    [SessionStart(s.start)] + s.during
  }

  function Closing(s: Session): seq<Event> {
    if s.close.None? then [] else [MarketClose(s.close.value)] + s.after
  }

  function EventsOf(s: Session): (r: seq<Event>)
    ensures r != []
  {
    Opening(s) + Closing(s)
  }

  function LastTime(events: seq<Event>): int
    requires events != []
  {
    When(events[|events| - 1])
  }

  function AllEvents(sessions: seq<Session>): seq<Event> {
    if sessions == [] then [] else AllEvents(sessions[..|sessions| - 1]) + EventsOf(sessions[|sessions| - 1])
  }

  /** A session may follow another one at once, as after a new login; after a flush the next one starts in a later
      bucket, because the market has closed. */
  predicate Follows(s: Session, next: Session, minutes: int)
    requires minutes > 0
  {
    if s.close.None? then LastTime(EventsOf(s)) <= next.start
    else BucketAt(LastTime(EventsOf(s)), minutes) < BucketAt(next.start, minutes)
  }

  /** Sessions in order on a clock that never runs backwards. */
  predicate Scheduled(sessions: seq<Session>, minutes: int)
    requires minutes > 0
  {
    forall i :: 0 <= i < |sessions| ==>
      && Regular(sessions[i]) && OnTime(EventsOf(sessions[i]), sessions[i].start)
      && (i > 0 ==> Follows(sessions[i - 1], sessions[i], minutes))
  }

  /** The bucket the flush stores has ticks, a tick of it still comes after the flush, and then the clock moves past
      it. */
  ghost predicate Repeats(s: Session, minutes: int)
    requires minutes > 0
  {
    var b := BucketAt(LastTime(Opening(s)), minutes);
    s.close.Some? && HasTickOf(s.during, b, minutes) && HasTickOf(s.after, b, minutes) && Past(s.after, b, minutes)
  }

  // ---------- runs in parts ----------

  lemma {:induction false} RunsJoin(f: Feed, xs: seq<Event>, ys: seq<Event>, minutes: int)
    requires minutes > 0
    ensures RunFeed(f, xs + ys, minutes) == RunFeed(RunFeed(f, xs, minutes), ys, minutes)
  {
    hide Handle;
    if ys == [] {
      assert xs + ys == xs;
    } else {
      RunsJoin(f, xs, ys[..|ys| - 1], minutes);
      assert (xs + ys)[..|xs + ys| - 1] == xs + ys[..|ys| - 1];
    }
  }

  lemma RunOne(f: Feed, e: Event, minutes: int)
    requires minutes > 0
    ensures RunFeed(f, [e], minutes) == Handle(f, e, minutes)
  {
    hide Handle;
    assert [e][..0] == [];
    assert RunFeed(f, [], minutes) == f;
  }

  lemma RunNone(f: Feed, minutes: int)
    requires minutes > 0
    ensures RunFeed(f, [], minutes) == f
  {
  }

  lemma OnTimeParts(xs: seq<Event>, ys: seq<Event>, from: int)
    requires OnTime(xs + ys, from)
    ensures OnTime(xs, from) && OnTime(ys, from)
    ensures xs != [] ==> OnTime(ys, LastTime(xs))
  {
    var all := xs + ys;
    assert forall i :: 0 <= i < |xs| ==> all[i] == xs[i];
    assert forall i :: 0 <= i < |ys| ==> all[|xs| + i] == ys[i];
  }

  lemma SessionParts(before: seq<Event>, e: Event)
    requires InSession(before + [e])
    ensures InSession(before) && (e.TickArrives? || e.Boundary?)
  {
    var all := before + [e];
    assert all[|before|] == e;
    assert forall i :: 0 <= i < |before| ==> all[i] == before[i];
  }

  /** Stored candles are never taken back, so a repeated bucket stays one. */
  lemma StepOnlyAdds(f: Feed, e: Event, minutes: int)
    requires minutes > 0
    ensures f.finished <= Handle(f, e, minutes).finished
  {
    hide BucketAt;
  }

  lemma {:induction false} RunOnlyAdds(f: Feed, events: seq<Event>, minutes: int)
    requires minutes > 0
    ensures f.finished <= RunFeed(f, events, minutes).finished
  {
    hide Handle;
    if events != [] {
      RunOnlyAdds(f, events[..|events| - 1], minutes);
      StepOnlyAdds(RunFeed(f, events[..|events| - 1], minutes), events[|events| - 1], minutes);
    }
  }

  lemma RepeatedStays(xs: seq<Finished>, ys: seq<Finished>)
    requires xs <= ys && Increasing(ys)
    ensures Increasing(xs)
  {
    assert forall i :: 0 <= i < |xs| ==> xs[i] == ys[i];
  }

  // ---------- the bucket in progress ----------

  /** The bucket in progress is that of the last event, and it has ticks exactly when a tick of it arrived. */
  ghost predicate InProgress(f: Feed, events: seq<Event>, from: int, minutes: int)
    requires minutes > 0
  {
    var b := BucketAt(if events == [] then from else LastTime(events), minutes);
    f.bucket == Some(b) && (f.ticks != [] <==> HasTickOf(events, b, minutes))
  }

  lemma NoTickOfLater(events: seq<Event>, b: int, from: int, minutes: int)
    requires 0 < minutes <= DAY_MINUTES && DAY_MINUTES % minutes == 0 && OnTime(events, from)
    requires BucketAt(if events == [] then from else LastTime(events), minutes) < b
    ensures !HasTickOf(events, b, minutes)
  {
    hide BucketAt;
    if HasTickOf(events, b, minutes) {
      var i :| 0 <= i < |events| && events[i].TickArrives? && BucketAt(When(events[i]), minutes) == b;
      GridMonotone(When(events[i]), LastTime(events), minutes);
    }
  }

  lemma StepInProgress(f: Feed, before: seq<Event>, e: Event, from: int, minutes: int)
    requires 0 < minutes <= DAY_MINUTES && DAY_MINUTES % minutes == 0
    requires InProgress(f, before, from, minutes) && OnTime(before + [e], from) && (e.TickArrives? || e.Boundary?)
    ensures InProgress(Handle(f, e, minutes), before + [e], from, minutes)
  {
    hide BucketAt, HasTickOf;
    OnTimeParts(before, [e], from);
    assert [e][0] == e;
    var last := if before == [] then from else LastTime(before);
    var b := BucketAt(When(e), minutes);
    GridMonotone(last, When(e), minutes);
    TickOfStep(before, e, b, minutes);
    if BucketAt(last, minutes) < b {
      NoTickOfLater(before, b, from, minutes);
    }
  }

  lemma {:induction false} RunInProgress(f: Feed, events: seq<Event>, from: int, minutes: int)
    requires 0 < minutes <= DAY_MINUTES && DAY_MINUTES % minutes == 0
    requires f.bucket == Some(BucketAt(from, minutes)) && f.ticks == [] && InSession(events) && OnTime(events, from)
    ensures InProgress(RunFeed(f, events, minutes), events, from, minutes)
  {
    if events == [] {
      RunNone(f, minutes);
    } else {
      hide BucketAt, Handle, RunFeed, InProgress, InSession, OnTime;
      var before, e := events[..|events| - 1], events[|events| - 1];
      assert events == before + [e];
      OnTimeParts(before, [e], from);
      SessionParts(before, e);
      RunInProgress(f, before, from, minutes);
      RunFeedStep(f, events, minutes);
      StepInProgress(RunFeed(f, before, minutes), before, e, from, minutes);
    }
  }

  // ---------- one session ----------

  /** Everything stored so far lies before bucket `b`. */
  ghost predicate Before(f: Feed, b: int) {
    Increasing(f.finished) && (f.finished != [] ==> LastBucket(f) < b)
  }

  /** Up to the flush a session is in order. */
  lemma OpeningInOrder(f: Feed, s: Session, minutes: int)
    requires 0 < minutes <= DAY_MINUTES && DAY_MINUTES % minutes == 0
    requires Regular(s) && OnTime(Opening(s), s.start) && Before(f, BucketAt(s.start, minutes))
    ensures var h, b := RunFeed(f, Opening(s), minutes), BucketAt(LastTime(Opening(s)), minutes);
            Ahead(h) && h.bucket == Some(b) && (h.ticks != [] <==> HasTickOf(s.during, b, minutes))
  {
    hide BucketAt, RunFeed, HasTickOf;
    var started := Handle(f, SessionStart(s.start), minutes);
    RunsJoin(f, [SessionStart(s.start)], s.during, minutes);
    RunOne(f, SessionStart(s.start), minutes);
    OnTimeParts([SessionStart(s.start)], s.during, s.start);
    SessionKeepsAhead(started, s.during, minutes);
    RunInProgress(started, s.during, s.start, minutes);
  }

  /** With nothing to store at the flush, what follows it is in order too. */
  lemma {:induction false} AfterEmptyFlush(f: Feed, events: seq<Event>, from: int, minutes: int)
    requires 0 < minutes <= DAY_MINUTES && DAY_MINUTES % minutes == 0
    requires f.bucket.None? && Before(f, BucketAt(from, minutes)) && InSession(events) && OnTime(events, from)
    ensures var end := RunFeed(f, events, minutes);
            if events == [] then end == f else Ahead(end)
  {
    hide BucketAt, Handle, Ahead, Before, RunFeed, InSession, OnTime;
    if events == [] {
      RunNone(f, minutes);
    } else {
      var before, e := events[..|events| - 1], events[|events| - 1];
      assert events == before + [e];
      OnTimeParts(before, [e], from);
      SessionParts(before, e);
      AfterEmptyFlush(f, before, from, minutes);
      RunFeedStep(f, events, minutes);
      if before == [] {
        FirstInTime(e, from);
        GridMonotone(from, When(e), minutes);
        FirstAfterFlush(f, e, from, minutes);
      } else {
        StepStaysAhead(RunFeed(f, before, minutes), e, minutes);
      }
    }
  }

  lemma FirstInTime(e: Event, from: int)
    requires OnTime([e], from)
    ensures from <= When(e)
  {
    assert [e][0] == e;
  }

  lemma FirstAfterFlush(f: Feed, e: Event, from: int, minutes: int)
    requires minutes > 0 && f.bucket.None? && Before(f, BucketAt(from, minutes)) && (e.TickArrives? || e.Boundary?)
    requires BucketAt(from, minutes) <= BucketAt(When(e), minutes)
    ensures Ahead(Handle(f, e, minutes))
  {
    hide BucketAt;
  }

  /** A bucket in progress that is not later than the clock. */
  predicate WithClock(f: Feed, now: int, minutes: int)
    requires minutes > 0
  {
    f.bucket.Some? ==> f.bucket.value <= BucketAt(now, minutes)
  }

  lemma StepWithClock(f: Feed, from: int, e: Event, minutes: int)
    requires 0 < minutes <= DAY_MINUTES && DAY_MINUTES % minutes == 0
    requires WithClock(f, from, minutes) && from <= When(e) && (e.TickArrives? || e.Boundary?)
    ensures WithClock(Handle(f, e, minutes), When(e), minutes)
  {
    GridMonotone(from, When(e), minutes);
    hide BucketAt;
  }

  lemma {:induction false} NotAheadOfClock(f: Feed, events: seq<Event>, from: int, minutes: int)
    requires 0 < minutes <= DAY_MINUTES && DAY_MINUTES % minutes == 0
    requires WithClock(f, from, minutes) && InSession(events) && OnTime(events, from)
    ensures WithClock(RunFeed(f, events, minutes), if events == [] then from else LastTime(events), minutes)
  {
    hide BucketAt, WithClock, Handle, RunFeed, InSession, OnTime;
    if events == [] {
      RunNone(f, minutes);
    } else {
      var before, e := events[..|events| - 1], events[|events| - 1];
      assert events == before + [e];
      OnTimeParts(before, [e], from);
      SessionParts(before, e);
      NotAheadOfClock(f, before, from, minutes);
      RunFeedStep(f, events, minutes);
      var last := if before == [] then from else LastTime(before);
      FirstInTime(e, last);
      StepWithClock(RunFeed(f, before, minutes), last, e, minutes);
    }
  }

  /** What a session leaves behind: a repeated bucket, or everything stored before the next session's first bucket. */
  ghost predicate Leaves(f: Feed, s: Session, minutes: int)
    requires minutes > 0
  {
    if Repeats(s, minutes) then !Increasing(f.finished)
    else
      && Increasing(f.finished)
      && (f.finished != [] ==> LastBucket(f) <= BucketAt(LastTime(EventsOf(s)), minutes))
      && (f.finished != [] && s.close.None? ==> LastBucket(f) < BucketAt(LastTime(EventsOf(s)), minutes))
  }

  lemma OneSession(f: Feed, s: Session, minutes: int)
    requires 0 < minutes <= DAY_MINUTES && DAY_MINUTES % minutes == 0
    requires Regular(s) && OnTime(EventsOf(s), s.start) && Before(f, BucketAt(s.start, minutes))
    ensures Leaves(RunFeed(f, EventsOf(s), minutes), s, minutes)
  {
    hide BucketAt, RunFeed, HasTickOf, Handle, Past, Increasing, Ahead;
    OnTimeParts(Opening(s), Closing(s), s.start);
    OpeningInOrder(f, s, minutes);
    RunsJoin(f, Opening(s), Closing(s), minutes);
    var h := RunFeed(f, Opening(s), minutes);
    if s.close.None? {
      NothingMore(h, s, minutes);
    } else {
      assert Closing(s)[0] == MarketClose(s.close.value);
      RunsJoin(h, [MarketClose(s.close.value)], s.after, minutes);
      RunOne(h, MarketClose(s.close.value), minutes);
      OnTimeParts([MarketClose(s.close.value)], s.after, LastTime(Opening(s)));
      GridMonotone(LastTime(Opening(s)), s.close.value, minutes);
      FlushedSession(h, s, minutes);
    }
  }

  lemma NothingMore(h: Feed, s: Session, minutes: int)
    requires minutes > 0 && s.close.None? && Ahead(h) && h.bucket == Some(BucketAt(LastTime(Opening(s)), minutes))
    ensures RunFeed(h, Closing(s), minutes) == h && EventsOf(s) == Opening(s) && Leaves(h, s, minutes)
  {
    hide BucketAt;
    assert RunFeed(h, [], minutes) == h;
  }

  lemma LastOfClosed(s: Session)
    requires s.close.Some?
    ensures LastTime(EventsOf(s)) == if s.after == [] then s.close.value else LastTime(s.after)
  {
  }

  /** The flush and what comes after it. */
  lemma FlushedSession(h: Feed, s: Session, minutes: int)
    requires 0 < minutes <= DAY_MINUTES && DAY_MINUTES % minutes == 0
    requires Regular(s) && s.close.Some? && OnTime(s.after, s.close.value)
    requires BucketAt(LastTime(Opening(s)), minutes) <= BucketAt(s.close.value, minutes)
    requires Ahead(h) && h.bucket == Some(BucketAt(LastTime(Opening(s)), minutes))
    requires h.ticks != [] <==> HasTickOf(s.during, BucketAt(LastTime(Opening(s)), minutes), minutes)
    ensures Leaves(RunFeed(Handle(h, MarketClose(s.close.value), minutes), s.after, minutes), s, minutes)
  {
    hide BucketAt, RunFeed, HasTickOf, Past, Opening;
    var c := Handle(h, MarketClose(s.close.value), minutes);
    var end := RunFeed(c, s.after, minutes);
    LastOfClosed(s);
    FlushInOrder(h, s.close.value, minutes);
    NotAheadOfClock(c, s.after, s.close.value, minutes);
    RunOnlyAdds(c, s.after, minutes);
    if h.ticks == [] {
      AfterEmptyFlush(c, s.after, s.close.value, minutes);
      hide Increasing;
    } else {
      AfterFlush(c, s.after, s.close.value, minutes);
      if s.after != [] {
        GridMonotone(s.close.value, LastTime(s.after), minutes);
      }
      hide Increasing;
    }
  }

  lemma FlushInOrder(h: Feed, now: int, minutes: int)
    requires minutes > 0 && Ahead(h)
    ensures var c := Handle(h, MarketClose(now), minutes);
            && c.bucket.None? && Increasing(c.finished)
            && (h.ticks != [] ==> c.finished != [] && LastBucket(c) == h.bucket.value)
            && (h.ticks == [] ==> c.finished == h.finished)
  {
  }

  // ---------- any number of sessions ----------

  lemma NextIsBefore(f: Feed, s: Session, next: Session, minutes: int)
    requires 0 < minutes <= DAY_MINUTES && DAY_MINUTES % minutes == 0
    requires Leaves(f, s, minutes) && !Repeats(s, minutes) && Follows(s, next, minutes)
    ensures Before(f, BucketAt(next.start, minutes))
  {
    hide BucketAt, Repeats, Increasing, EventsOf;
    if s.close.None? {
      GridMonotone(LastTime(EventsOf(s)), next.start, minutes);
    }
  }

  lemma {:induction false} SessionsInOrder(sessions: seq<Session>, minutes: int)
    requires 0 < minutes <= DAY_MINUTES && DAY_MINUTES % minutes == 0 && Scheduled(sessions, minutes)
    ensures var end := RunFeed(NO_FEED, AllEvents(sessions), minutes);
            if exists i :: 0 <= i < |sessions| && Repeats(sessions[i], minutes) then !Increasing(end.finished)
            else if sessions == [] then end == NO_FEED
            else Leaves(end, sessions[|sessions| - 1], minutes)
  {
    hide BucketAt, Handle, Repeats, Increasing, Leaves, EventsOf, Follows, OnTime, Regular;
    if sessions != [] {
      var before, last := sessions[..|sessions| - 1], sessions[|sessions| - 1];
      SessionsInOrder(before, minutes);
      var f := RunFeed(NO_FEED, AllEvents(before), minutes);
      RunsJoin(NO_FEED, AllEvents(before), EventsOf(last), minutes);
      var end := RunFeed(f, EventsOf(last), minutes);
      if i :| 0 <= i < |before| && Repeats(before[i], minutes) {
        assert Repeats(sessions[i], minutes);
        RunOnlyAdds(f, EventsOf(last), minutes);
        if Increasing(end.finished) {
          RepeatedStays(f.finished, end.finished);
        }
      } else {
        if before == [] {
          NothingBefore(BucketAt(last.start, minutes));
        } else {
          assert !Repeats(before[|before| - 1], minutes);
          NextIsBefore(f, before[|before| - 1], last, minutes);
        }
        OneSession(f, last, minutes);
        LeavesInOrder(end, last, minutes);
      }
    }
  }

  lemma NothingBefore(b: int)
    ensures Before(NO_FEED, b)
  {
  }

  lemma LeavesInOrder(f: Feed, s: Session, minutes: int)
    requires minutes > 0 && Leaves(f, s, minutes)
    ensures Increasing(f.finished) <==> !Repeats(s, minutes)
  {
  }

  /** Main result. Over any number of sessions, with restarts, stored buckets strictly increase exactly when no
      session goes on, after a flush that stored a bucket, with a tick of that bucket and then past it. */
  lemma BucketsIncreaseExactly(sessions: seq<Session>, minutes: int)
    requires 0 < minutes <= DAY_MINUTES && DAY_MINUTES % minutes == 0 && Scheduled(sessions, minutes)
    ensures Increasing(RunFeed(NO_FEED, AllEvents(sessions), minutes).finished)
       <==> forall i :: 0 <= i < |sessions| ==> !Repeats(sessions[i], minutes)
  {
    hide RunFeed, Repeats, Scheduled, BucketAt;
    SessionsInOrder(sessions, minutes);
    if sessions != [] {
      hide Increasing, Leaves;
      LeavesIncreasing(RunFeed(NO_FEED, AllEvents(sessions), minutes), sessions[|sessions| - 1], minutes);
    }
  }

  lemma LeavesIncreasing(f: Feed, s: Session, minutes: int)
    requires minutes > 0
    ensures Leaves(f, s, minutes) && !Repeats(s, minutes) ==> Increasing(f.finished)
  {
  }

  /** So a service whose sessions are over before the clock reaches the next bucket never stores a bucket twice. */
  lemma PromptSessionsIncrease(sessions: seq<Session>, minutes: int)
    requires 0 < minutes <= DAY_MINUTES && DAY_MINUTES % minutes == 0 && Scheduled(sessions, minutes)
    requires forall i :: 0 <= i < |sessions|
              ==> !Past(sessions[i].after, BucketAt(LastTime(Opening(sessions[i])), minutes), minutes)
    ensures Increasing(RunFeed(NO_FEED, AllEvents(sessions), minutes).finished)
  {
    hide RunFeed, BucketAt, Scheduled, HasTickOf, Past, AllEvents, Increasing;
    BucketsIncreaseExactly(sessions, minutes);
  }

  // ---------- a session that stalls ----------

  /** A tick at a minute of the day. */
  function TickAt(minute: int): Event {
    TickArrives(Tick(minute * MINUTE, 100.0, 1))
  }

  /** A day that ends at 15:30 with ticks in the 15:15 bucket, another one behind the flush, and a check at 16:00. */
  function StalledDay(): Session {
    Session(920 * MINUTE, [TickAt(925)], Some(930 * MINUTE), [TickAt(930), Boundary(960 * MINUTE)])
  }

  lemma StalledBuckets()
    ensures BucketAt(920 * MINUTE, 30) == BucketAt(925 * MINUTE, 30) == BucketAt(930 * MINUTE, 30) == 915 * MINUTE
    ensures BucketAt(960 * MINUTE, 30) == 945 * MINUTE
  {
  }

  /** A session that stalls for fifteen minutes between its flush and its end stores the last bucket of the day
      twice. */
  lemma StalledSessionRepeats()
    ensures Scheduled([StalledDay()], 30) && Repeats(StalledDay(), 30)
    ensures !Increasing(RunFeed(NO_FEED, AllEvents([StalledDay()]), 30).finished)
  {
    hide BucketAt, RunFeed, Increasing;
    StalledBuckets();
    var s := StalledDay();
    assert EventsOf(s) == [SessionStart(920 * MINUTE), TickAt(925), MarketClose(930 * MINUTE), TickAt(930),
                           Boundary(960 * MINUTE)];
    assert s.during[0] == TickAt(925) && s.after[0] == TickAt(930);
    assert HasTickOf(s.during, 915 * MINUTE, 30) && HasTickOf(s.after, 915 * MINUTE, 30);
    assert Repeats([s][0], 30);
    BucketsIncreaseExactly([s], 30);
  }

  // ---------- the volumes of a session ----------

  lemma OneMorePart(xs: seq<Finished>, last: Finished)
    ensures AllTicks(xs + [last]) == AllTicks(xs) + last.ticks
    ensures Volumes(xs + [last]) == Volumes(xs) + (if last.ticks == [] then 0 else VolumeOf(last.ticks))
  {
    assert (xs + [last])[..|xs|] == xs;
  }

  lemma {:induction false} PartsAdd(xs: seq<Finished>, ys: seq<Finished>)
    ensures AllTicks(xs + ys) == AllTicks(xs) + AllTicks(ys)
    ensures Volumes(xs + ys) == Volumes(xs) + Volumes(ys)
  {
    if ys == [] {
      assert xs + ys == xs;
    } else {
      var before, last := ys[..|ys| - 1], ys[|ys| - 1];
      PartsAdd(xs, before);
      hide AllTicks, Volumes, VolumeOf;
      assert ys == before + [last] && xs + ys == xs + before + [last];
      OneMorePart(before, last);
      OneMorePart(xs + before, last);
    }
  }

  lemma RiseOfFront(xs: seq<Tick>, ys: seq<Tick>)
    requires Cumulative(xs + ys)
    ensures Cumulative(xs) && Rise(xs) <= Rise(xs + ys)
  {
    CumulativeParts(xs, ys);
    var all := xs + ys;
    if xs != [] {
      assert all[|xs| - 1] == xs[|xs| - 1] && all[0] == xs[0];
    } else if all != [] {
      assert all[0].volume <= all[|all| - 1].volume;
    }
  }

  /** Candles added to `old` whose ticks are the first ones of `ticks`. */
  lemma AddedFitTheRise(before: seq<Finished>, now: seq<Finished>, rest: seq<Tick>, ticks: seq<Tick>)
    requires before <= now && AllTicks(now) + rest == AllTicks(before) + ticks && Cumulative(ticks)
    ensures Volumes(now) - Volumes(before) <= Rise(ticks)
  {
    hide AllTicks, Volumes, Cumulative;
    var added := now[|before|..];
    assert now == before + added;
    PartsAdd(before, added);
    Cancels(AllTicks(before), AllTicks(added), rest, ticks);
    RiseOfFront(AllTicks(added), rest);
    VolumesFitTheRise(added);
  }

  lemma Cancels<A>(front: seq<A>, x: seq<A>, y: seq<A>, z: seq<A>)
    requires front + x + y == front + z
    ensures x + y == z
  {
    assert (front + x + y)[|front|..] == x + y && (front + z)[|front|..] == z;
  }

  /** Main result. The candles a session stores, before its flush and with it, have no more volume together than the
      running total of the day rose over the session's ticks. */
  lemma SessionVolumesFitTheRise(f: Feed, s: Session, now: int, minutes: int)
    requires minutes > 0 && InSession(s.during) && Cumulative(TicksOf(s.during))
    ensures var h := RunFeed(f, Opening(s), minutes);
            && Volumes(h.finished) - Volumes(f.finished) <= Rise(TicksOf(s.during))
            && Volumes(Handle(h, MarketClose(now), minutes).finished) - Volumes(f.finished) <= Rise(TicksOf(s.during))
  {
    hide BucketAt, RunFeed, Cumulative, Volumes, AllTicks;
    var started := Handle(f, SessionStart(s.start), minutes);
    RunsJoin(f, [SessionStart(s.start)], s.during, minutes);
    RunOne(f, SessionStart(s.start), minutes);
    var h := RunFeed(f, Opening(s), minutes);
    var c := Handle(h, MarketClose(now), minutes);
    EveryTickOnce(started, s.during, minutes);
    CloseFlushesAll(h, now, minutes);
    RunOnlyAdds(started, s.during, minutes);
    StepOnlyAdds(h, MarketClose(now), minutes);
    assert started.ticks == [] && started.finished == f.finished;
    assert AllTicks(f.finished) + [] + TicksOf(s.during) == AllTicks(f.finished) + TicksOf(s.during);
    AddedFitTheRise(f.finished, h.finished, h.ticks, TicksOf(s.during));
    assert AllTicks(c.finished) + [] == AllTicks(c.finished);
    AddedFitTheRise(f.finished, c.finished, [], TicksOf(s.during));
  }
}
