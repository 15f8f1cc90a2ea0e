/** Ticks to candles (`infrastructure/kite_ticker.py`) and the roll-over of buckets that drives it
    (`daily_swing_live.py`). Times are microseconds of Indian time from some midnight on. */
module CandleBuilding {
  // ---------- buckets ----------

  const MINUTE := 60000000
  const DAY_MINUTES := 1440
  const OPEN_MINUTES := 555

  function Midnight(when: int): int {
    when - when % (DAY_MINUTES * MINUTE)
  }

  /** The market open of the day of a moment, 09:15. */
  function OpenOf(when: int): int {
    Midnight(when) + OPEN_MINUTES * MINUTE
  }

  /** The start of the bucket a moment falls into; buckets are cut from the market open of its day, both ways. */
  function BucketAt(when: int, minutes: int): int
    requires minutes > 0
  {
    OpenOf(when) + (when - OpenOf(when)) / (minutes * MINUTE) * (minutes * MINUTE)
  }

  lemma FloorStep(x: int, w: int)
    requires w > 0
    ensures x / w * w <= x < x / w * w + w
  {
  }

  lemma ScaleGap(a: int, b: int, w: int)
    requires w > 0
    ensures a > b ==> a * w >= b * w + w
  {
    if a > b {
      Distribute(b, a - b, w);
      AtLeastOnce(a - b, w);
    }
  }

  lemma Distribute(x: int, y: int, w: int)
    ensures (x + y) * w == x * w + y * w
  {
  }

  lemma AtLeastOnce(d: nat, w: nat)
    requires d >= 1
    ensures d * w >= w
  {
    Distribute(d - 1, 1, w);
  }

  lemma FloorMonotone(x: int, y: int, w: int)
    requires w > 0 && x <= y
    ensures x / w * w <= y / w * w
  {
    FloorStep(x, w);
    FloorStep(y, w);
    ScaleGap(x / w, y / w, w);
    ScaleGap(y / w, x / w, w);
  }

  lemma FloorUnique(x: int, w: int, k: int)
    requires w > 0 && k * w <= x < k * w + w
    ensures x / w == k && x / w * w == k * w
  {
    FloorStep(x, w);
    ScaleGap(x / w, k, w);
    ScaleGap(k, x / w, w);
  }

  lemma MultipleExactly(x: int, w: int)
    requires w > 0
    ensures x / w * w == x <==> x % w == 0
  {
  }

  /** A moment lies within its bucket. */
  lemma BucketContains(when: int, minutes: int)
    requires minutes > 0
    ensures BucketAt(when, minutes) <= when < BucketAt(when, minutes) + minutes * MINUTE
  {
    FloorStep(when - OpenOf(when), minutes * MINUTE);
  }

  /** Within one day, later moments fall into the same or later buckets. */
  lemma BucketMonotone(t: int, u: int, minutes: int)
    requires minutes > 0 && t <= u && Midnight(t) == Midnight(u)
    ensures BucketAt(t, minutes) <= BucketAt(u, minutes)
  {
    FloorMonotone(t - OpenOf(t), u - OpenOf(t), minutes * MINUTE);
  }

  lemma MidnightUnique(when: int, midnight: int)
    requires midnight % (DAY_MINUTES * MINUTE) == 0 && midnight <= when < midnight + DAY_MINUTES * MINUTE
    ensures Midnight(when) == midnight
  {
  }

  /** A bucket start is its own bucket start as long as it falls on the same day. */
  lemma IdempotentSameDay(when: int, minutes: int)
    requires minutes > 0 && Midnight(BucketAt(when, minutes)) == Midnight(when)
    ensures BucketAt(BucketAt(when, minutes), minutes) == BucketAt(when, minutes)
  {
    var w := minutes * MINUTE;
    var k := (when - OpenOf(when)) / w;
    FloorUnique(k * w, w, k);
  }

  lemma ScaledMultiple(x: int, minutes: int)
    requires minutes > 0
    ensures (x * MINUTE) % (minutes * MINUTE) == 0 <==> x % minutes == 0
  {
    var w := minutes * MINUTE;
    if x % minutes == 0 {
      var k := x / minutes;
      assert x == k * minutes;
      assert x * MINUTE == k * w;
      FloorUnique(k * w, w, k);
    }
    if (x * MINUTE) % w == 0 {
      var k := (x * MINUTE) / w;
      assert x * MINUTE == k * w == k * minutes * MINUTE;
      assert x == k * minutes;
      FloorUnique(k * minutes, minutes, k);
    }
  }

  /** The bucket that contains midnight starts the evening before, unless the market open is a whole number of buckets
      after midnight. */
  lemma MidnightBucket(midnight: int, minutes: int)
    requires 0 < minutes <= DAY_MINUTES && midnight % (DAY_MINUTES * MINUTE) == 0
    ensures Midnight(midnight) == midnight
    ensures OPEN_MINUTES % minutes == 0 ==> BucketAt(midnight, minutes) == midnight
    ensures OPEN_MINUTES % minutes != 0 ==> midnight - DAY_MINUTES * MINUTE < BucketAt(midnight, minutes) < midnight
  {
    BucketContains(midnight, minutes);
    ScaledMultiple(-OPEN_MINUTES, minutes);
    MultipleExactly(-OPEN_MINUTES * MINUTE, minutes * MINUTE);
    NegatedMultiple(OPEN_MINUTES, minutes);
    assert midnight - OpenOf(midnight) == -OPEN_MINUTES * MINUTE;
  }

  lemma NegatedMultiple(x: int, m: int)
    requires m > 0
    ensures (-x) % m == 0 <==> x % m == 0
  {
    if x % m == 0 {
      FloorUnique(-x, m, -(x / m));
    }
    if (-x) % m == 0 {
      FloorUnique(x, m, -((-x) / m));
    }
  }

  /** Taking the bucket start of the bucket that contains midnight. */
  lemma MidnightBucketAgain(midnight: int, minutes: int)
    requires 0 < minutes <= DAY_MINUTES && midnight % (DAY_MINUTES * MINUTE) == 0 && OPEN_MINUTES % minutes != 0
    ensures BucketAt(BucketAt(midnight, minutes), minutes) == BucketAt(midnight, minutes)
       <==> DAY_MINUTES % minutes == 0
  {
    MidnightBucket(midnight, minutes);
    var w := minutes * MINUTE;
    var b := BucketAt(midnight, minutes);
    var k := (midnight - OpenOf(midnight)) / w;
    assert b == OpenOf(midnight) + k * w;
    MidnightUnique(b, midnight - DAY_MINUTES * MINUTE);
    var before := OpenOf(midnight) - DAY_MINUTES * MINUTE;
    assert OpenOf(b) == before;
    assert b - before == DAY_MINUTES * MINUTE + k * w;
    MultipleExactly(b - before, w);
    ShiftedMultiple(DAY_MINUTES * MINUTE, k, w);
    ScaledMultiple(DAY_MINUTES, minutes);
  }

  lemma ShiftedMultiple(x: int, k: int, w: int)
    requires w > 0
    ensures (x + k * w) % w == 0 <==> x % w == 0
  {
    if x % w == 0 {
      assert x + k * w == (x / w + k) * w;
      FloorUnique(x + k * w, w, x / w + k);
    }
    if (x + k * w) % w == 0 {
      assert x == ((x + k * w) / w - k) * w;
      FloorUnique(x, w, (x + k * w) / w - k);
    }
  }

  /** Main result. For buckets of up to a day, taking the bucket start twice is taking it once, at every moment,
      exactly when the bucket divides the day or divides the time from midnight to the open. */
  lemma IdempotentExactly(minutes: int)
    requires 0 < minutes <= DAY_MINUTES
    ensures (forall when :: BucketAt(BucketAt(when, minutes), minutes) == BucketAt(when, minutes))
       <==> DAY_MINUTES % minutes == 0 || OPEN_MINUTES % minutes == 0
  {
    if DAY_MINUTES % minutes == 0 || OPEN_MINUTES % minutes == 0 {
      forall when
        ensures BucketAt(BucketAt(when, minutes), minutes) == BucketAt(when, minutes)
      {
        IdempotentAt(when, minutes);
      }
    } else {
      MidnightBucketAgain(0, minutes);
    }
  }

  lemma IdempotentAt(when: int, minutes: int)
    requires 0 < minutes <= DAY_MINUTES && (DAY_MINUTES % minutes == 0 || OPEN_MINUTES % minutes == 0)
    ensures BucketAt(BucketAt(when, minutes), minutes) == BucketAt(when, minutes)
  {
    var midnight := Midnight(when);
    MidnightIsMultiple(when);
    MidnightBucket(midnight, minutes);
    BucketMonotone(midnight, when, minutes);
    BucketContains(when, minutes);
    var b := BucketAt(when, minutes);
    if b >= midnight {
      MidnightUnique(b, midnight);
      IdempotentSameDay(when, minutes);
    } else {
      SameBucketBeforeMidnight(when, minutes);
      MidnightBucketAgain(midnight, minutes);
    }
  }

  lemma MidnightIsMultiple(when: int)
    ensures Midnight(when) % (DAY_MINUTES * MINUTE) == 0
         && Midnight(when) <= when < Midnight(when) + DAY_MINUTES * MINUTE
  {
  }

  /** A bucket that starts before midnight is the bucket that contains midnight. */
  lemma SameBucketBeforeMidnight(when: int, minutes: int)
    requires 0 < minutes <= DAY_MINUTES && BucketAt(when, minutes) < Midnight(when)
    ensures BucketAt(Midnight(when), minutes) == BucketAt(when, minutes)
  {
    var midnight := Midnight(when);
    var w := minutes * MINUTE;
    MidnightIsMultiple(when);
    MidnightUnique(midnight, midnight);
    BucketContains(when, minutes);
    var k := (when - OpenOf(when)) / w;
    FloorUnique(midnight - OpenOf(when), w, k);
  }

  /** Buckets that divide the day lie on one grid for all days. */
  lemma {:induction false} OneGrid(when: int, minutes: int)
    requires 0 < minutes <= DAY_MINUTES && DAY_MINUTES % minutes == 0
    ensures BucketAt(when, minutes) == OPEN_MINUTES * MINUTE
            + (when - OPEN_MINUTES * MINUTE) / (minutes * MINUTE) * (minutes * MINUTE)
  {
    var w := minutes * MINUTE;
    var x := when - OPEN_MINUTES * MINUTE;
    var days := Midnight(when) / (DAY_MINUTES * MINUTE);
    MidnightIsMultiple(when);
    MultipleExactly(Midnight(when), DAY_MINUTES * MINUTE);
    var perDay := DAY_MINUTES / minutes;
    assert DAY_MINUTES == perDay * minutes;
    assert DAY_MINUTES * MINUTE == perDay * w;
    DayShift(days, perDay, w);
    assert Midnight(when) == days * perDay * w;
    var k := (x - Midnight(when)) / w;
    FloorStep(x - Midnight(when), w);
    DayShift(days, perDay, w);
    assert (k + days * perDay) * w == k * w + Midnight(when);
    FloorUnique(x, w, k + days * perDay);
  }

  lemma DayShift(days: int, perDay: int, w: int)
    ensures days * (perDay * w) == days * perDay * w
  {
  }

  /** For such buckets the order of moments is kept over any number of days. */
  lemma GridMonotone(t: int, u: int, minutes: int)
    requires 0 < minutes <= DAY_MINUTES && DAY_MINUTES % minutes == 0 && t <= u
    ensures BucketAt(t, minutes) <= BucketAt(u, minutes)
  {
    OneGrid(t, minutes);
    OneGrid(u, minutes);
    FloorMonotone(t - OPEN_MINUTES * MINUTE, u - OPEN_MINUTES * MINUTE, minutes * MINUTE);
  }
}
