/** The 60-slot rate window of a subscription
    (karo_x2_sdk/_internal/robot_impl.py:643-644, 706-719, 1540-1541),
    proved against an exact log of arrival seconds. */
module RateWindow {

  const SLOTS: int := 60

  /** The bucket a second falls on. */
  function BucketOf(second: int): (b: int)
    ensures 0 <= b < SLOTS
  {
    second % SLOTS
  }

  ghost predicate InWindow(second: int, now: int) {
    now - SLOTS < second <= now
  }

  /** Arrivals inside the window ending at `now` whose second falls on bucket `b`. */
  ghost function InBucket(log: seq<int>, now: int, b: int): nat {
    if log == [] then 0
    else
      var s := log[|log| - 1];
      InBucket(log[..|log| - 1], now, b) + (if InWindow(s, now) && BucketOf(s) == b then 1 else 0)
  }

  /** Arrivals inside the window ending at `now` that fall on one of the first `k` buckets. */
  ghost function InBuckets(log: seq<int>, now: int, k: int): nat {
    if log == [] then 0
    else
      var s := log[|log| - 1];
      InBuckets(log[..|log| - 1], now, k) + (if InWindow(s, now) && BucketOf(s) < k then 1 else 0)
  }

  /** Arrivals inside the window ending at `now`. */
  ghost function InLastMinute(log: seq<int>, now: int): nat {
    if log == [] then 0
    else InLastMinute(log[..|log| - 1], now) + (if InWindow(log[|log| - 1], now) then 1 else 0)
  }

  function Sum(s: seq<nat>): nat {
    if s == [] then 0 else Sum(s[..|s| - 1]) + s[|s| - 1]
  }

  lemma {:induction false} AddBucket(log: seq<int>, now: int, k: int)
    requires 0 <= k < SLOTS
    ensures InBuckets(log, now, k + 1) == InBuckets(log, now, k) + InBucket(log, now, k)
  {
    if log != [] {
      AddBucket(log[..|log| - 1], now, k);
    }
  }

  lemma {:induction false} NoBucket(log: seq<int>, now: int)
    ensures InBuckets(log, now, 0) == 0
    ensures InBuckets(log, now, SLOTS) == InLastMinute(log, now)
  {
    if log != [] {
      NoBucket(log[..|log| - 1], now);
    }
  }

  /** Sixty buckets that each hold exactly their own second's count add up to the whole minute. */
  lemma {:induction false} SumOfBuckets(buckets: seq<nat>, log: seq<int>, now: int)
    requires |buckets| <= SLOTS
    requires forall b :: 0 <= b < |buckets| ==> buckets[b] == InBucket(log, now, b)
    ensures Sum(buckets) == InBuckets(log, now, |buckets|)
  {
    if buckets == [] {
      NoBucket(log, now);
    } else {
      var k := |buckets| - 1;
      SumOfBuckets(buckets[..k], log, now);
      AddBucket(log, now, k);
    }
  }

  /** Moving the window to `now` empties the bucket of a second that was passed over ... */
  lemma {:induction false} PassedOver(log: seq<int>, last: int, now: int, second: int)
    requires forall i :: 0 <= i < |log| ==> log[i] <= last
    requires last < second <= now && second <= last + SLOTS
    ensures InBucket(log, now, BucketOf(second)) == 0
  {
    if log != [] {
      PassedOver(log[..|log| - 1], last, now, second);
    }
  }

  /** ... and leaves the others as they were. */
  lemma {:induction false} Kept(log: seq<int>, last: int, now: int, b: int)
    requires forall i :: 0 <= i < |log| ==> log[i] <= last
    requires last <= now
    requires forall second :: last < second <= now && second <= last + SLOTS ==> BucketOf(second) != b
    ensures InBucket(log, now, b) == InBucket(log, last, b)
  {
    if log != [] {
      var s := log[|log| - 1];
      Kept(log[..|log| - 1], last, now, b);
      if InWindow(s, last) && !InWindow(s, now) {
        assert BucketOf(s + SLOTS) == BucketOf(s);
      }
    }
  }

  class RateWindowState {
    var hzLastEpochMs: int
    const buckets: array<nat>
    ghost var log: seq<int>

    /** Each bucket holds exactly the count of its own second in the minute ending at the last slide. */
    ghost predicate Valid()
      reads this, buckets
    {
      && buckets.Length == SLOTS
      && 0 <= hzLastEpochMs
      && (hzLastEpochMs == 0 ==> log == [])
      && (forall i :: 0 <= i < |log| ==> log[i] <= hzLastEpochMs / 1000)
      && (forall b :: 0 <= b < SLOTS ==> buckets[b] == InBucket(log, hzLastEpochMs / 1000, b))
    }

    constructor ()
      ensures Valid() && log == [] && fresh(buckets)
    {
      buckets := new nat[SLOTS](_ => 0);
      hzLastEpochMs := 0;
      log := [];
    }

    method Slide(epochMs: int) returns (curSec: int)
      requires Valid() && 0 < epochMs && hzLastEpochMs <= epochMs
      modifies this`hzLastEpochMs, buckets
      ensures Valid() && curSec == epochMs / 1000 == hzLastEpochMs / 1000
      ensures 0 < hzLastEpochMs <= epochMs
    {
      curSec := epochMs / 1000;
      var lastSec := hzLastEpochMs / 1000;
      if curSec == lastSec && hzLastEpochMs > 0 {
        return;
      }
      if hzLastEpochMs == 0 {
        hzLastEpochMs := epochMs;
        return;
      }
      var gap := if 60 <= curSec - lastSec then 60 else curSec - lastSec;
      var i := 1;
      while i <= gap
        invariant 1 <= i <= gap + 1
        invariant forall second :: lastSec < second < lastSec + i ==> buckets[BucketOf(second)] == 0
        invariant forall b :: 0 <= b < SLOTS ==>
                    buckets[b] == old(buckets[b])
                    || exists second :: lastSec < second < lastSec + i && BucketOf(second) == b
      {
        var zeroed := BucketOf(lastSec + i);
        buckets[zeroed] := 0;
        i := i + 1;
      }
      forall b | 0 <= b < SLOTS
        ensures buckets[b] == InBucket(log, curSec, b)
      {
        if second :| lastSec < second <= lastSec + gap && BucketOf(second) == b {
          PassedOver(log, lastSec, curSec, second);
        } else {
          Kept(log, lastSec, curSec, b);
        }
      }
      hzLastEpochMs := epochMs;
    }

    /** An admitted frame. */
    method Record(epochMs: int)
      requires Valid() && 0 < epochMs && hzLastEpochMs <= epochMs
      modifies this, buckets
      ensures Valid() && log == old(log) + [epochMs / 1000] && hzLastEpochMs <= epochMs
    {
      var curSec := Slide(epochMs);
      buckets[BucketOf(curSec)] := buckets[BucketOf(curSec)] + 1;
      assert (log + [curSec])[..|log|] == log;
      log := log + [curSec];
    }

    /** A diagnostics read: the sum is the number of frames admitted in the last sixty seconds. */
    method ReadMinute(epochMs: int) returns (total: nat)
      requires Valid() && 0 < epochMs && hzLastEpochMs <= epochMs
      modifies this`hzLastEpochMs, buckets
      ensures Valid() && hzLastEpochMs <= epochMs
      ensures total == InLastMinute(log, epochMs / 1000)
    {
      var curSec := Slide(epochMs);
      total := 0;
      for b := 0 to buckets.Length
        invariant total == Sum(buckets[..b])
      {
        assert buckets[..b + 1][..b] == buckets[..b];
        total := total + buckets[b];
      }
      assert buckets[..buckets.Length] == buckets[..];
      SumOfBuckets(buckets[..], log, curSec);
      NoBucket(log, curSec);
    }
  }
}
