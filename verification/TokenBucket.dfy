/** The client-side rate limiter that guards `cmd_vel`
    (karo_x2_sdk/_internal/robot_impl.py:73-89), over real arithmetic. */
module TokenBucket {
  import opened RealArithmetic

  datatype Bucket = Bucket(maxHz: real, burst: real, tokens: real, last: real)

  /** What the constructor's arguments and every later call keep. */
  ghost predicate Healthy(b: Bucket) {
    0.0 < b.maxHz && 1.0 <= b.burst && 0.0 <= b.tokens <= b.burst
  }

  /** Tokens earned over a stretch of time. */
  function Earned(maxHz: real, from: real, to: real): real {
    (to - from) * maxHz
  }

  /** One call after `earned` more tokens: the new bucket and whether the call was accepted. */
  function Spend(b: Bucket, earned: real, now: real): (Bucket, bool) {
    var filled := Min(b.burst, b.tokens + earned);
    if filled >= 1.0
    then (b.(tokens := filled - 1.0, last := now), true)
    else (b.(tokens := filled, last := now), false)
  }

  /** One call at clock reading `now`. */
  function Acquire(b: Bucket, now: real): (Bucket, bool) {
    Spend(b, Earned(b.maxHz, b.last, now), now)
  }

  class TokenBucketState {
    const maxHz: real
    const burst: real
    var tokens: real
    var last: real

    ghost function View(): Bucket
      reads this
    {
      Bucket(maxHz, burst, tokens, last)
    }

    constructor (maxHz: real, burst: real, now: real)
      ensures View() == Bucket(maxHz, burst, burst, now)
    {
      this.maxHz, this.burst, this.tokens, this.last := maxHz, burst, burst, now;
    }

    method TryAcquire(now: real) returns (ok: bool)
      requires Healthy(View()) && last <= now
      modifies this`tokens, this`last
      ensures (View(), ok) == Acquire(old(View()), now)
      ensures Healthy(View())
    {
      AcquireKeepsHealthy(View(), now);
      var elapsed := now - last;
      ghost var earned := Earned(maxHz, last, now);
      last := now;
      tokens := Min(burst, tokens + elapsed * maxHz);
      assert tokens == Min(burst, old(tokens) + earned);
      if tokens >= 1.0 {
        tokens := tokens - 1.0;
        return true;
      }
      return false;
    }
  }

  // ----- Runs of calls -----

  /** The answers to calls made at the given clock readings. */
  function Decisions(b: Bucket, times: seq<real>): seq<bool>
    decreases |times|
  {
    if times == [] then []
    else
      var (b', ok) := Acquire(b, times[0]);
      [ok] + Decisions(b', times[1..])
  }

  function Accepted(answers: seq<bool>): nat {
    if answers == [] then 0 else (if answers[0] then 1 else 0) + Accepted(answers[1..])
  }

  /** A monotonic clock that starts no earlier than `from`. */
  ghost predicate Monotonic(from: real, times: seq<real>)
    decreases |times|
  {
    times != [] ==> from <= times[0] && Monotonic(times[0], times[1..])
  }

  lemma EarnedNonnegative(maxHz: real, from: real, to: real)
    requires 0.0 < maxHz && from <= to
    ensures 0.0 <= Earned(maxHz, from, to)
  {
    ProductNonnegative(to - from, maxHz);
  }

  lemma EarnedNothing(maxHz: real, at: real)
    ensures Earned(maxHz, at, at) == 0.0
  {
    var d := at - at;
    assert d == 0.0 && d * maxHz == 0.0;
  }

  lemma EarnedAdds(maxHz: real, x: real, y: real, z: real)
    ensures Earned(maxHz, x, y) + Earned(maxHz, y, z) == Earned(maxHz, x, z)
  {
    assert (y - x) + (z - y) == z - x;
  }

  lemma AcquireKeepsHealthy(b: Bucket, now: real)
    requires Healthy(b) && b.last <= now
    ensures Healthy(Acquire(b, now).0)
  {
    var earned := Earned(b.maxHz, b.last, now);
    EarnedNonnegative(b.maxHz, b.last, now);
    assert 0.0 <= earned;
    SpendKeepsHealthy(b, earned, now);
  }

  lemma SpendKeepsHealthy(b: Bucket, earned: real, now: real)
    requires Healthy(b) && 0.0 <= earned
    ensures Healthy(Spend(b, earned, now).0)
  {}

  /** What one call takes and leaves, against what there was. */
  lemma SpendIsPaid(b: Bucket, earned: real, now: real)
    requires Healthy(b) && 0.0 <= earned
    ensures var (b', ok) := Spend(b, earned, now);
            b'.tokens + (if ok then 1.0 else 0.0) <= b.tokens + earned
            && b'.tokens + (if ok then 1.0 else 0.0) <= b.burst
  {}

  /** Every call is paid for: acceptances plus what is left never exceed what was there plus the refill. */
  lemma {:induction false} Budget(b: Bucket, times: seq<real>)
    requires Healthy(b) && times != [] && Monotonic(b.last, times)
    ensures Accepted(Decisions(b, times)) as real
            <= b.tokens + Earned(b.maxHz, b.last, times[|times| - 1])
    decreases |times|
  {
    FirstCallThenBudget(b, times);
    EarnedAdds(b.maxHz, b.last, times[0], times[|times| - 1]);
  }

  /** The first call, then the budget of the others. */
  lemma {:induction false} FirstCallThenBudget(b: Bucket, times: seq<real>)
    requires Healthy(b) && times != [] && Monotonic(b.last, times)
    ensures var refill := Earned(b.maxHz, b.last, times[0]);
            var later := Earned(b.maxHz, times[0], times[|times| - 1]);
            var accepted := Accepted(Decisions(b, times)) as real;
            accepted <= b.tokens + refill + later && accepted <= b.burst + later
    decreases |times|, 0
  {
    var refill := Earned(b.maxHz, b.last, times[0]);
    var later := Earned(b.maxHz, times[0], times[|times| - 1]);
    EarnedNonnegative(b.maxHz, b.last, times[0]);
    var (b', ok) := Acquire(b, times[0]);
    AcquireKeepsHealthy(b, times[0]);
    SpendIsPaid(b, refill, times[0]);
    var tail := times[1..];
    assert Decisions(b, times)[1..] == Decisions(b', tail);
    if tail == [] {
      assert Accepted(Decisions(b', tail)) == 0;
      EarnedNothing(b.maxHz, times[0]);
    } else {
      Budget(b', tail);
    }
  }

  /** Any consecutive calls, from any healthy bucket, however long it had been idle:
      at most burst + maxHz * (last - first) are accepted. */
  lemma RateBound(b: Bucket, times: seq<real>)
    requires Healthy(b) && times != [] && Monotonic(b.last, times)
    ensures Accepted(Decisions(b, times)) as real
            <= b.burst + Earned(b.maxHz, times[0], times[|times| - 1])
  {
    FirstCallThenBudget(b, times);
  }

  // ----- Which calls are accepted -----

  /** One more call fits: of `level` tokens at `from`, refilled until `now`, the accepted calls leave one. */
  ghost predicate Room(maxHz: real, level: real, from: real, answers: seq<bool>, now: real) {
    level + Earned(maxHz, from, now) - (Accepted(answers) as real) >= 1.0
  }

  lemma {:induction false} OneAnswerEach(b: Bucket, times: seq<real>)
    ensures |Decisions(b, times)| == |times|
    decreases |times|
  {
    if times != [] {
      OneAnswerEach(Acquire(b, times[0]).0, times[1..]);
    }
  }

  /** The latest reading of a clock that started at `from`. */
  function Latest(from: real, times: seq<real>): real {
    if times == [] then from else times[|times| - 1]
  }

  /** What the first call leaves is what was there, or a full bucket at that call, whichever is less. */
  lemma RoomAfterFirst(b: Bucket, t: real, answers: seq<bool>, now: real)
    requires Healthy(b) && b.last <= t
    ensures var (b', ok) := Acquire(b, t);
            Room(b.maxHz, b'.tokens, t, answers, now) <==>
              Room(b.maxHz, b.tokens, b.last, [ok] + answers, now) && Room(b.maxHz, b.burst, t, [ok] + answers, now)
  {
    var (b', ok) := Acquire(b, t);
    EarnedAdds(b.maxHz, b.last, t, now);
    assert ([ok] + answers)[1..] == answers;
  }

  /** Exactness: a call is accepted if and only if it fits into every window: the one since the bucket was as
      it was at first, and every one that begins, with a full bucket, at an earlier call. */
  lemma {:induction false} AcceptedIff(b: Bucket, times: seq<real>, now: real)
    requires Healthy(b) && Monotonic(b.last, times) && Latest(b.last, times) <= now
    ensures |Decisions(b, times)| == |times| && |Decisions(b, times + [now])| == |times| + 1
    ensures Decisions(b, times + [now])[|times|] <==>
              && Room(b.maxHz, b.tokens, b.last, Decisions(b, times), now)
              && forall j :: 0 <= j < |times| ==> Room(b.maxHz, b.burst, times[j], Decisions(b, times)[j..], now)
    decreases |times|
  {
    OneAnswerEach(b, times);
    OneAnswerEach(b, times + [now]);
    if times == [] {
      assert times + [now] == [now];
      assert Accepted(Decisions(b, times)) == 0;
    } else {
      var (b', ok) := Acquire(b, times[0]);
      var tail, answers := times[1..], Decisions(b', times[1..]);
      AcquireKeepsHealthy(b, times[0]);
      assert (times + [now])[0] == times[0] && (times + [now])[1..] == tail + [now];
      assert Decisions(b, times) == [ok] + answers && Decisions(b, times + [now]) == [ok] + Decisions(b', tail + [now]);
      AcceptedIff(b', tail, now);
      RoomAfterFirst(b, times[0], answers, now);
      assert forall j :: 0 < j < |times| ==> times[j] == tail[j - 1] && Decisions(b, times)[j..] == answers[j - 1..];
      assert Decisions(b, times)[0..] == [ok] + answers;
      WindowsShift(b, times, ok, answers, now);
    }
  }

  /** The windows of all calls are that of the first and those of the others. */
  lemma WindowsShift(b: Bucket, times: seq<real>, ok: bool, answers: seq<bool>, now: real)
    requires times != [] && |answers| == |times| - 1
    ensures (forall j :: 0 <= j < |times| ==> Room(b.maxHz, b.burst, times[j], ([ok] + answers)[j..], now)) <==>
              && Room(b.maxHz, b.burst, times[0], [ok] + answers, now)
              && forall j :: 0 <= j < |times[1..]| ==> Room(b.maxHz, b.burst, times[1..][j], answers[j..], now)
  {
    hide Room;
    assert ([ok] + answers)[0..] == [ok] + answers;
    forall j | 0 <= j < |times[1..]|
      ensures ([ok] + answers)[j + 1..] == answers[j..] && times[1..][j] == times[j + 1]
    {}
    if forall j :: 0 <= j < |times[1..]| ==> Room(b.maxHz, b.burst, times[1..][j], answers[j..], now) {
      forall j | 0 < j < |times|
        ensures Room(b.maxHz, b.burst, times[j], ([ok] + answers)[j..], now) <==> Room(b.maxHz, b.burst, times[1..][j - 1], answers[j - 1..], now)
      {
        assert ([ok] + answers)[j..] == answers[j - 1..];
      }
    }
  }

  // ----- With burst 1 the bucket is exactly a minimum spacing -----

  datatype LastAccepted = Never | At(time: real)

  /** Reference definition: accept the first call, then every call at least 1/maxHz after the last acceptance. */
  function Spaced(maxHz: real, prev: LastAccepted, times: seq<real>): seq<bool>
    requires maxHz != 0.0
    decreases |times|
  {
    if times == [] then []
    else
      var ok := prev.Never? || times[0] - prev.time >= 1.0 / maxHz;
      [ok] + Spaced(maxHz, if ok then At(times[0]) else prev, times[1..])
  }

  /** What the token count stands for when burst is 1. */
  ghost predicate Remembers(b: Bucket, prev: LastAccepted) {
    match prev
    case Never => b.tokens == 1.0
    case At(t) => t <= b.last && b.tokens == Min(1.0, Earned(b.maxHz, t, b.last))
  }

  lemma SpacingInTokens(d: real, hz: real)
    requires 0.0 < hz
    ensures d * hz >= 1.0 <==> d >= 1.0 / hz
  {
    assert (1.0 / hz) * hz == 1.0;
    if d >= 1.0 / hz {
      ProductNonnegative(d - 1.0 / hz, hz);
    } else {
      assert (1.0 / hz - d) * hz > 0.0;
    }
  }

  /** One call of a burst-1 bucket applies the spacing rule and remembers the outcome. */
  lemma SpacingStep(b: Bucket, prev: LastAccepted, now: real)
    requires Healthy(b) && b.burst == 1.0 && b.last <= now && Remembers(b, prev)
    ensures var (b', ok) := Acquire(b, now);
            && ok == (prev.Never? || now - prev.time >= 1.0 / b.maxHz)
            && Remembers(b', if ok then At(now) else prev)
  {
    var earned := Earned(b.maxHz, b.last, now);
    EarnedNonnegative(b.maxHz, b.last, now);
    assert 0.0 <= earned;
    EarnedNothing(b.maxHz, now);
    match prev {
      case Never =>
      case At(t) =>
        var before := Earned(b.maxHz, t, b.last);
        EarnedAdds(b.maxHz, t, b.last, now);
        assert before + earned == Earned(b.maxHz, t, now);
        SpacingInTokens(now - t, b.maxHz);
    }
  }

  lemma {:induction false} SpacingFrom(b: Bucket, prev: LastAccepted, times: seq<real>)
    requires Healthy(b) && b.burst == 1.0 && Monotonic(b.last, times) && Remembers(b, prev)
    ensures Decisions(b, times) == Spaced(b.maxHz, prev, times)
    decreases |times|
  {
    if times != [] {
      var now := times[0];
      var (b', ok) := Acquire(b, now);
      AcquireKeepsHealthy(b, now);
      SpacingStep(b, prev, now);
      SpacingFrom(b', if ok then At(now) else prev, times[1..]);
    }
  }

  /** A new bucket with burst 1 answers exactly as the minimum-spacing rule. */
  lemma BurstOneIsMinimumSpacing(maxHz: real, start: real, times: seq<real>)
    requires 0.0 < maxHz && Monotonic(start, times)
    ensures Decisions(Bucket(maxHz, 1.0, 1.0, start), times) == Spaced(maxHz, Never, times)
  {
    SpacingFrom(Bucket(maxHz, 1.0, 1.0, start), Never, times);
  }
}
