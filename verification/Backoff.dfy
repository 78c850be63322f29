/** The reconnect delay (karo_x2_sdk/_internal/robot_impl.py:1444-1459), over real arithmetic. */
module Backoff {
  import opened RealArithmetic

  function Pow2(n: nat): (r: real)
    ensures r >= 1.0
  {
    if n == 0 then 1.0 else 2.0 * Pow2(n - 1)
  }

  /** The base delay after a number of doublings. */
  function Doubled(base: real, n: nat): real {
    base * Pow2(n)
  }

  /** The undisturbed delay: doubling from the base, capped at the maximum. */
  function Envelope(base: real, mx: real, attempt: nat): real {
    Min(Doubled(base, attempt), mx)
  }

  /** The jitter ratio that is applied, never below 5%. */
  function Jitter(ratio: real): real {
    if ratio >= 0.05 then ratio else 0.05
  }

  lemma {:induction false} Pow2Monotone(m: nat, n: nat)
    requires m <= n
    ensures Pow2(m) <= Pow2(n)
  {
    if m < n {
      Pow2Monotone(m, n - 1);
    }
  }

  lemma ScaledMonotone(base: real, x: real, y: real)
    requires 0.0 <= base && x <= y
    ensures base * x <= base * y
  {
    assert base * (y - x) >= 0.0;
  }

  lemma DoubledMonotone(base: real, m: nat, n: nat)
    requires 0.0 <= base && m <= n
    ensures base <= Doubled(base, m) <= Doubled(base, n)
  {
    Pow2Monotone(0, m);
    Pow2Monotone(m, n);
    ScaledMonotone(base, 1.0, Pow2(m));
    ScaledMonotone(base, Pow2(m), Pow2(n));
    assert base * 1.0 == base;
  }

  /** Once doubling has reached the maximum, further doublings do not change the capped delay. */
  lemma CappedEarly(base: real, mx: real, doublings: nat, attempt: nat, exp: real)
    requires 0.0 <= base <= mx && doublings <= attempt && exp == Doubled(base, doublings)
    requires doublings < attempt ==> mx <= exp
    ensures Min(exp, mx) == Envelope(base, mx, attempt)
    ensures 0.0 <= Envelope(base, mx, attempt) <= mx
  {
    DoubledMonotone(base, doublings, attempt);
  }

  /** The delay after taking off the drawn share of the jitter. */
  function Shrunk(e: real, jr: real, u: real): real {
    e - e * jr * u
  }

  /** The least the jitter can leave. */
  function Lowest(e: real, jr: real): real {
    e * (1.0 - jr)
  }

  lemma ShrinkBounds(e: real, jr: real, u: real)
    requires 0.0 <= e && 0.0 <= jr <= 1.0 && 0.0 <= u < 1.0
    ensures 0.0 <= Lowest(e, jr) <= Shrunk(e, jr, u) <= e
  {
    var share := e * jr;
    ProductNonnegative(e, jr);
    ProductNonnegative(e, 1.0 - jr);
    ProductNonnegative(share, u);
    ProductNonnegative(share, 1.0 - u);
    assert e * (1.0 - jr) == e - share;
    assert share * (1.0 - u) == share - share * u;
  }

  lemma FloorMonotone(x: real, y: real)
    requires x <= y
    ensures x.Floor <= y.Floor && y.Floor as real <= y
  {}

  /** Whole milliseconds of the jittered delay, never above the envelope nor below its jitter floor. */
  ghost predicate IsJittered(ms: int, e: real, jr: real, u: real) {
    && ms == Shrunk(e, jr, u).Floor
    && 0 <= ms && Lowest(e, jr).Floor <= ms && ms as real <= e
  }

  /** `u` is the random draw in [0, 1). The loop doubles only while below the maximum, so the number of
      doublings stays below 1 + log2(mx / base) whatever the attempt number. */
  method NextBackoffMs(base: real, mx: real, jitterRatio: real, attempt: nat, u: real)
    returns (ms: int, doublings: nat)
    requires 0.0 <= base <= mx && 0.0 <= jitterRatio <= 1.0 && 0.0 <= u < 1.0
    ensures doublings <= attempt
    ensures doublings < attempt ==> mx <= Doubled(base, doublings)
    ensures 0 < doublings ==> Doubled(base, doublings - 1) < mx
    ensures var e := Envelope(base, mx, attempt);
            IsJittered(ms, e, Jitter(jitterRatio), u)
  {
    var exp := base;
    doublings := 0;
    while doublings < attempt
      invariant 0 <= doublings <= attempt
      invariant exp == Doubled(base, doublings)
      invariant 0 < doublings ==> Doubled(base, doublings - 1) < mx
    {
      if exp >= mx {
        break;
      }
      exp := exp * 2.0;
      doublings := doublings + 1;
    }
    CappedEarly(base, mx, doublings, attempt, exp);
    if exp > mx {
      exp := mx;
    }
    ms := Shrink(exp, Jitter(jitterRatio), u);
  }

  /** The delay after jitter, truncated to whole milliseconds. */
  method Shrink(exp: real, jr: real, u: real) returns (ms: int)
    requires 0.0 <= exp && 0.0 <= jr <= 1.0 && 0.0 <= u < 1.0
    ensures IsJittered(ms, exp, jr, u)
  {
    var j := exp * jr * u;
    var actual := exp - j;
    ghost var low, exact := Lowest(exp, jr), Shrunk(exp, jr, u);
    assert 0.0 <= low <= exact <= exp && actual == exact by { ShrinkBounds(exp, jr, u); }
    FloorMonotone(low, exact);
    if actual < 0.0 {
      actual := 0.0;
    }
    ms := actual.Floor;
  }

  /** Later attempts never wait less (before jitter), and none waits longer than the maximum. */
  lemma EnvelopeMonotone(base: real, mx: real, m: nat, n: nat)
    requires 0.0 <= base <= mx && m <= n
    ensures base <= Envelope(base, mx, m) <= Envelope(base, mx, n) <= mx
  {
    DoubledMonotone(base, m, n);
  }

  /** The first delay is the base, and each later one twice the one before, up to the maximum. */
  lemma EnvelopeDoubles(base: real, mx: real, n: nat)
    requires 0.0 <= base <= mx
    ensures Envelope(base, mx, 0) == base
    ensures Envelope(base, mx, n + 1) == Min(2.0 * Envelope(base, mx, n), mx)
  {
    var d := Doubled(base, n);
    DoubledMonotone(base, 0, n);
    assert Doubled(base, 0) == base * 1.0 == base;
    assert Doubled(base, n + 1) == base * (2.0 * Pow2(n)) == 2.0 * d;
  }

  /** The jitter takes off nothing or up to its ratio, which is the one asked for or 5%, whichever is more. */
  lemma JitterRange(e: real, ratio: real, u: real)
    requires 0.0 <= e && 0.0 <= ratio <= 1.0 && 0.0 <= u < 1.0
    ensures var jr := Jitter(ratio);
            && ratio <= jr && 0.05 <= jr && (jr == ratio || jr == 0.05)
            && Shrunk(e, jr, 0.0) == e && Shrunk(e, jr, 1.0) == Lowest(e, jr) <= Shrunk(e, jr, u)
  {
    var jr := Jitter(ratio);
    ShrinkBounds(e, jr, u);
    assert e * jr * 0.0 == 0.0 && e * jr * 1.0 == e * jr;
    assert e * (1.0 - jr) == e - e * jr;
  }
}
