/** "Comes in the same order, possibly with gaps", for sequences that grow at the end. */
module Subsequences {

  /** `a` can be obtained from `b` by leaving elements out. */
  ghost predicate Subsequence<T>(a: seq<T>, b: seq<T>)
    decreases |b|
  {
    a == [] ||
    (b != [] &&
     ((a[|a| - 1] == b[|b| - 1] && Subsequence(a[..|a| - 1], b[..|b| - 1]))
      || Subsequence(a, b[..|b| - 1])))
  }

  lemma AppendBoth<T>(a: seq<T>, b: seq<T>, x: T)
    requires Subsequence(a, b)
    ensures Subsequence(a + [x], b + [x])
  {
    assert (a + [x])[..|a|] == a && (b + [x])[..|b|] == b;
  }

  lemma AppendRight<T>(a: seq<T>, b: seq<T>, x: T)
    requires Subsequence(a, b)
    ensures Subsequence(a, b + [x])
  {
    assert (b + [x])[..|b|] == b;
  }

  lemma {:induction false} Without<T>(a: seq<T>, b: seq<T>, i: nat)
    requires Subsequence(a, b) && i < |a|
    ensures Subsequence(a[..i] + a[i + 1..], b)
    decreases |b|
  {
    var a0, b0 := a[..|a| - 1], b[..|b| - 1];
    if a[|a| - 1] == b[|b| - 1] && Subsequence(a0, b0) {
      assert b == b0 + [b[|b| - 1]];
      if i == |a| - 1 {
        assert a[..i] + a[i + 1..] == a0;
        AppendRight(a0, b0, b[|b| - 1]);
      } else {
        Without(a0, b0, i);
        assert a[..i] + a[i + 1..] == a0[..i] + a0[i + 1..] + [a[|a| - 1]];
        AppendBoth(a0[..i] + a0[i + 1..], b0, b[|b| - 1]);
      }
    } else {
      Without(a, b0, i);
      assert b == b0 + [b[|b| - 1]];
      AppendRight(a[..i] + a[i + 1..], b0, b[|b| - 1]);
    }
  }

  /** Leaving out the element between two stretches. */
  lemma Omit<T>(a: seq<T>, x: T, rest: seq<T>, b: seq<T>)
    requires Subsequence(a + ([x] + rest), b)
    ensures Subsequence(a + rest, b)
  {
    var all := a + ([x] + rest);
    Without(all, b, |a|);
    assert all[..|a|] + all[|a| + 1..] == a + rest;
  }

  lemma {:induction false} PrefixOf<T>(a: seq<T>, c: seq<T>, b: seq<T>)
    requires Subsequence(a + c, b)
    ensures Subsequence(a, b)
    decreases |c|
  {
    if c == [] {
      assert a + c == a;
    } else {
      var n := |a + c| - 1;
      Without(a + c, b, n);
      assert (a + c)[..n] + (a + c)[n + 1..] == a + c[..|c| - 1];
      PrefixOf(a, c[..|c| - 1], b);
    }
  }

  lemma {:induction false} Transitive<T>(a: seq<T>, b: seq<T>, c: seq<T>)
    requires Subsequence(a, b) && Subsequence(b, c)
    ensures Subsequence(a, c)
    decreases |b| + |c|
  {
    if a != [] {
      var b0, c0 := b[..|b| - 1], c[..|c| - 1];
      if b[|b| - 1] == c[|c| - 1] && Subsequence(b0, c0) {
        if a[|a| - 1] == b[|b| - 1] && Subsequence(a[..|a| - 1], b0) {
          Transitive(a[..|a| - 1], b0, c0);
        } else {
          Transitive(a, b0, c0);
        }
      } else {
        Transitive(a, b, c0);
      }
    }
  }

  /** A subsequence of two stretches falls into a subsequence of each. */
  lemma {:induction false} Split<T>(a: seq<T>, b: seq<T>, c: seq<T>) returns (a1: seq<T>, a2: seq<T>)
    requires Subsequence(a, b + c)
    ensures a == a1 + a2 && Subsequence(a1, b) && Subsequence(a2, c)
    decreases |c|
  {
    if c == [] {
      assert b + c == b;
      a1, a2 := a, [];
    } else if a == [] {
      a1, a2 := [], [];
    } else {
      var c0, x := c[..|c| - 1], c[|c| - 1];
      assert (b + c)[..|b + c| - 1] == b + c0 && c == c0 + [x];
      if a[|a| - 1] == x && Subsequence(a[..|a| - 1], b + c0) {
        a1, a2 := Split(a[..|a| - 1], b, c0);
        AppendBoth(a2, c0, x);
        a2 := a2 + [x];
      } else {
        a1, a2 := Split(a, b, c0);
        AppendRight(a2, c0, x);
      }
    }
  }
}
