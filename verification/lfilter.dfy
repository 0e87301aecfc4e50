/**
  The linear filter both filter classes delegate to (scipy.signal.lfilter with
  zero initial state on a one-dimensional buffer). With numerator taps b and a
  denominator a whose leading tap is 1 it computes, for every index n of the
  input,

      y[n] = Σ_{k ≥ 0} b[k]·x[n−k] − Σ_{k ≥ 1} a[k]·y[n−k]

  where x and y are zero before index 0. Here the filter is evaluated sample by
  sample (Prefix, Filter); the difference equation (Solves) is the independent
  description it is proved against, in both directions (Filter, Unique).
 */
module Lfilter {
  import opened Signal

  /** Σ_{k = from}^{|c|−1} c[k]·s[n−k], samples outside s counting as zero. */
  function TapSum(c: seq<real>, s: seq<real>, n: int, from: nat): real
    decreases |c| - from
  {
    if from >= |c| then 0.0 else c[from] * At(s, n - from) + TapSum(c, s, n, from + 1)
  }

  /** A denominator whose leading tap is 1, as every denominator the filter
      classes build is. */
  predicate Monic(a: seq<real>)
  {
    |a| >= 1 && a[0] == 1.0
  }

  /** The difference equation holds at index n of y. */
  ghost predicate EquationAt(b: seq<real>, a: seq<real>, x: seq<real>, y: seq<real>, n: int)
  {
    0 <= n < |y| && y[n] == TapSum(b, x, n, 0) - TapSum(a, y, n, 1)
  }

  /** y is the zero-state response of the filter (b, a) to x. */
  ghost predicate Solves(b: seq<real>, a: seq<real>, x: seq<real>, y: seq<real>)
  {
    && |y| == |x|
    && forall n :: 0 <= n < |y| ==> EquationAt(b, a, x, y, n)
  }

  /** The output sample at index |y| given the outputs y before it. */
  function NextSample(b: seq<real>, a: seq<real>, x: seq<real>, y: seq<real>): real
  {
    TapSum(b, x, |y|, 0) - TapSum(a, y, |y|, 1)
  }

  /** The first n output samples. */
  function Prefix(b: seq<real>, a: seq<real>, x: seq<real>, n: nat): (y: seq<real>)
    ensures |y| == n
    decreases n
  {
    if n == 0 then [] else
      var p := Prefix(b, a, x, n - 1);
      p + [NextSample(b, a, x, p)]
  }

  /** Two signals that agree before index n. */
  ghost predicate AgreeBefore(s: seq<real>, t: seq<real>, n: int)
  {
    forall i :: i < n ==> At(s, i) == At(t, i)
  }

  /** A buffer agrees before n with its own first n samples. */
  lemma AgreeWithPrefix(s: seq<real>, n: nat)
    requires n <= |s|
    ensures AgreeBefore(s, s[..n], n)
  {
  }

  /** The feedback sum at n only reads outputs before n. */
  lemma {:induction false} FeedbackReadsPast(c: seq<real>, s: seq<real>, t: seq<real>, n: int, from: nat)
    requires from >= 1
    requires AgreeBefore(s, t, n)
    ensures TapSum(c, s, n, from) == TapSum(c, t, n, from)
    decreases |c| - from
  {
    if from < |c| {
      assert At(s, n - from) == At(t, n - from);
      FeedbackReadsPast(c, s, t, n, from + 1);
    }
  }

  /** The feed-forward sum at n only reads inputs at or before n. */
  lemma {:induction false} InputReadsPast(c: seq<real>, s: seq<real>, t: seq<real>, n: int, from: nat)
    requires AgreeBefore(s, t, n + 1)
    ensures TapSum(c, s, n, from) == TapSum(c, t, n, from)
    decreases |c| - from
  {
    if from < |c| {
      assert At(s, n - from) == At(t, n - from);
      InputReadsPast(c, s, t, n, from + 1);
    }
  }

  /** Computing more samples never changes the ones already computed. */
  lemma {:induction false} PrefixStable(b: seq<real>, a: seq<real>, x: seq<real>, m: nat, n: nat)
    requires m <= n
    ensures Prefix(b, a, x, n)[..m] == Prefix(b, a, x, m)
    decreases n
  {
    if m < n {
      PrefixStable(b, a, x, m, n - 1);
      var p := Prefix(b, a, x, n - 1);
      assert Prefix(b, a, x, n)[..n - 1] == p;
      assert Prefix(b, a, x, n)[..m] == p[..m];
    }
  }

  /** The kernel: one output sample per input sample, satisfying the difference equation. */
  function Filter(b: seq<real>, a: seq<real>, x: seq<real>): (y: seq<real>)
    requires Monic(a)
    ensures Solves(b, a, x, y)
  {
    var y := Prefix(b, a, x, |x|);
    assert forall n :: 0 <= n < |y| ==> EquationAt(b, a, x, y, n) by {
      forall n | 0 <= n < |y|
        ensures EquationAt(b, a, x, y, n)
      {
        PrefixStable(b, a, x, n + 1, |x|);
        PrefixStable(b, a, x, n, |x|);
        assert y[n] == y[..n + 1][n] == NextSample(b, a, x, Prefix(b, a, x, n));
        AgreeWithPrefix(y, n);
        FeedbackReadsPast(a, y, y[..n], n, 1);
      }
    }
    y
  }

  /** The difference equation has exactly one solution: any buffer satisfying
      it is the kernel's output. */
  lemma Unique(b: seq<real>, a: seq<real>, x: seq<real>, y: seq<real>)
    requires Monic(a)
    requires Solves(b, a, x, y)
    ensures y == Filter(b, a, x)
  {
    var f := Filter(b, a, x);
    UniquePrefix(b, a, x, y, f, |x|);
    assert y == y[..|x|] && f == f[..|x|];
  }

  lemma {:induction false} UniquePrefix(b: seq<real>, a: seq<real>, x: seq<real>, y: seq<real>, f: seq<real>, n: nat)
    requires Solves(b, a, x, y) && Solves(b, a, x, f)
    requires n <= |x|
    ensures y[..n] == f[..n]
    decreases n
  {
    if n > 0 {
      var m := n - 1;
      UniquePrefix(b, a, x, y, f, m);
      AgreeWithPrefix(y, m);
      AgreeWithPrefix(f, m);
      FeedbackReadsPast(a, y, f, m, 1);
      assert EquationAt(b, a, x, y, m) && EquationAt(b, a, x, f, m);
      assert y[..n] == y[..m] + [y[m]];
      assert f[..n] == f[..m] + [f[m]];
    }
  }

  /** A tap sum over a silent buffer is zero. */
  lemma {:induction false} TapSumSilent(c: seq<real>, s: seq<real>, n: int, from: nat)
    requires Silent(s)
    ensures TapSum(c, s, n, from) == 0.0
    decreases |c| - from
  {
    if from < |c| {
      TapSumSilent(c, s, n, from + 1);
    }
  }

  /** Zero in, zero out: with zero initial state, a silent input gives a silent output. */
  lemma SilenceIn(b: seq<real>, a: seq<real>, len: nat)
    requires Monic(a)
    ensures Filter(b, a, Zeros(len)) == Zeros(len)
  {
    var z := Zeros(len);
    forall n | 0 <= n < len
      ensures EquationAt(b, a, z, z, n)
    {
      TapSumSilent(b, z, n, 0);
      TapSumSilent(a, z, n, 1);
    }
    Unique(b, a, z, z);
  }

  /** Tap sums distribute over the sum of two signals. */
  lemma {:induction false} TapSumAdd(c: seq<real>, s: seq<real>, t: seq<real>, n: int, from: nat)
    requires |s| == |t|
    ensures TapSum(c, Add(s, t), n, from) == TapSum(c, s, n, from) + TapSum(c, t, n, from)
    decreases |c| - from
  {
    if from < |c| {
      TapSumAdd(c, s, t, n, from + 1);
      assert At(Add(s, t), n - from) == At(s, n - from) + At(t, n - from);
    }
  }

  /** A gain on the signal factors out of a tap sum. */
  lemma {:induction false} TapSumScale(c: seq<real>, p: real, s: seq<real>, n: int, from: nat)
    ensures TapSum(c, Scale(p, s), n, from) == p * TapSum(c, s, n, from)
    decreases |c| - from
  {
    if from < |c| {
      TapSumScale(c, p, s, n, from + 1);
      assert At(Scale(p, s), n - from) == p * At(s, n - from);
    }
  }

  /** Superposition: the response to the sum of two signals is the sum of their responses. */
  lemma Additive(b: seq<real>, a: seq<real>, x: seq<real>, w: seq<real>)
    requires Monic(a)
    requires |x| == |w|
    ensures Filter(b, a, Add(x, w)) == Add(Filter(b, a, x), Filter(b, a, w))
  {
    var fx, fw := Filter(b, a, x), Filter(b, a, w);
    var u, v := Add(x, w), Add(fx, fw);
    forall n | 0 <= n < |v|
      ensures EquationAt(b, a, u, v, n)
    {
      TapSumAdd(b, x, w, n, 0);
      TapSumAdd(a, fx, fw, n, 1);
      assert EquationAt(b, a, x, fx, n) && EquationAt(b, a, w, fw, n);
    }
    Unique(b, a, u, v);
  }

  /** Homogeneity: scaling the input by a gain scales the response by the same gain. */
  lemma Homogeneous(b: seq<real>, a: seq<real>, p: real, x: seq<real>)
    requires Monic(a)
    ensures Filter(b, a, Scale(p, x)) == Scale(p, Filter(b, a, x))
  {
    var fx := Filter(b, a, x);
    var u, v := Scale(p, x), Scale(p, fx);
    forall n | 0 <= n < |v|
      ensures EquationAt(b, a, u, v, n)
    {
      TapSumScale(b, p, x, n, 0);
      TapSumScale(a, p, fx, n, 1);
      assert EquationAt(b, a, x, fx, n);
      var bx, ax := TapSum(b, x, n, 0), TapSum(a, fx, n, 1);
      assert p * (bx - ax) == p * bx - p * ax;
    }
    Unique(b, a, u, v);
  }

  /** Causality: the first m output samples depend only on the first m input samples. */
  lemma Causal(b: seq<real>, a: seq<real>, x: seq<real>, m: nat)
    requires Monic(a)
    requires m <= |x|
    ensures Filter(b, a, x[..m]) == Filter(b, a, x)[..m]
  {
    var y := Filter(b, a, x);
    var t := y[..m];
    forall n | 0 <= n < m
      ensures EquationAt(b, a, x[..m], t, n)
    {
      AgreeWithPrefix(x, m);
      InputReadsPast(b, x[..m], x, n, 0);
      AgreeWithPrefix(y, m);
      FeedbackReadsPast(a, t, y, n, 1);
      assert EquationAt(b, a, x, y, n);
    }
    Unique(b, a, x[..m], t);
  }
}
