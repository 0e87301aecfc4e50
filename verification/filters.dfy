/**
  The two filter classes, CombFilter and AllPassFilter. Each stores only its
  delay in samples; processing builds two sparse tap lists from that delay and
  one gain and runs the shared kernel (module Lfilter) over the buffer.
 */
module Filters {
  import opened Signal
  import Lfilter
  import Delay

  /** A filter of the processing pipeline, tagged by its class. */
  datatype Filter = Comb(delayInSamples: int) | AllPass(delayInSamples: int)

  /** CombFilter(delay_in_ms, sample_rate) */
  function NewComb(delayInMs: real, sampleRate: int): (f: Filter)
    ensures f.Comb?
    ensures Delay.ExactSamples(delayInMs, sampleRate) <= f.delayInSamples as real
    ensures (f.delayInSamples - 1) as real < Delay.ExactSamples(delayInMs, sampleRate)
  {
    Comb(Delay.SamplesForDelay(delayInMs, sampleRate))
  }

  /** AllPassFilter(delay_in_ms, sample_rate) */
  function NewAllPass(delayInMs: real, sampleRate: int): (f: Filter)
    ensures f.AllPass?
    ensures Delay.ExactSamples(delayInMs, sampleRate) <= f.delayInSamples as real
    ensures (f.delayInSamples - 1) as real < Delay.ExactSamples(delayInMs, sampleRate)
  {
    AllPass(Delay.SamplesForDelay(delayInMs, sampleRate))
  }

  /** The index of the last tap. The builders append delay_in_samples − 1 zeros
      when that is positive and none otherwise, so a delay below 1 acts as 1. */
  function Span(delayInSamples: int): (s: nat)
    ensures s >= 1
    ensures delayInSamples >= 1 ==> s == delayInSamples
    ensures delayInSamples < 1 ==> s == 1
  {
    if delayInSamples >= 1 then delayInSamples else 1
  }

  /** The tap list [first, 0, …, 0, last] with `last` at index d. */
  function Taps(first: real, d: nat, last: real): (c: seq<real>)
    requires d >= 1
    ensures |c| == d + 1
    ensures c[0] == first && c[d] == last
    ensures forall i :: 0 < i < d ==> c[i] == 0.0
  {
    [first] + Zeros(d - 1) + [last]
  }

  /** The tap lists of CombFilter.process_buffer, built by appending as that method does. */
  method CombCoefficients(delayInSamples: int, dampening: real) returns (b: seq<real>, a: seq<real>)
    ensures |b| == |a| == Span(delayInSamples) + 1
    ensures b[0] == 1.0 && b[|b| - 1] == dampening
    ensures a[0] == 1.0 && a[|a| - 1] == 0.0
    ensures forall i :: 0 < i < |b| - 1 ==> b[i] == 0.0 && a[i] == 0.0
    ensures b == Taps(1.0, Span(delayInSamples), dampening)
    ensures a == Taps(1.0, Span(delayInSamples), 0.0)
  {
    b := [1.0];
    a := [1.0];
    var i := 0;
    while i < delayInSamples - 1
      invariant 0 <= i <= Span(delayInSamples) - 1
      invariant b == a == [1.0] + Zeros(i)
    {
      b := b + [0.0];
      a := a + [0.0];
      i := i + 1;
    }
    assert i == Span(delayInSamples) - 1;
    b := b + [dampening];
    a := a + [0.0];
  }

  /** The tap lists of AllPassFilter.process_buffer, built by appending as that method does. */
  method AllPassCoefficients(delayInSamples: int, attenuation: real) returns (b: seq<real>, a: seq<real>)
    ensures |b| == |a| == Span(delayInSamples) + 1
    ensures b[0] == attenuation && b[|b| - 1] == 1.0
    ensures a[0] == 1.0 && a[|a| - 1] == attenuation
    ensures forall i :: 0 < i < |b| - 1 ==> b[i] == 0.0 && a[i] == 0.0
    ensures b == Taps(attenuation, Span(delayInSamples), 1.0)
    ensures a == Taps(1.0, Span(delayInSamples), attenuation)
  {
    b := [attenuation];
    a := [1.0];
    var i := 0;
    while i < delayInSamples - 1
      invariant 0 <= i <= Span(delayInSamples) - 1
      invariant b == [attenuation] + Zeros(i)
      invariant a == [1.0] + Zeros(i)
    {
      b := b + [0.0];
      a := a + [0.0];
      i := i + 1;
    }
    assert i == Span(delayInSamples) - 1;
    b := b + [1.0];
    a := a + [attenuation];
  }

  /** Only the first and the last tap of a sparse tap list contribute, from index 1 on. */
  lemma {:induction false} SparseTail(first: real, d: nat, last: real, s: seq<real>, n: int, from: nat)
    requires 1 <= from <= d
    ensures Lfilter.TapSum(Taps(first, d, last), s, n, from) == last * At(s, n - d)
    decreases d - from
  {
    var c := Taps(first, d, last);
    if from < d {
      SparseTail(first, d, last, s, n, from + 1);
      assert c[from] == 0.0;
    } else {
      assert Lfilter.TapSum(c, s, n, d + 1) == 0.0;
    }
  }

  /** The full tap sum of a sparse tap list: the current sample weighted by the
      first tap plus the sample d back weighted by the last. */
  lemma SparseSum(first: real, d: nat, last: real, s: seq<real>, n: int)
    requires d >= 1
    ensures Lfilter.TapSum(Taps(first, d, last), s, n, 0) == first * At(s, n) + last * At(s, n - d)
    ensures Lfilter.TapSum(Taps(first, d, last), s, n, 1) == last * At(s, n - d)
  {
    SparseTail(first, d, last, s, n, 1);
  }

  /** The comb's difference equation at index n: the input plus the input d
      samples back weighted by the dampening. */
  ghost predicate CombAt(x: seq<real>, y: seq<real>, dampening: real, d: nat, n: int)
  {
    0 <= n < |y| && y[n] == At(x, n) + dampening * At(x, n - d)
  }

  /** The all-pass difference equation at index n:
      y[n] = g·x[n] + x[n−d] − g·y[n−d]. */
  ghost predicate AllPassAt(x: seq<real>, y: seq<real>, attenuation: real, d: nat, n: int)
  {
    0 <= n < |y| && y[n] == attenuation * At(x, n) + At(x, n - d) - attenuation * At(y, n - d)
  }

  /** CombFilter.process_buffer: one output per input sample, and since the
      denominator has no tap after index 0 the comb is feed-forward, adding the
      input from Span(delay) samples back weighted by the dampening. */
  function CombProcess(delayInSamples: int, x: seq<real>, dampening: real): (y: seq<real>)
    ensures |y| == |x|
    ensures forall n :: 0 <= n < |x| ==> CombAt(x, y, dampening, Span(delayInSamples), n)
  {
    var d := Span(delayInSamples);
    var b, a := Taps(1.0, d, dampening), Taps(1.0, d, 0.0);
    var y := Lfilter.Filter(b, a, x);
    assert forall n :: 0 <= n < |x| ==> CombAt(x, y, dampening, d, n) by {
      forall n | 0 <= n < |x|
        ensures CombAt(x, y, dampening, d, n)
      {
        assert Lfilter.EquationAt(b, a, x, y, n);
        SparseSum(1.0, d, dampening, x, n);
        SparseSum(1.0, d, 0.0, y, n);
      }
    }
    y
  }

  /** AllPassFilter.process_buffer: one output per input sample, satisfying the
      all-pass difference equation with d = Span(delay). */
  function AllPassProcess(delayInSamples: int, x: seq<real>, attenuation: real): (y: seq<real>)
    ensures |y| == |x|
    ensures forall n :: 0 <= n < |x| ==> AllPassAt(x, y, attenuation, Span(delayInSamples), n)
  {
    var d := Span(delayInSamples);
    var b, a := Taps(attenuation, d, 1.0), Taps(1.0, d, attenuation);
    var y := Lfilter.Filter(b, a, x);
    assert forall n :: 0 <= n < |x| ==> AllPassAt(x, y, attenuation, d, n) by {
      forall n | 0 <= n < |x|
        ensures AllPassAt(x, y, attenuation, d, n)
      {
        assert Lfilter.EquationAt(b, a, x, y, n);
        SparseSum(attenuation, d, 1.0, x, n);
        SparseSum(1.0, d, attenuation, y, n);
      }
    }
    y
  }

  /** process_buffer of whichever class the filter is. */
  function Process(f: Filter, x: seq<real>, gain: real): (y: seq<real>)
    ensures |y| == |x|
  {
    match f
    case Comb(n) => CombProcess(n, x, gain)
    case AllPass(n) => AllPassProcess(n, x, gain)
  }

  /** One sample of a comb entry's output: the input plus the dampened echo. */
  lemma CombSample(f: Filter, x: seq<real>, dampening: real, n: nat)
    requires f.Comb?
    requires n < |x|
    ensures Process(f, x, dampening)[n] == x[n] + dampening * At(x, n - Span(f.delayInSamples))
  {
    assert CombAt(x, Process(f, x, dampening), dampening, Span(f.delayInSamples), n);
  }

  /** The all-pass recurrence determines its output: any buffer of the input's
      length satisfying it is the all-pass output. */
  lemma AllPassUnique(delayInSamples: int, x: seq<real>, attenuation: real, y: seq<real>)
    requires |y| == |x|
    requires forall n :: 0 <= n < |x| ==> AllPassAt(x, y, attenuation, Span(delayInSamples), n)
    ensures y == AllPassProcess(delayInSamples, x, attenuation)
  {
    var d := Span(delayInSamples);
    var b, a := Taps(attenuation, d, 1.0), Taps(1.0, d, attenuation);
    forall n | 0 <= n < |y|
      ensures Lfilter.EquationAt(b, a, x, y, n)
    {
      assert AllPassAt(x, y, attenuation, d, n);
      SparseSum(attenuation, d, 1.0, x, n);
      SparseSum(1.0, d, attenuation, y, n);
    }
    Lfilter.Unique(b, a, x, y);
  }

  /** With zero dampening the comb passes its input through unchanged. */
  lemma CombZeroDampening(delayInSamples: int, x: seq<real>)
    ensures CombProcess(delayInSamples, x, 0.0) == x
  {
    var y := CombProcess(delayInSamples, x, 0.0);
    forall n | 0 <= n < |x| ensures y[n] == x[n] {
      assert CombAt(x, y, 0.0, Span(delayInSamples), n);
    }
  }

  /** A unit impulse of length len (1 at index 0, 0 elsewhere). */
  function Impulse(len: nat): (s: seq<real>)
  {
    seq(len, i => if i == 0 then 1.0 else 0.0)
  }

  /** The comb's impulse response has exactly two nonzero samples, 1 at index 0
      and the dampening at index Span(delay): a single echo, not a decaying train. */
  lemma CombImpulseResponse(delayInSamples: int, len: nat, dampening: real, n: nat)
    requires n < len
    ensures CombProcess(delayInSamples, Impulse(len), dampening)[n]
         == if n == 0 then 1.0 else if n == Span(delayInSamples) then dampening else 0.0
  {
    var x := Impulse(len);
    var d := Span(delayInSamples);
    assert CombAt(x, CombProcess(delayInSamples, x, dampening), dampening, d, n);
    assert At(x, n - d) == if n == d then 1.0 else 0.0;
  }

  /** Filters are linear time-invariant, so filtering a silent buffer gives silence. */
  lemma ProcessSilence(f: Filter, len: nat, gain: real)
    ensures Process(f, Zeros(len), gain) == Zeros(len)
  {
    var d := Span(f.delayInSamples);
    match f
    case Comb(n) =>
      Lfilter.SilenceIn(Taps(1.0, d, gain), Taps(1.0, d, 0.0), len);
    case AllPass(n) =>
      Lfilter.SilenceIn(Taps(gain, d, 1.0), Taps(1.0, d, gain), len);
  }

  /** Either filter is causal: filtering the first m samples gives the first m
      samples of the filtered buffer. */
  lemma ProcessCausal(f: Filter, x: seq<real>, m: nat, gain: real)
    requires m <= |x|
    ensures Process(f, x[..m], gain) == Process(f, x, gain)[..m]
  {
    var d := Span(f.delayInSamples);
    match f
    case Comb(n) =>
      Lfilter.Causal(Taps(1.0, d, gain), Taps(1.0, d, 0.0), x, m);
    case AllPass(n) =>
      Lfilter.Causal(Taps(gain, d, 1.0), Taps(1.0, d, gain), x, m);
  }

  /** Either filter is homogeneous: scaling the input scales the output. */
  lemma ProcessHomogeneous(f: Filter, c: real, x: seq<real>, gain: real)
    ensures Process(f, Scale(c, x), gain) == Scale(c, Process(f, x, gain))
  {
    var d := Span(f.delayInSamples);
    match f
    case Comb(n) =>
      Lfilter.Homogeneous(Taps(1.0, d, gain), Taps(1.0, d, 0.0), c, x);
    case AllPass(n) =>
      Lfilter.Homogeneous(Taps(gain, d, 1.0), Taps(1.0, d, gain), c, x);
  }
}
