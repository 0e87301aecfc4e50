/**
  SchroederReverberator: a bank of comb filters run in parallel on the input and
  averaged, a chain of all-pass filters run in series on that average, and a
  dry/wet blend of the result with the input.
 */
module Reverb {
  import opened Signal
  import opened Filters
  import Delay

  /** Python's IndexError on delay_times[index]. */
  datatype Error = IndexError(index: nat)

  datatype Result<T> = Success(value: T) | Failure(error: Error)

  /** A constructed reverberator. The gains are the complements of the
      configured dampening and attenuation. */
  datatype Reverberator = Reverberator(
    amount: real,
    numCombs: nat,
    numAllpasses: nat,
    delayTimes: seq<real>,
    pipeline: seq<Filter>,
    combDampening: real,
    allpassAttenuation: real)

  /** The shape the constructor gives the pipeline: num_combs combs, then
      num_allpasses all-passes. */
  predicate Valid(r: Reverberator)
  {
    && |r.pipeline| == r.numCombs + r.numAllpasses
    && forall i :: 0 <= i < |r.pipeline| ==> (r.pipeline[i].Comb? <==> i < r.numCombs)
  }

  /** The pipeline the constructor's two loops append: a comb for each of the
      first numCombs delay times, then an all-pass for each of the next numAllpasses. */
  function BuildPipeline(delayTimes: seq<real>, sampleRate: int, numCombs: nat, numAllpasses: nat): (p: seq<Filter>)
    requires numCombs + numAllpasses <= |delayTimes|
    ensures |p| == numCombs + numAllpasses
    ensures forall i :: 0 <= i < numCombs ==> p[i] == NewComb(delayTimes[i], sampleRate)
    ensures forall i :: numCombs <= i < |p| ==> p[i] == NewAllPass(delayTimes[i], sampleRate)
  {
    seq(numCombs, i requires 0 <= i < numCombs => NewComb(delayTimes[i], sampleRate))
    + seq(numAllpasses, j requires 0 <= j < numAllpasses => NewAllPass(delayTimes[numCombs + j], sampleRate))
  }

  /** The constructor's default delay_times, in milliseconds: four combs, then two all-passes. */
  const DefaultDelayTimes: seq<real> := [25.0, 30.0, 35.0, 40.0, 25.0, 50.0]

  /** SchroederReverberator(sample_rate, amount, num_combs, comb_dampening,
      num_allpasses, allpass_attenuation, delay_times), with the constructor's
      defaults for every argument but the sample rate. The loops index
      delay_times in order, so a list that is too short raises IndexError at
      its first missing index. */
  function New(sampleRate: int, amount: real := 0.5, numCombs: nat := 4, combDampening: real := 0.5,
               numAllpasses: nat := 2, allpassAttenuation: real := 0.5,
               delayTimes: seq<real> := DefaultDelayTimes): (r: Result<Reverberator>)
    ensures r.Failure? <==> |delayTimes| < numCombs + numAllpasses
    ensures r.Failure? ==> r.error == IndexError(|delayTimes|)
    ensures r.Success? ==>
      && Valid(r.value)
      && r.value.amount == amount
      && r.value.numCombs == numCombs
      && r.value.numAllpasses == numAllpasses
      && r.value.combDampening == 1.0 - combDampening
      && r.value.allpassAttenuation == 1.0 - allpassAttenuation
      && forall i :: 0 <= i < |r.value.pipeline| ==>
           r.value.pipeline[i].delayInSamples == Delay.SamplesForDelay(delayTimes[i], sampleRate)
  {
    if |delayTimes| < numCombs + numAllpasses then
      Failure(IndexError(|delayTimes|))
    else
      Success(Reverberator(amount, numCombs, numAllpasses, delayTimes,
                           BuildPipeline(delayTimes, sampleRate, numCombs, numAllpasses),
                           1.0 - combDampening, 1.0 - allpassAttenuation))
  }

  /** Enough pipeline entries for process_buffer's indexing. */
  predicate WellFormed(r: Reverberator)
  {
    r.numCombs + r.numAllpasses <= |r.pipeline|
  }

  /** The buffer after the first k steps of the averaging loop: the sum over
      j < k of (1 / num_combs) times the output of comb j on the input. */
  function CombMix(r: Reverberator, x: seq<real>, k: nat): (y: seq<real>)
    requires k <= r.numCombs <= |r.pipeline|
    ensures |y| == |x|
  {
    if k == 0 then Zeros(|x|)
    else Add(CombMix(r, x, k - 1), Scale(Weight(r), Process(r.pipeline[k - 1], x, r.combDampening)))
  }

  /** The signal folded through the filters in order, each output feeding the next. */
  function Cascade(fs: seq<Filter>, y: seq<real>, gain: real): (z: seq<real>)
    ensures |z| == |y|
    decreases |fs|
  {
    if fs == [] then y else Cascade(fs[1..], Process(fs[0], y, gain), gain)
  }

  /** The all-pass entries of the pipeline, in pipeline order. */
  function AllPassStage(r: Reverberator): (s: seq<Filter>)
    requires WellFormed(r)
    ensures |s| == r.numAllpasses
  {
    r.pipeline[r.numCombs .. r.numCombs + r.numAllpasses]
  }

  /** The all-pass stage is the num_allpasses entries after the combs, in
      order; in a constructed reverberator every one of them is an all-pass. */
  lemma AllPassStageEntries(r: Reverberator)
    requires WellFormed(r)
    ensures forall i :: 0 <= i < r.numAllpasses ==> AllPassStage(r)[i] == r.pipeline[r.numCombs + i]
    ensures Valid(r) ==> forall i :: 0 <= i < r.numAllpasses ==> AllPassStage(r)[i].AllPass?
  {
  }

  /** The fully wet signal: the comb average folded through the all-passes. */
  function Wet(r: Reverberator, x: seq<real>): (y: seq<real>)
    requires WellFormed(r)
    ensures |y| == |x|
  {
    Cascade(AllPassStage(r), CombMix(r, x, r.numCombs), r.allpassAttenuation)
  }

  /** SchroederReverberator.process_buffer. The dry input is padded to the wet
      length, which is its own length, so the pad is empty and the result
      blends the two sample by sample. */
  function ProcessBuffer(r: Reverberator, x: seq<real>): (out: seq<real>)
    requires WellFormed(r)
    ensures |out| == |x|
    ensures forall n :: 0 <= n < |x| ==> out[n] == r.amount * Wet(r, x)[n] + (1.0 - r.amount) * x[n]
  {
    var y := Wet(r, x);
    var xPad := PadRight(x, |y| - |x|);
    assert xPad == xPad[..|x|] == x;
    Add(Scale(r.amount, y), Scale(1.0 - r.amount, xPad))
  }

  /** Composition of cascades: running fs then gs is running fs + gs. */
  lemma {:induction false} CascadeConcat(fs: seq<Filter>, gs: seq<Filter>, y: seq<real>, gain: real)
    ensures Cascade(fs + gs, y, gain) == Cascade(gs, Cascade(fs, y, gain), gain)
    decreases |fs|
  {
    if fs != [] {
      assert (fs + gs)[1..] == fs[1..] + gs;
      CascadeConcat(fs[1..], gs, Process(fs[0], y, gain), gain);
    } else {
      assert fs + gs == gs;
    }
  }

  /** Order of the chain: the last filter of the cascade runs last, on the
      output of all the ones before it. */
  lemma CascadeLast(fs: seq<Filter>, f: Filter, y: seq<real>, gain: real)
    ensures Cascade(fs + [f], y, gain) == Process(f, Cascade(fs, y, gain), gain)
  {
    CascadeConcat(fs, [f], y, gain);
    assert [f][1..] == [];
  }

  /** A cascade of filters maps silence to silence. */
  lemma {:induction false} CascadeSilence(fs: seq<Filter>, len: nat, gain: real)
    ensures Cascade(fs, Zeros(len), gain) == Zeros(len)
    decreases |fs|
  {
    if fs != [] {
      ProcessSilence(fs[0], len, gain);
      CascadeSilence(fs[1..], len, gain);
    }
  }

  /** The echo taps of the first k combs at index n: Σ_{j<k} x[n − Span(delay_j)]. */
  function EchoSum(r: Reverberator, x: seq<real>, k: nat, n: int): real
    requires k <= |r.pipeline|
  {
    if k == 0 then 0.0 else EchoSum(r, x, k - 1, n) + At(x, n - Span(r.pipeline[k - 1].delayInSamples))
  }

  /** The weight of each comb in the average. */
  function Weight(r: Reverberator): (w: real)
    requires r.numCombs > 0
    ensures w > 0.0
  {
    1.0 / r.numCombs as real
  }

  /** The num_combs comb weights add up to one: the loop computes a true average. */
  lemma WeightsSumToOne(r: Reverberator)
    requires r.numCombs > 0
    ensures (r.numCombs as real) * Weight(r) == 1.0
  {
  }

  /** One step of the averaging loop at one sample: the k-th comb's output,
      weighted, is added to the running sum. */
  lemma CombMixStep(r: Reverberator, x: seq<real>, k: nat, n: nat)
    requires 0 < k <= r.numCombs <= |r.pipeline|
    requires n < |x|
    ensures CombMix(r, x, k)[n]
         == CombMix(r, x, k - 1)[n] + Weight(r) * Process(r.pipeline[k - 1], x, r.combDampening)[n]
  {
    var s := Scale(Weight(r), Process(r.pipeline[k - 1], x, r.combDampening));
    assert CombMix(r, x, k) == Add(CombMix(r, x, k - 1), s);
  }

  /** The sum, without weights, of the first k comb outputs at sample n. */
  function CombSum(r: Reverberator, x: seq<real>, k: nat, n: nat): real
    requires k <= |r.pipeline|
    requires n < |x|
  {
    if k == 0 then 0.0 else CombSum(r, x, k - 1, n) + Process(r.pipeline[k - 1], x, r.combDampening)[n]
  }

  /** A common factor distributes over a sum. */
  lemma Distribute(w: real, a: real, b: real, s: real)
    requires s == a + b
    ensures w * a + w * b == w * s
  {
  }

  /** The weighted comb outputs of the first k combs at sample n, term by term. */
  function WeightedCombSum(r: Reverberator, x: seq<real>, k: nat, n: nat): real
    requires 0 < r.numCombs
    requires k <= |r.pipeline|
    requires n < |x|
  {
    if k == 0 then 0.0
    else WeightedCombSum(r, x, k - 1, n) + Weight(r) * Process(r.pipeline[k - 1], x, r.combDampening)[n]
  }

  /** Each sample of the running sum is the sum of the weighted comb outputs so far. */
  lemma {:induction false} CombMixSamples(r: Reverberator, x: seq<real>, k: nat, n: nat)
    requires 0 < r.numCombs
    requires k <= r.numCombs <= |r.pipeline|
    requires n < |x|
    ensures CombMix(r, x, k)[n] == WeightedCombSum(r, x, k, n)
  {
    if k > 0 {
      CombMixSamples(r, x, k - 1, n);
      CombMixStep(r, x, k, n);
    }
  }

  /** The common weight factors out of the weighted comb outputs. */
  lemma {:induction false} WeightFactors(r: Reverberator, x: seq<real>, k: nat, n: nat)
    requires 0 < r.numCombs
    requires k <= |r.pipeline|
    requires n < |x|
    ensures WeightedCombSum(r, x, k, n) == Weight(r) * CombSum(r, x, k, n)
  {
    if k > 0 {
      WeightFactors(r, x, k - 1, n);
      Distribute(Weight(r), CombSum(r, x, k - 1, n), Process(r.pipeline[k - 1], x, r.combDampening)[n],
                 CombSum(r, x, k, n));
    }
  }

  /** After k steps of the averaging loop each sample is the weight times the
      sum of the first k comb outputs. */
  lemma CombMixIsWeightedSum(r: Reverberator, x: seq<real>, k: nat, n: nat)
    requires 0 < r.numCombs
    requires k <= r.numCombs <= |r.pipeline|
    requires n < |x|
    ensures CombMix(r, x, k)[n] == Weight(r) * CombSum(r, x, k, n)
  {
    CombMixSamples(r, x, k, n);
    WeightFactors(r, x, k, n);
  }

  /** v added to itself k times. */
  function Copies(k: nat, v: real): real
  {
    if k == 0 then 0.0 else Copies(k - 1, v) + v
  }

  /** k copies of v add up to k·v. */
  lemma {:induction false} CopiesIsProduct(k: nat, v: real)
    ensures Copies(k, v) == (k as real) * v
  {
    if k > 0 {
      CopiesIsProduct(k - 1, v);
      assert ((k - 1) as real) * v + v == (k as real) * v;
    }
  }

  /** The dampened echo taps of the first k combs at index n, term by term. */
  function DampedEchoes(r: Reverberator, x: seq<real>, k: nat, n: int): real
    requires k <= |r.pipeline|
  {
    if k == 0 then 0.0
    else DampedEchoes(r, x, k - 1, n) + r.combDampening * At(x, n - Span(r.pipeline[k - 1].delayInSamples))
  }

  /** The common dampening factors out of the echo terms. */
  lemma {:induction false} DampedEchoesFactor(r: Reverberator, x: seq<real>, k: nat, n: int)
    requires k <= |r.pipeline|
    ensures DampedEchoes(r, x, k, n) == r.combDampening * EchoSum(r, x, k, n)
  {
    if k > 0 {
      DampedEchoesFactor(r, x, k - 1, n);
      var echo := At(x, n - Span(r.pipeline[k - 1].delayInSamples));
      Distribute(r.combDampening, EchoSum(r, x, k - 1, n), echo, EchoSum(r, x, k, n));
    }
  }

  /** The first k combs together pass k copies of the input plus their
      dampened echoes. */
  lemma {:induction false} CombSumForm(r: Reverberator, x: seq<real>, k: nat, n: nat)
    requires Valid(r)
    requires k <= r.numCombs
    requires n < |x|
    ensures CombSum(r, x, k, n) == Copies(k, x[n]) + DampedEchoes(r, x, k, n)
  {
    if k > 0 {
      CombSumForm(r, x, k - 1, n);
      var f := r.pipeline[k - 1];
      assert f.Comb?;
      CombSample(f, x, r.combDampening, n);
    }
  }

  /** The weight spread over both parts of the comb sum. */
  lemma Spread(w: real, k: real, xn: real, g: real, e: real)
    ensures w * (k * xn + g * e) == k * w * xn + w * g * e
  {
    assert w * (k * xn + g * e) == w * (k * xn) + w * (g * e);
  }

  /** After k steps of the averaging loop over combs, each sample holds k/num_combs
      of the input plus 1/num_combs of the dampened echoes of those k combs. */
  lemma CombMixPartial(r: Reverberator, x: seq<real>, k: nat, n: nat)
    requires Valid(r)
    requires 0 < r.numCombs
    requires k <= r.numCombs
    requires n < |x|
    ensures CombMix(r, x, k)[n] == (k as real) * Weight(r) * x[n] + Weight(r) * r.combDampening * EchoSum(r, x, k, n)
  {
    CombMixIsWeightedSum(r, x, k, n);
    CombSumForm(r, x, k, n);
    CopiesIsProduct(k, x[n]);
    DampedEchoesFactor(r, x, k, n);
    Spread(Weight(r), k as real, x[n], r.combDampening, EchoSum(r, x, k, n));
  }

  /** The comb bank in closed form: the average of the combs is the input plus
      the dampened mean of the combs' echoes of that same input. */
  lemma CombBankClosedForm(r: Reverberator, x: seq<real>, n: nat)
    requires Valid(r)
    requires r.numCombs > 0
    requires n < |x|
    ensures CombMix(r, x, r.numCombs)[n]
         == x[n] + Weight(r) * r.combDampening * EchoSum(r, x, r.numCombs, n)
  {
    CombMixPartial(r, x, r.numCombs, n);
    WeightsSumToOne(r);
  }

  /** With a comb dampening of 1 (a gain of 0) every comb passes its input
      through, and the average of num_combs copies of the input is the input. */
  lemma CombBankTransparent(r: Reverberator, x: seq<real>)
    requires Valid(r)
    requires r.numCombs > 0
    requires r.combDampening == 0.0
    ensures CombMix(r, x, r.numCombs) == x
  {
    forall n | 0 <= n < |x|
      ensures CombMix(r, x, r.numCombs)[n] == x[n]
    {
      CombBankClosedForm(r, x, n);
    }
  }

  /** Fully dry: an amount of 0 returns the input unchanged. */
  lemma DryEndpoint(r: Reverberator, x: seq<real>)
    requires WellFormed(r)
    requires r.amount == 0.0
    ensures ProcessBuffer(r, x) == x
  {
  }

  /** Fully wet: an amount of 1 returns the wet signal with no dry part. */
  lemma WetEndpoint(r: Reverberator, x: seq<real>)
    requires WellFormed(r)
    requires r.amount == 1.0
    ensures ProcessBuffer(r, x) == Wet(r, x)
  {
  }

  /** With no combs the averaging loop never runs (so 1/num_combs is never
      evaluated), the all-passes see silence, and only the dry part remains. */
  lemma NoCombs(r: Reverberator, x: seq<real>)
    requires WellFormed(r)
    requires r.numCombs == 0
    ensures Wet(r, x) == Zeros(|x|)
    ensures ProcessBuffer(r, x) == Scale(1.0 - r.amount, x)
  {
    CascadeSilence(AllPassStage(r), |x|, r.allpassAttenuation);
    var out := ProcessBuffer(r, x);
    forall n | 0 <= n < |x|
      ensures out[n] == (1.0 - r.amount) * x[n]
    {
      assert Wet(r, x)[n] == 0.0;
    }
  }

  /** A cascade of causal filters is causal. */
  lemma {:induction false} CascadeCausal(fs: seq<Filter>, y: seq<real>, m: nat, gain: real)
    requires m <= |y|
    ensures Cascade(fs, y[..m], gain) == Cascade(fs, y, gain)[..m]
    decreases |fs|
  {
    if fs != [] {
      ProcessCausal(fs[0], y, m, gain);
      CascadeCausal(fs[1..], Process(fs[0], y, gain), m, gain);
    }
  }

  /** Every partial sum of the comb average is causal in the input. */
  lemma {:induction false} CombMixCausal(r: Reverberator, x: seq<real>, k: nat, m: nat)
    requires k <= r.numCombs <= |r.pipeline|
    requires m <= |x|
    ensures CombMix(r, x[..m], k) == CombMix(r, x, k)[..m]
  {
    if k > 0 {
      CombMixCausal(r, x, k - 1, m);
      var c := Process(r.pipeline[k - 1], x, r.combDampening);
      ProcessCausal(r.pipeline[k - 1], x, m, r.combDampening);
      ScalePrefix(Weight(r), c, m);
      AddPrefix(CombMix(r, x, k - 1), Scale(Weight(r), c), m);
    } else {
      assert Zeros(|x|)[..m] == Zeros(m);
    }
  }

  /** process_buffer is causal: processing the first m samples of a buffer
      gives the first m samples of processing all of it. */
  lemma Causal(r: Reverberator, x: seq<real>, m: nat)
    requires WellFormed(r)
    requires m <= |x|
    ensures ProcessBuffer(r, x[..m]) == ProcessBuffer(r, x)[..m]
  {
    WetCausal(r, x, m);
    var wet := Wet(r, x);
    BlendForm(r, x);
    BlendForm(r, x[..m]);
    ScalePrefix(r.amount, wet, m);
    ScalePrefix(1.0 - r.amount, x, m);
    AddPrefix(Scale(r.amount, wet), Scale(1.0 - r.amount, x), m);
  }

  /** The wet signal of a prefix is the prefix of the wet signal. */
  lemma WetCausal(r: Reverberator, x: seq<real>, m: nat)
    requires WellFormed(r)
    requires m <= |x|
    ensures Wet(r, x[..m]) == Wet(r, x)[..m]
  {
    CombMixCausal(r, x, r.numCombs, m);
    CascadeCausal(AllPassStage(r), CombMix(r, x, r.numCombs), m, r.allpassAttenuation);
  }

  /** The blend as whole-buffer operations: the pad is empty. */
  lemma BlendForm(r: Reverberator, x: seq<real>)
    requires WellFormed(r)
    ensures ProcessBuffer(r, x) == Add(Scale(r.amount, Wet(r, x)), Scale(1.0 - r.amount, x))
  {
    assert PadRight(x, 0) == x;
  }

  /** A cascade of homogeneous filters is homogeneous. */
  lemma {:induction false} CascadeHomogeneous(fs: seq<Filter>, c: real, y: seq<real>, gain: real)
    ensures Cascade(fs, Scale(c, y), gain) == Scale(c, Cascade(fs, y, gain))
    decreases |fs|
  {
    if fs != [] {
      ProcessHomogeneous(fs[0], c, y, gain);
      CascadeHomogeneous(fs[1..], c, Process(fs[0], y, gain), gain);
    }
  }

  /** Every partial sum of the comb average scales with the input. */
  lemma {:induction false} CombMixHomogeneous(r: Reverberator, c: real, x: seq<real>, k: nat)
    requires k <= r.numCombs <= |r.pipeline|
    ensures CombMix(r, Scale(c, x), k) == Scale(c, CombMix(r, x, k))
  {
    if k > 0 {
      CombMixHomogeneous(r, c, x, k - 1);
      var p := Process(r.pipeline[k - 1], x, r.combDampening);
      ProcessHomogeneous(r.pipeline[k - 1], c, x, r.combDampening);
      ScaleCommutes(Weight(r), c, p);
      ScaleAdd(c, CombMix(r, x, k - 1), Scale(Weight(r), p));
    } else {
      assert Scale(c, Zeros(|x|)) == Zeros(|x|);
    }
  }

  /** Scaling the input scales the wet signal by the same gain. */
  lemma WetHomogeneous(r: Reverberator, c: real, x: seq<real>)
    requires WellFormed(r)
    ensures Wet(r, Scale(c, x)) == Scale(c, Wet(r, x))
  {
    CombMixHomogeneous(r, c, x, r.numCombs);
    CascadeHomogeneous(AllPassStage(r), c, CombMix(r, x, r.numCombs), r.allpassAttenuation);
  }

  /** The reverberator is homogeneous: scaling the input by a gain scales the
      output by the same gain. */
  lemma Homogeneous(r: Reverberator, c: real, x: seq<real>)
    requires WellFormed(r)
    ensures ProcessBuffer(r, Scale(c, x)) == Scale(c, ProcessBuffer(r, x))
  {
    WetHomogeneous(r, c, x);
    var wet := Wet(r, x);
    BlendForm(r, x);
    BlendForm(r, Scale(c, x));
    ScaleCommutes(r.amount, c, wet);
    ScaleCommutes(1.0 - r.amount, c, x);
    ScaleAdd(c, Scale(r.amount, wet), Scale(1.0 - r.amount, x));
  }

  /** SchroederReverberator(sample_rate) with every other argument defaulted:
      four combs on 25, 30, 35 and 40 ms, then two all-passes on 25 and 50 ms,
      an even dry/wet blend and stored gains of one half. */
  lemma DefaultConstruction(sampleRate: int)
    ensures var r := New(sampleRate);
      && r.Success?
      && r.value.amount == 0.5
      && r.value.numCombs == 4 && r.value.numAllpasses == 2
      && r.value.combDampening == 0.5 && r.value.allpassAttenuation == 0.5
      && |r.value.pipeline| == 6
      && r.value.pipeline[0].Comb? && r.value.pipeline[3].Comb?
      && r.value.pipeline[4].AllPass? && r.value.pipeline[5].AllPass?
      && forall i :: 0 <= i < 6 ==>
           r.value.pipeline[i].delayInSamples == Delay.SamplesForDelay(DefaultDelayTimes[i], sampleRate)
  {
  }

  /** The default pipeline at 44100 Hz: 1102.5, 1323, 1543.5, 1764, 1102.5 and
      2205 samples, rounded up. */
  lemma DefaultsAt44100()
    ensures var r := New(44100);
      && r.Success?
      && seq(6, i requires 0 <= i < 6 => r.value.pipeline[i].delayInSamples)
         == [1103, 1323, 1544, 1764, 1103, 2205]
  {
    var r := New(44100);
    DefaultConstruction(44100);
    forall i | 0 <= i < 6
      ensures r.value.pipeline[i].delayInSamples == [1103, 1323, 1544, 1764, 1103, 2205][i]
    {
      Delay.CeilIsLeast(Delay.ExactSamples(DefaultDelayTimes[i], 44100), [1103, 1323, 1544, 1764, 1103, 2205][i]);
    }
  }
}
