/**
  Conversion of a delay given in milliseconds into a whole number of samples,
  as both filter constructors do it: int(np.ceil((delay_in_ms / 1000) * sample_rate)).
 */
module Delay {

  /** np.ceil on an exact real: the least integer not below t. */
  function Ceil(t: real): (c: int)
    ensures t <= c as real < t + 1.0
  {
    var f := t.Floor;
    if f as real == t then f else f + 1
  }

  /** Ceil is the least integer bound: any integer at or above t is at or above Ceil(t). */
  lemma CeilIsLeast(t: real, m: int)
    requires t <= m as real
    ensures Ceil(t) <= m
  {
  }

  /** The delay in milliseconds expressed as a real number of samples. */
  function ExactSamples(delayInMs: real, sampleRate: int): real
  {
    (delayInMs / 1000.0) * sampleRate as real
  }

  /** delay_in_samples of a filter built with this delay and sample rate.
      SchroederReverberator and both filter constructors never check the sample rate. */
  function SamplesForDelay(delayInMs: real, sampleRate: int): (n: int)
    ensures ExactSamples(delayInMs, sampleRate) <= n as real
    ensures (n - 1) as real < ExactSamples(delayInMs, sampleRate)
  {
    Ceil(ExactSamples(delayInMs, sampleRate))
  }

  /** Rounding up never shortens the delay: at a positive sample rate, n samples
      last at least delayInMs milliseconds, and less than one sample longer. */
  lemma NeverShorter(delayInMs: real, sampleRate: int)
    requires sampleRate > 0
    ensures var n := SamplesForDelay(delayInMs, sampleRate);
            && delayInMs <= n as real * 1000.0 / sampleRate as real
            && (n - 1) as real * 1000.0 / sampleRate as real < delayInMs
  {
  }

  /** A non-negative delay at a positive sample rate gives a non-negative count,
      and zero exactly for a zero delay. */
  lemma NonNegativeDelay(delayInMs: real, sampleRate: int)
    requires delayInMs >= 0.0 && sampleRate > 0
    ensures SamplesForDelay(delayInMs, sampleRate) >= 0
    ensures SamplesForDelay(delayInMs, sampleRate) == 0 <==> delayInMs == 0.0
  {
  }

  /** The default first comb delay: 25 ms at 44100 Hz is 1102.5 samples, rounded up to 1103. */
  lemma TwentyFiveMsAt44100()
    ensures SamplesForDelay(25.0, 44100) == 1103
  {
  }
}
