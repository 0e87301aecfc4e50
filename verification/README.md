# Schroeder reverberator, modelled in Dafny

This project models `goldie_reverberator.py`, a Schroeder reverberator for mono
buffers. The model has five modules:

- `Signal` (signal.dfy): sample buffers as `seq<real>`. It also holds the numpy
  operations the code uses: `np.zeros`, scaling, `np.add`, and `np.hstack` with
  a zero pad.
- `Delay` (delay.dfy): the delay conversion that both filter constructors use,
  `int(np.ceil((delay_in_ms / 1000) * sample_rate))`.
- `Lfilter` (lfilter.dfy): the kernel both filters hand their tap lists to,
  `scipy.signal.lfilter` with zero initial state. It is written as an explicit
  recurrence and proved equal to the difference equation
  `y[n] = Σ b[k]·x[n−k] − Σ_{k≥1} a[k]·y[n−k]`, with `x` and `y` zero before
  index 0. A buffer satisfies that equation exactly when it is the kernel's
  output. The kernel is also proved causal, additive and homogeneous.
- `Filters` (filters.dfy): `CombFilter` and `AllPassFilter`, tagged as
  `Filter = Comb(delayInSamples) | AllPass(delayInSamples)`. It holds their
  constructors, the tap-list builders (methods with the same append loops as
  `CombFilter.process_buffer` and `AllPassFilter.process_buffer`), and their `process_buffer`, each proved against its own two-term
  difference equation.
- `Reverb` (reverb.dfy): `SchroederReverberator`. The constructor returns an
  `IndexError` result when `delay_times` is too short. `process_buffer` feeds
  the input to every comb, averages the comb outputs, folds the average through
  the all-passes in pipeline order, and blends the result with the dry input.

Samples, gains and delays are exact `real`s.

Some behaviour of the code differs from what its docstrings describe, or is
easy to misread. The model follows the code:

- **The comb filter is feed-forward.** The comb's denominator `a` is
  `[1, 0, …, 0]`, so it has no feedback path. Its output is
  `y[n] = x[n] + g·x[n−d]`. It is not the recursive comb that the docstring's
  word "feedback" suggests. Its impulse response is one echo (1 at index 0,
  `g` at index `d`), not a decaying train (`Filters.CombImpulseResponse`).
- **A delay below one sample acts as one sample.** The builders append
  `delay_in_samples − 1` zeros only when that number is positive. So a delay of
  0 or less gives two-tap lists with the last tap at index 1 (`Filters.Span`).
- **`sample_rate` is never checked.** Neither filter constructor nor the
  reverberator constructor validates it. The only construction error is the
  `IndexError` from indexing a `delay_times` list that is too short.
- **No length error can occur in the blend.** The kernel returns exactly one
  sample per input sample, so the wet signal is as long as the dry input. The
  pad `np.zeros(len(y) - len(x))` is therefore always empty, and its
  negative-length failure can never happen.
- **Lines 232-236 are read as the constructor's loops.** They are indented six
  spaces. That matches no enclosing level: the class is at 0, the methods at 4
  and the constructor body at 8. So Python rejects the module at line 232 with
  `IndentationError: unindent does not match any outer indentation level`, and
  nothing in the file can run as written. The model follows the evident intent,
  which is that the two loops belong to the constructor body.
- **Every constructor argument except `sample_rate` has a default.** The defaults
  are `amount=0.5`, `num_combs=4`, `comb_dampening=0.5`, `num_allpasses=2`,
  `allpass_attenuation=0.5` and `delay_times=[25, 30, 35, 40, 25, 50]`.
  `Reverb.New` has the same defaults, so `New(sampleRate)` is
  `SchroederReverberator(sample_rate)`.

## Model

| member | source | states |
|---|---|---|
| Delay.Ceil | goldie_reverberator.py:41 | `np.ceil` on an exact real is an integer `c` with `t ≤ c < t + 1` |
| Delay.CeilIsLeast | goldie_reverberator.py:41 | every integer at or above `t` is at or above `Ceil(t)`, so the ceiling is the least such integer |
| Delay.SamplesForDelay | goldie_reverberator.py:40-41 | `delay_in_samples` is the least integer not below `delay_in_ms / 1000 · sample_rate` |
| Delay.NeverShorter | goldie_reverberator.py:41 | at a positive sample rate, the rounded delay lasts at least the requested milliseconds and less than one sample longer |
| Delay.NonNegativeDelay | goldie_reverberator.py:111 | a non-negative delay at a positive rate gives a non-negative sample count, which is zero exactly for a zero delay |
| Delay.TwentyFiveMsAt44100 | goldie_reverberator.py:168 | the default first delay of 25 ms, at a sample rate of 44100 Hz (1102.5 samples), becomes 1103 samples |
| Lfilter.Filter | goldie_reverberator.py:81 | the kernel returns one sample per input sample, and its output satisfies the zero-state difference equation at every index |
| Lfilter.Unique | goldie_reverberator.py:153 | any buffer satisfying the difference equation is the kernel's output, which is the converse of `Filter` |
| Lfilter.SilenceIn | goldie_reverberator.py:81 | with zero initial state, a silent input gives a silent output |
| Lfilter.Additive | goldie_reverberator.py:81 | filtering `x + w` gives the sum of the filtered buffers |
| Lfilter.Homogeneous | goldie_reverberator.py:81 | filtering `p·x` gives `p` times the filtered buffer |
| Lfilter.Causal | goldie_reverberator.py:81 | filtering the first `m` input samples gives the first `m` output samples: the output up to any index depends only on the input up to that index |
| Filters.NewComb | goldie_reverberator.py:19-41 | a comb filter stores the least whole number of samples covering its delay |
| Filters.NewAllPass | goldie_reverberator.py:89-111 | an all-pass filter stores the least whole number of samples covering its delay |
| Filters.Span | goldie_reverberator.py:75 | the last tap sits at least 1 place after the first, at exactly `delay_in_samples` when that is 1 or more and at 1 otherwise, since `range(delay_in_samples - 1)` (here and in the all-pass builder at line 146) is then empty |
| Filters.CombCoefficients | goldie_reverberator.py:73-79 | the comb's tap lists both have length `max(N,1)+1`; `b` is 1 first and `g` last, `a` is 1 first and 0 last, and every other tap is 0 |
| Filters.AllPassCoefficients | goldie_reverberator.py:143-151 | the all-pass tap lists both have length `max(N,1)+1`; `b` is `g` first and 1 last, `a` is 1 first and `g` last, and every other tap is 0 |
| Filters.SparseSum | goldie_reverberator.py:73-81 | applied to one of these sparse tap lists, the kernel's sum reduces to the first tap times the current sample plus the last tap times the sample `d` back |
| Filters.CombProcess | goldie_reverberator.py:73-81 | the comb output has the input's length and satisfies `y[n] = x[n] + g·x[n−d]` with `d = max(N,1)` |
| Filters.AllPassProcess | goldie_reverberator.py:143-153 | the all-pass output has the input's length and satisfies `y[n] = g·x[n] + x[n−d] − g·y[n−d]`, with out-of-range terms zero |
| Filters.CombSample | goldie_reverberator.py:73-81 | sample `n` of a comb entry's output is `x[n] + g·x[n−d]` |
| Filters.AllPassUnique | goldie_reverberator.py:143-153 | any buffer of the input's length satisfying the all-pass recurrence is the all-pass output |
| Filters.Process | goldie_reverberator.py:288 | running a pipeline entry's own `process_buffer` keeps the buffer length |
| Filters.CombZeroDampening | goldie_reverberator.py:73-81 | with gain 0 the comb returns its input unchanged |
| Filters.CombImpulseResponse | goldie_reverberator.py:73-81 | the comb's impulse response is 1 at index 0, `g` at index `d`, and 0 everywhere else |
| Filters.ProcessSilence | goldie_reverberator.py:73-153 | for both `CombFilter.process_buffer` (lines 73-81) and `AllPassFilter.process_buffer` (lines 143-153), either filter maps a silent buffer to a silent buffer |
| Filters.ProcessCausal | goldie_reverberator.py:73-153 | for both `CombFilter.process_buffer` (lines 73-81) and `AllPassFilter.process_buffer` (lines 143-153), the first `m` samples a filter returns depend only on the first `m` input samples |
| Filters.ProcessHomogeneous | goldie_reverberator.py:73-153 | for both `CombFilter.process_buffer` (lines 73-81) and `AllPassFilter.process_buffer` (lines 143-153), scaling a filter's input by `c` scales its output by `c` |
| Reverb.BuildPipeline | goldie_reverberator.py:232-236 | entry `i < num_combs` is a comb built from `delay_times[i]`, and the remaining `num_allpasses` entries are all-passes built from `delay_times[i]` |
| Reverb.New | goldie_reverberator.py:161-236 | construction fails with `IndexError(len(delay_times))` exactly when `delay_times` has fewer than `num_combs + num_allpasses` entries; otherwise the pipeline has combs first and then all-passes, with delays taken from `delay_times`, and the stored gains are `1 − comb_dampening` and `1 − allpass_attenuation` |
| Reverb.DefaultConstruction | goldie_reverberator.py:161-168 | `SchroederReverberator(sample_rate)` succeeds at every sample rate. It gets four combs on 25, 30, 35 and 40 ms, then two all-passes on 25 and 50 ms, with `amount` 0.5 and stored gains of 0.5 |
| Reverb.DefaultsAt44100 | goldie_reverberator.py:161-168 | at 44100 Hz the default pipeline's delays are 1103, 1323, 1544, 1764, 1103 and 2205 samples |
| Reverb.CombMix | goldie_reverberator.py:287-291 | every partial sum of the averaging loop has the input's length |
| Reverb.Cascade | goldie_reverberator.py:293-294 | folding a buffer through the all-pass chain keeps its length |
| Reverb.AllPassStage | goldie_reverberator.py:293 | the all-pass stage has `num_allpasses` entries |
| Reverb.AllPassStageEntries | goldie_reverberator.py:293 | entry `i` of the all-pass stage is `pipeline[num_combs + i]`, and in a constructed reverberator each entry is an all-pass |
| Reverb.CascadeConcat | goldie_reverberator.py:293-294 | running the chain `fs + gs` is running `fs` and then `gs` on its output |
| Reverb.CascadeLast | goldie_reverberator.py:293-294 | the last filter of the chain runs last, on the output of all the filters before it |
| Reverb.CascadeSilence | goldie_reverberator.py:293-294 | a chain of filters maps silence to silence |
| Reverb.Wet | goldie_reverberator.py:283-294 | the wet signal is as long as the input |
| Reverb.ProcessBuffer | goldie_reverberator.py:283-300 | the output is as long as the input, and `out[n] = amount·wet[n] + (1 − amount)·x[n]` |
| Signal.PadRight | goldie_reverberator.py:296-298 | `np.hstack((x, np.zeros(n)))` is `x` followed by `n` zeros |
| Reverb.CombMixPartial | goldie_reverberator.py:287-291 | after `k` steps of the averaging loop, each sample holds `k/num_combs` of the input plus `1/num_combs` of the dampened echoes of those `k` combs |
| Reverb.Weight | goldie_reverberator.py:291 | each comb's weight `1 / num_combs` is positive |
| Reverb.WeightsSumToOne | goldie_reverberator.py:291 | `num_combs` copies of the weight add up to 1, so the loop computes a mean |
| Reverb.CombMixStep | goldie_reverberator.py:290-291 | one step of the averaging loop adds the `k`-th comb's output, times the weight, to the running sum |
| Reverb.CombMixIsWeightedSum | goldie_reverberator.py:287-291 | after `k` steps, each sample is the weight times the sum of the first `k` comb outputs |
| Reverb.CombSumForm | goldie_reverberator.py:287-291 | the first `k` comb outputs add up to `k` copies of the input plus their dampened echoes |
| Reverb.CombBankClosedForm | goldie_reverberator.py:287-291 | the comb average is the original input plus `g/num_combs` times the sum of the combs' echoes of that input |
| Reverb.CombBankTransparent | goldie_reverberator.py:287-291 | with `comb_dampening = 1` (gain 0), the comb average is exactly the input |
| Reverb.DryEndpoint | goldie_reverberator.py:300 | `amount = 0` returns the input unchanged |
| Reverb.WetEndpoint | goldie_reverberator.py:300 | `amount = 1` returns the wet signal with no dry part |
| Reverb.NoCombs | goldie_reverberator.py:283-300 | with `num_combs = 0` nothing is divided, the wet signal is silent, and the output is `(1 − amount)·x` |
| Reverb.CascadeCausal | goldie_reverberator.py:293-294 | the first `m` samples out of the all-pass chain depend only on the first `m` samples into it |
| Reverb.CascadeHomogeneous | goldie_reverberator.py:293-294 | scaling the chain's input by `c` scales its output by `c` |
| Reverb.CombMixCausal | goldie_reverberator.py:287-291 | the first `m` samples of every partial comb average depend only on the first `m` input samples |
| Reverb.CombMixHomogeneous | goldie_reverberator.py:287-291 | scaling the input by `c` scales every partial comb average by `c` |
| Reverb.BlendForm | goldie_reverberator.py:296-300 | after the empty pad, the output is the sum of the wet signal scaled by `amount` and the input scaled by `1 − amount` |
| Reverb.Causal | goldie_reverberator.py:283-300 | processing the first `m` input samples gives the first `m` samples of processing the whole buffer |
| Reverb.Homogeneous | goldie_reverberator.py:283-300 | scaling the input by a gain `c` scales the reverberator's output by `c` |

## Left out

- Lfilter.Filter: requires the leading denominator tap to be 1. `lfilter` also accepts any nonzero leading tap and divides by it. Every tap list built here starts with 1, so this case never arises.
- `lfilter`'s initial-state argument `zi`, its axis handling and multi-dimensional input: the code never uses them.
- IEEE-754 arithmetic: samples, gains and delays are exact reals. Float rounding, for example in `np.ceil` at products that are nearly whole, is not modelled.
- Negative `num_combs` or `num_allpasses`: both are modelled as natural numbers. With negative counts, Python's empty `range` and wrap-around negative indexing would pick entries in a different order.
- Validation that the code does not do: `sample_rate`, `amount`, the dampening and the attenuation are not range-checked, and the model does not check them either.
- Stability and frequency-response claims (bounded output for gains below 1, unit magnitude of the all-pass): these are spectral properties, not facts about the time-domain functions modelled here.
- The filters' `delay_in_ms` field: it is stored but never read after construction.
- Audio I/O and playback (`IPython.display.Audio` and `soundfile` imports, lines 9-10), and the usage examples in the docstrings.
