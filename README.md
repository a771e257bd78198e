# audio_compare_lib in Dafny

This project models how `audio_compare_lib` decides whether two decoded audio
clips are "the same". It covers the discrete, index-driven core of the library:

1. **Duration gate.** Two clips whose durations differ by more than
   `max_length_difference` seconds are rejected at once.
2. **Smoothing.** Both clips go through a single-pole low-pass filter,
   `y[0] = x[0]` and `y[i] = y[i-1] + alpha * (x[i] - y[i-1])`.
3. **Shift estimation.** The two filtered clips are zero-padded to a common
   length `L` and cross-correlated through forward and inverse transforms.
   The chosen lag is the last greatest value among the first
   `shift_tolerance_seconds * frequency` correlation entries, minus `L / 2`.
4. **Alignment.** The filtered clips are trimmed to their overlap under that
   lag.
5. **Scoring.** The Pearson coefficient of the two magnitude spectra is taken,
   and the verdict is `score >= min_correlation`.

Samples are `real`. The FFT bins, the inverse FFT bins and the square root are
opaque functions, bundled in the `Numerics` datatype (file `fft.dfy`). The
model therefore holds for every FFT implementation.

A Rust panic is an explicit outcome, `Panicked(EmptySignal)` or
`Panicked(SliceOutOfRange)`. Both can happen in the source:

- `lowpass_filter` reads `signal[0]`, so an empty clip that passes the gate
  panics.
- `apply_shift` slices past the end of a signal when the estimated lag leaves
  no valid overlap. `UnequalLengthsCanPanic` exhibits such a case: all-zero
  clips of 4 and 1 samples pass the default gate and then panic, for any
  transforms that map the all-zero 4-element buffer to zero.

Clips of equal, non-empty length never panic in `apply_shift`
(`EqualLengthsAlignWithoutPanic`). This holds for a release build, where
`audio2.len() + shift as usize` wraps, and for samples without NaN (see
"Left out" for the debug-build overflow and the `partial_cmp` panic).

Files and modules:

- `fft.dfy`, module `Fft`: complex numbers, the opaque transform, and the
  in-place `Process` of a buffer.
- `filters.dfy`, module `Filters`: the recurrence as a function `Smoothed`,
  its lemmas, and `LowpassFilter`, a method that fills an array in a loop.
- `correlation.dfy`, module `Correlation`: padding, the cross-correlation (a
  function and an imperative method proved equal to it), and the
  last-maximum fold and shift.
- `audio_compare.dfy`, module `AudioCompare`: `apply_shift`, the correlation
  coefficient, and the staged pipeline with its lemmas.
- `real_arith.dfy`, module `RealArith`: sign facts about products of reals,
  which the filter and score proofs use.

Behaviour of the code that the model keeps as it is:

- **Ties.** Among equal maxima the last index is chosen, because
  `Iterator::max_by` keeps the last one (src/correlation.rs:17).
- **Empty signal.** An empty signal panics at `signal[0]` in
  `lowpass_filter` (src/filters.rs:9).
- **Out-of-range shift.** `apply_shift` has no bounds guard, so an
  out-of-range shift is a slice panic (src/lib.rs:78-90).
- **Parameters.** A zero cutoff or sample rate is not checked. The model
  requires both to be positive (see "Left out").

## Model

| member | source | states |
|---|---|---|
| Fft.FromReal | src/correlation.rs:29-32 | each sample becomes a complex number with that real part and zero imaginary part; the length is kept |
| Fft.RealParts | src/correlation.rs:51 | the result keeps the length, and element i is the real part of element i |
| Fft.Transform | src/correlation.rs:37-38 | an N-element buffer has an N-point transform, whose bin k is the opaque bin function at k |
| Fft.Process | src/correlation.rs:37-38 | `process(&mut buffer)` replaces the buffer in place by the transform of its old contents |
| Fft.ComputeFft | src/fft.rs:4-13 | the output has the signal's length; entry k is the square root of the squared norm of bin k of the forward transform of the signal as complex numbers |
| Fft.SpectrumNonNegative | src/fft.rs:12 | with a non-negative square root, every magnitude is non-negative |
| Filters.Alpha | src/filters.rs:4-6 | for a positive cutoff and sample rate, alpha = dt / (rc + dt) lies strictly between 0 and 1 |
| Filters.Smoothed | src/filters.rs:8-13 | the recurrence produces one output per input sample |
| Filters.Lowpass | src/filters.rs:3-16 | the filtered signal has the input's length |
| Filters.LowpassFilter | src/filters.rs:3-16 | the fresh output array, filled index by index, equals the recurrence with the filter's alpha |
| Filters.SmoothedFirst | src/filters.rs:9 | the first output is the first input |
| Filters.SmoothedStep | src/filters.rs:11-12 | for every i >= 1, out[i] == out[i-1] + alpha * (in[i] - out[i-1]) |
| Filters.SmoothedExtend | src/filters.rs:11-12 | the output on one more sample is the output so far, followed by one step from its last element |
| Filters.SmoothedPrefix | src/filters.rs:11-12 | the first k outputs equal the output on the first k inputs |
| Filters.SmoothedCausal | src/filters.rs:11-12 | inputs that agree on their first k samples give outputs that agree on their first k entries |
| Filters.SmoothedConstant | src/filters.rs:12 | a constant input is returned unchanged |
| Filters.Step | src/filters.rs:12 | one step of the recurrence: the previous output moved towards the input by alpha (its bounds are `Filters.StepBetween`) |
| Filters.StepBetween | src/filters.rs:12 | with 0 <= alpha <= 1, one step lands between the previous output and the input |
| Filters.SmoothedBounded | src/filters.rs:12 | with 0 <= alpha <= 1, bounds that hold for in[0..=i] also hold for out[i] |
| Filters.SmoothedWithinRange | src/filters.rs:12 | with 0 <= alpha <= 1, out[i] lies between the min and the max of in[0..=i] |
| Correlation.MaxLength | src/correlation.rs:25 | the common length is one of the two lengths and at least both |
| Correlation.Resize | src/correlation.rs:34-35 | `Vec::resize` gives exactly `len` elements: the old ones first, then copies of the fill value |
| Correlation.Padded | src/correlation.rs:29-35 | the padded buffer has length `len`, equals the input as complex numbers on its prefix, and is zero after it |
| Correlation.PaddedBuffer | src/correlation.rs:29-35 | a fresh buffer holding the padded signal |
| Correlation.ConjugateProducts | src/correlation.rs:40-45 | `zip` pairs only the shorter length; element i is conj(a[i]) * b[i] |
| Correlation.Cloned | src/correlation.rs:48 | a fresh buffer holding a copy of the sequence |
| Correlation.CrossCorrelation | src/correlation.rs:24-52 | the correlation sequence has length L = max(len1, len2) |
| Correlation.CrossCorrelationFft | src/correlation.rs:24-52 | padding, the in-place transforms, the conjugate products, the in-place inverse transform and the real parts compute the value `CrossCorrelation` defines |
| Correlation.PaddedSilence | src/correlation.rs:29-35 | padding an all-zero signal gives the all-zero buffer |
| Correlation.TransformSilence | src/correlation.rs:37-38 | a transform that sends the all-zero buffer to zero bin by bin sends it to the all-zero buffer |
| Correlation.ConjugateSilence | src/correlation.rs:40-45 | the conjugate products of two all-zero buffers are zero |
| Correlation.SilenceCorrelatesToZero | src/correlation.rs:24-52 | with such transforms, all-zero signals have an all-zero correlation |
| Correlation.LastMaxIndex | src/correlation.rs:13-18 | on a non-empty sequence, the fold returns an index whose value is >= every value, with every later value strictly smaller |
| Correlation.LastMaximumUnique | src/correlation.rs:17 | at most one index is such a last maximum |
| Correlation.LastMaxIndexCharacterized | src/correlation.rs:17 | an index is the last maximum if and only if it is the one the fold returns |
| Correlation.BestIndex | src/correlation.rs:13-19 | an empty window gives index 0 (`unwrap_or(0)`); otherwise the index is the last maximum of the first min(window, L) entries |
| Correlation.MaxShiftSamples | src/correlation.rs:10 | the window is `shift_tolerance_seconds * frequency` samples |
| Correlation.FindOptimalShift | src/correlation.rs:4-22 | the shift lies in [-(L/2), min(window, L) - 1 - L/2]; it is exactly -(L/2) when the window is empty |
| Correlation.ShiftIsLastMaximumInWindow | src/correlation.rs:10-21 | for a non-empty window of `tol * frequency` entries, shift + L/2 is an index in the window; its value is >= every window value, and every later window value is smaller |
| AudioCompare.ShiftInRange | src/lib.rs:79-88 | the slice bounds of both branches are within both signals: `shift <= len1` and `len1 - shift <= len2` for a positive shift, `-shift <= len2` and `len2 + shift <= len1` otherwise; an in-range shift lies between `-len2` and `len1` |
| AudioCompare.OverlapLength | src/lib.rs:79-88 | the length both trimmed signals share, `len1 - shift` or `len2 + shift`; within range it is non-negative and no longer than either signal |
| AudioCompare.ApplyShift | src/lib.rs:78-90 | the slicing succeeds if and only if its bounds are within both signals; otherwise it is a slice panic |
| AudioCompare.ApplyShiftAligned | src/lib.rs:78-90 | without a panic, both outputs have the overlap length; out1[i] == audio1[i + max(shift, 0)] and out2[i] == audio2[i + max(-shift, 0)]; the outputs are those two slices |
| AudioCompare.ApplyShiftZero | src/lib.rs:84-88 | with shift 0, the second signal is kept whole and the first is cut to its length; a longer second signal panics |
| AudioCompare.PairProducts | src/lib.rs:96-99 | the products are formed only up to the shorter length |
| AudioCompare.Sum | src/lib.rs:93-94 | `iter().sum()`, a left fold with `+` from 0; a sum of non-negative values is non-negative |
| AudioCompare.Mean | src/lib.rs:93-94 | the sum of a spectrum divided by its length; the mean of a non-negative spectrum is non-negative |
| AudioCompare.Covariance | src/lib.rs:96-100 | the numerator: the sum of the products of the zipped deviations, each from its own spectrum's mean |
| AudioCompare.Spread | src/lib.rs:101-102 | one factor of the denominator, the square root of the sum of squared deviations; for a non-negative square root it is non-negative |
| AudioCompare.CorrelationCoefficient | src/lib.rs:92-104 | an empty spectrum gives an undefined score; otherwise the score is undefined exactly when the product of the two spreads is zero |
| AudioCompare.CorrelationCoefficientSymmetric | src/lib.rs:92-104 | swapping the two spectra does not change the score |
| AudioCompare.CovarianceUsesOverlap | src/lib.rs:93-100 | the numerator uses only the first min(len1, len2) elements of each spectrum, each centred on the mean of its whole spectrum |
| AudioCompare.SumSquaresNonNegative | src/lib.rs:101-102 | a sum of squared deviations is non-negative |
| AudioCompare.SumSquaresZero | src/lib.rs:101-102 | a sum of squares is zero only when every term is zero |
| AudioCompare.UndefinedScoreIsZeroOverZero | src/lib.rs:101-104 | with a square root that is zero only at zero, a zero denominator forces a zero numerator, so an undefined score is always 0/0 |
| AudioCompare.Abs | src/lib.rs:39 | the absolute value is non-negative and is x or -x |
| AudioCompare.Duration | src/lib.rs:36-37 | the length of a clip in seconds, `len / frequency`; non-negative, and zero exactly for an empty clip |
| AudioCompare.TooDifferent | src/lib.rs:36-40 | the gate condition, the absolute difference of the two durations exceeding `max_length_difference`; clips of equal length pass a non-negative limit |
| AudioCompare.TooDifferentSymmetric | src/lib.rs:36-40 | the gate does not depend on which clip is first |
| AudioCompare.Align | src/lib.rs:48-58 | the shift is estimated from the filtered pair, and that same pair is trimmed by it; a trimmed pair has equal lengths, and the only failure is the slice panic |
| AudioCompare.ScoreAligned | src/lib.rs:60-63 | the coefficient of the magnitude spectra of the two aligned signals; an empty aligned signal gives an undefined (NaN) score |
| AudioCompare.Decide | src/lib.rs:67 | `correlation >= min_correlation`; an undefined (NaN) score is never accepted |
| AudioCompare.FilterBoth | src/lib.rs:45-46 | filtering both signals succeeds if and only if both are non-empty; it keeps both lengths, and otherwise it is the empty-signal panic |
| AudioCompare.CompareAudioFiles | src/lib.rs:32-68 | the gate gives `false`; past the gate, an empty signal panics; a panic happens only past the gate |
| AudioCompare.GateShortCircuits | src/lib.rs:36-43 | when the gate fails, the verdict is `false` whatever the sample values and whatever the numerics |
| AudioCompare.VerdictDependsOnFilteredSignals | src/lib.rs:45-58 | raw signals with the same filtered signals get the same verdict |
| AudioCompare.AlignedPairIsScored | src/lib.rs:45-67 | past the gate, when aligning the filtered pair succeeds, the verdict is the decision on that aligned pair |
| AudioCompare.AlignmentPanicIsVerdict | src/lib.rs:45-58 | past the gate, a panic while aligning the filtered pair is the verdict |
| AudioCompare.StagesInOrder | src/lib.rs:45-67 | past the gate, with the shift estimated from the filtered pair and in range, the verdict is the decision on the filtered pair trimmed to that shift's overlap |
| AudioCompare.StagesPanicOutsideOverlap | src/lib.rs:45-58 | past the gate, a shift estimated from the filtered pair that is out of range makes the comparison panic |
| AudioCompare.ThresholdInclusive | src/lib.rs:67 | a score exactly at the threshold is accepted; an undefined (NaN) score is rejected |
| AudioCompare.EqualLengthsAlignWithoutPanic | src/lib.rs:48-58 | non-empty signals of equal length never make the comparison panic |
| AudioCompare.UnequalLengthsCanPanic | src/lib.rs:48-58 | with the default parameters and any transforms that map the all-zero 4-element buffer to zero, all-zero signals of 4 and 1 samples pass the gate and then panic in `apply_shift` |

## Left out

- `read_wav` and the WAV decoding by `hound`: file I/O. The model starts from the decoded sample sequences.
- The FFT library's numerics: the forward and inverse transforms and the square root are opaque functions. The planner calls are not modelled.
- Exact `f32` behaviour: rounding, infinities, and NaN. Samples, alpha and scores are exact reals.
- Filters.Alpha: requires a positive cutoff and sample rate. In `f32`, a zero cutoff makes `rc` infinite and alpha exactly 0, so the output is the constant `signal[0]`; a zero sample rate makes alpha NaN. The model represents neither.
- Filters.LowpassFilter: requires a positive cutoff and sample rate for the same reason. It also requires a non-empty signal, because the source panics at `signal[0]`. That panic is modelled in `AudioCompare.FilterBoth`.
- Filters.LowpassFilter: takes alpha from `Filters.Alpha`, whose body is the `rc`/`dt`/`alpha` computation of the source, rather than repeating those three lines.
- AudioCompare.CompareAudioFiles: requires a positive frequency and cutoff, for the same reason as `Filters.Alpha`. In `f32`, a zero frequency makes the durations infinite or NaN.
- AudioCompare.CorrelationCoefficient: over the reals. It is `Undefined` wherever the source divides by zero, and that case stands for NaN. A lemma shows the numerator is then zero, so it is 0/0 and never a non-zero value over zero.
- AudioCompare.ApplyShift: `audio2.len() + shift as usize` is the wrapping sum, modelled as the mathematical `len2 + shift`; it is out of range exactly when the wrapped value is. A debug build's overflow panic on this addition is not modelled.
- Correlation.FindOptimalShift: the `partial_cmp(...).unwrap()` panic on a NaN correlation value is not modelled, because real values are totally ordered.
- Correlation.MaxShiftSamples: `shift_tolerance_seconds * frequency` is unbounded, so `usize` overflow is not modelled.
- `AudioCompareParams::default`: plain constant data. Its values appear only in `UnequalLengthsCanPanic`.
- The commented-out logging in `compare_audio_files`.
