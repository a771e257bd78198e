/**
 * The comparison pipeline (src/lib.rs): the duration gate, smoothing of
 * both signals, shift estimation, alignment by trimming, the spectral
 * correlation coefficient and the threshold decision. A Rust panic is an
 * explicit `Panicked` outcome.
 */
module AudioCompare {
  import opened Fft
  import opened Filters
  import opened Correlation
  // Products and squares go through RealArith so that the solver reasons about them by their signs.
  import opened RealArith

  /** `AudioCompareParams`. */
  datatype Params = Params(
    maxLengthDifference: real,
    minCorrelation: real,
    lowpassCutoff: nat,
    shiftToleranceSeconds: nat,
    frequency: nat)

  /** Why the source would panic. */
  datatype Panic =
    | EmptySignal      // `signal[0]` in `lowpass_filter` on an empty signal
    | SliceOutOfRange  // a slice bound past the end in `apply_shift`

  datatype Outcome<+T> = Done(value: T) | Panicked(reason: Panic)

  // ----- Alignment trimmer (`apply_shift`) -----

  /** The slice bounds of `apply_shift` are within both signals. */
  predicate ShiftInRange(len1: nat, len2: nat, shift: int): (inRange: bool)
    ensures inRange ==> -(len2 as int) <= shift <= len1
  {
    if shift > 0 then shift <= len1 && len1 - shift <= len2
    else -shift <= len2 && len2 + shift <= len1
  }

  /** The length both trimmed signals share: within range, none of them is negative or longer than either signal. */
  function OverlapLength(len1: nat, len2: nat, shift: int): (n: int)
    ensures ShiftInRange(len1, len2, shift) ==> 0 <= n <= len1 && n <= len2
  {
    if shift > 0 then len1 - shift else len2 + shift
  }

  /** The offset of the first kept sample of the first signal. */
  function Offset1(shift: int): nat {
    if shift > 0 then shift else 0
  }

  /** The offset of the first kept sample of the second signal. */
  function Offset2(shift: int): nat {
    if shift < 0 then -shift else 0
  }

  /**
   * `apply_shift`. A positive shift drops the first `shift` samples of the
   * first signal and cuts the second to what remains of the first; otherwise
   * the first `-shift` samples of the second signal are dropped and the
   * first signal is cut to `len2 + shift` samples. The end bound
   * `len2 + shift` is computed in the source as a wrapping `usize`
   * addition; here it is the mathematical sum, which is out of range
   * exactly when the wrapped value is.
   */
  function ApplyShift(audio1: seq<real>, audio2: seq<real>, shift: int): (r: Outcome<(seq<real>, seq<real>)>)
    ensures r.Done? <==> ShiftInRange(|audio1|, |audio2|, shift)
    ensures r.Panicked? ==> r.reason == SliceOutOfRange
  {
    if shift > 0 then
      if shift <= |audio1| && |audio1| - shift <= |audio2| then
        Done((audio1[shift..], audio2[..|audio1| - shift]))
      else
        Panicked(SliceOutOfRange)
    else
      if -shift <= |audio2| && |audio2| + shift <= |audio1| then
        Done((audio1[..|audio2| + shift], audio2[-shift..]))
      else
        Panicked(SliceOutOfRange)
  }

  /**
   * When `apply_shift` does not panic, its two outputs have the same
   * length, and element `i` of each is the sample of its input at a fixed
   * offset: `shift` into the first signal for a positive shift, `-shift`
   * into the second otherwise.
   */
  lemma ApplyShiftAligned(audio1: seq<real>, audio2: seq<real>, shift: int)
    requires ShiftInRange(|audio1|, |audio2|, shift)
    ensures var (out1, out2) := ApplyShift(audio1, audio2, shift).value;
      && |out1| == |out2| == OverlapLength(|audio1|, |audio2|, shift)
      && (forall i :: 0 <= i < |out1| ==> out1[i] == audio1[i + Offset1(shift)])
      && (forall i :: 0 <= i < |out2| ==> out2[i] == audio2[i + Offset2(shift)])
    ensures var n := OverlapLength(|audio1|, |audio2|, shift);
      ApplyShift(audio1, audio2, shift)
        == Done((audio1[Offset1(shift)..Offset1(shift) + n], audio2[Offset2(shift)..Offset2(shift) + n]))
  {
    var n := OverlapLength(|audio1|, |audio2|, shift);
    if shift > 0 {
      assert audio1[shift..] == audio1[shift..shift + n];
      assert audio2[..n] == audio2[0..n];
    } else {
      assert audio1[..n] == audio1[0..n];
      assert audio2[-shift..] == audio2[-shift..-shift + n];
    }
  }

  /**
   * With no shift the second signal is kept whole and the first is cut to
   * its length; if the second is the longer one, the slice panics.
   */
  lemma ApplyShiftZero(audio1: seq<real>, audio2: seq<real>)
    ensures |audio2| <= |audio1| ==> ApplyShift(audio1, audio2, 0) == Done((audio1[..|audio2|], audio2))
    ensures |audio2| > |audio1| ==> ApplyShift(audio1, audio2, 0) == Panicked(SliceOutOfRange)
  {
    assert audio2[0..] == audio2;
  }

  // ----- Similarity scorer (`correlation_coefficient`) -----

  /** `iter().sum()`: a left fold with `+` from 0. */
  function Sum(s: seq<real>): (total: real)
    ensures (forall i :: 0 <= i < |s| ==> s[i] >= 0.0) ==> total >= 0.0
  {
    if |s| == 0 then 0.0 else Sum(s[..|s| - 1]) + s[|s| - 1]
  }

  function Mean(s: seq<real>): (mean: real)
    requires |s| > 0
    ensures (forall i :: 0 <= i < |s| ==> s[i] >= 0.0) ==> mean >= 0.0
  {
    Sum(s) / |s| as real
  }

  /** Every element minus `m`. */
  function Centered(s: seq<real>, m: real): (r: seq<real>)
    ensures |r| == |s|
    ensures forall i :: 0 <= i < |s| ==> r[i] == s[i] - m
  {
    seq(|s|, i requires 0 <= i < |s| => s[i] - m)
  }

  /** `map(|a| a.powi(2))`. */
  function Squares(s: seq<real>): (r: seq<real>)
    ensures |r| == |s|
    ensures forall i :: 0 <= i < |s| ==> r[i] == Square(s[i])
  {
    seq(|s|, i requires 0 <= i < |s| => Square(s[i]))
  }

  /** `a.iter().zip(b.iter()).map(|(x, y)| x * y)`: only the shorter length is paired. */
  function PairProducts(a: seq<real>, b: seq<real>): (r: seq<real>)
    ensures |r| == MinLength(|a|, |b|)
    ensures forall i :: 0 <= i < |r| ==> r[i] == Product(a[i], b[i])
  {
    seq(MinLength(|a|, |b|), i requires 0 <= i < MinLength(|a|, |b|) => Product(a[i], b[i]))
  }

  /** The numerator: paired by `zip`, each centred on the mean of its whole spectrum. */
  function Covariance(fft1: seq<real>, fft2: seq<real>): real
    requires |fft1| > 0 && |fft2| > 0
  {
    Sum(PairProducts(Centered(fft1, Mean(fft1)), Centered(fft2, Mean(fft2))))
  }

  /** One factor of the denominator, over the whole spectrum; non-negative for a genuine square root. */
  function Spread(sqrt: real -> real, fft: seq<real>): (spread: real)
    requires |fft| > 0
    ensures SqrtNonNegative(sqrt) ==> spread >= 0.0
  {
    sqrt(Sum(Squares(Centered(fft, Mean(fft)))))
  }

  /**
   * The score: a finite value, or `Undefined` where the source divides by
   * zero (an empty spectrum makes both the numerator's sum and one factor
   * of the denominator zero; so does a spectrum equal to its mean).
   */
  datatype Score = Finite(value: real) | Undefined

  /** `correlation_coefficient`, the Pearson coefficient of two spectra. */
  function CorrelationCoefficient(sqrt: real -> real, fft1: seq<real>, fft2: seq<real>): (score: Score)
    ensures |fft1| == 0 || |fft2| == 0 ==> score == Undefined
    ensures |fft1| > 0 && |fft2| > 0 ==>
      (score == Undefined <==> Spread(sqrt, fft1) * Spread(sqrt, fft2) == 0.0)
  {
    if |fft1| == 0 || |fft2| == 0 then Undefined
    else
      var den := Spread(sqrt, fft1) * Spread(sqrt, fft2);
      if den == 0.0 then Undefined else Finite(Covariance(fft1, fft2) / den)
  }

  /** The coefficient does not depend on the order of its arguments. */
  lemma CorrelationCoefficientSymmetric(sqrt: real -> real, fft1: seq<real>, fft2: seq<real>)
    ensures CorrelationCoefficient(sqrt, fft1, fft2) == CorrelationCoefficient(sqrt, fft2, fft1)
  {
    if |fft1| > 0 && |fft2| > 0 {
      var c1, c2 := Centered(fft1, Mean(fft1)), Centered(fft2, Mean(fft2));
      assert forall i :: 0 <= i < MinLength(|c1|, |c2|) ==> Product(c1[i], c2[i]) == Product(c2[i], c1[i]);
      assert PairProducts(c1, c2) == PairProducts(c2, c1);
    }
  }

  /**
   * Only the first `min(len1, len2)` elements of each spectrum enter the
   * numerator, while each is centred on the mean of its whole spectrum.
   */
  lemma CovarianceUsesOverlap(fft1: seq<real>, fft2: seq<real>)
    requires |fft1| > 0 && |fft2| > 0
    ensures var n := MinLength(|fft1|, |fft2|);
      Covariance(fft1, fft2)
        == Sum(PairProducts(Centered(fft1[..n], Mean(fft1)), Centered(fft2[..n], Mean(fft2))))
  {
    var n := MinLength(|fft1|, |fft2|);
    assert PairProducts(Centered(fft1, Mean(fft1)), Centered(fft2, Mean(fft2)))
        == PairProducts(Centered(fft1[..n], Mean(fft1)), Centered(fft2[..n], Mean(fft2)));
  }

  lemma {:induction false} SumSquaresNonNegative(s: seq<real>)
    ensures Sum(Squares(s)) >= 0.0
    decreases |s|
  {
    if |s| > 0 {
      var front := s[..|s| - 1];
      SumSquaresNonNegative(front);
      assert Squares(s)[..|s| - 1] == Squares(front);
      SquareSign(s[|s| - 1]);
    }
  }

  /** A sum of squares is zero only when every term is. */
  lemma {:induction false} SumSquaresZero(s: seq<real>)
    requires Sum(Squares(s)) == 0.0
    ensures forall i :: 0 <= i < |s| ==> s[i] == 0.0
    decreases |s|
  {
    if |s| > 0 {
      var front := s[..|s| - 1];
      var last := s[|s| - 1];
      assert Squares(s)[..|s| - 1] == Squares(front);
      SumSquaresNonNegative(front);
      SquareSign(last);
      assert Square(last) == 0.0;
      SumSquaresZero(front);
      assert forall i :: 0 <= i < |s| - 1 ==> s[i] == front[i];
    }
  }

  lemma {:induction false} SumOfZeros(s: seq<real>)
    requires forall i :: 0 <= i < |s| ==> s[i] == 0.0
    ensures Sum(s) == 0.0
    decreases |s|
  {
    if |s| > 0 {
      SumOfZeros(s[..|s| - 1]);
    }
  }

  /**
   * For a genuine square root the denominator vanishes only together with
   * the numerator, so an `Undefined` score is always 0/0 (NaN in `f32`),
   * never a non-zero value over zero.
   */
  lemma UndefinedScoreIsZeroOverZero(sqrt: real -> real, fft1: seq<real>, fft2: seq<real>)
    requires SqrtZeroOnlyAtZero(sqrt)
    requires |fft1| > 0 && |fft2| > 0
    requires CorrelationCoefficient(sqrt, fft1, fft2) == Undefined
    ensures Covariance(fft1, fft2) == 0.0
  {
    var c1, c2 := Centered(fft1, Mean(fft1)), Centered(fft2, Mean(fft2));
    var p := PairProducts(c1, c2);
    if Spread(sqrt, fft1) == 0.0 {
      assert sqrt(Sum(Squares(c1))) == 0.0;
      SumSquaresZero(c1);
      forall i | 0 <= i < |p| ensures p[i] == 0.0 { ProductSigns(c1[i], c2[i]); }
    } else {
      assert Spread(sqrt, fft2) == 0.0;
      assert sqrt(Sum(Squares(c2))) == 0.0;
      SumSquaresZero(c2);
      forall i | 0 <= i < |p| ensures p[i] == 0.0 { ProductSigns(c1[i], c2[i]); }
    }
    SumOfZeros(p);
  }

  // ----- Pipeline orchestrator (`compare_audio_files`) -----

  /** Parameters under which every division of the pipeline is by a non-zero value. */
  predicate ValidParams(params: Params) {
    params.frequency > 0 && params.lowpassCutoff > 0
  }

  /** `len() as f32 / frequency as f32`: the length of a clip in seconds. */
  function Duration(samples: nat, frequency: nat): (seconds: real)
    requires frequency > 0
    ensures seconds >= 0.0
    ensures seconds == 0.0 <==> samples == 0
  {
    samples as real / frequency as real
  }

  function Abs(x: real): (r: real)
    ensures r >= 0.0 && (r == x || r == -x)
  {
    if x >= 0.0 then x else -x
  }

  /** The duration gate: the durations differ by more than allowed. */
  predicate TooDifferent(params: Params, len1: nat, len2: nat): (tooDifferent: bool)
    requires params.frequency > 0
    ensures len1 == len2 && params.maxLengthDifference >= 0.0 ==> !tooDifferent
  {
    Abs(Duration(len1, params.frequency) - Duration(len2, params.frequency)) > params.maxLengthDifference
  }

  /** The gate does not depend on which clip is first. */
  lemma TooDifferentSymmetric(params: Params, len1: nat, len2: nat)
    requires params.frequency > 0
    ensures TooDifferent(params, len1, len2) == TooDifferent(params, len2, len1)
  {
    var d := Duration(len1, params.frequency) - Duration(len2, params.frequency);
    assert Abs(d) == Abs(-d);
  }

  /** Stage 2: both signals through `lowpass_filter`, which panics on an empty one. */
  function FilterBoth(params: Params, audio1: seq<real>, audio2: seq<real>): (r: Outcome<(seq<real>, seq<real>)>)
    requires ValidParams(params)
    ensures r.Done? <==> |audio1| > 0 && |audio2| > 0
    ensures r.Panicked? ==> r.reason == EmptySignal
    ensures r.Done? ==> |r.value.0| == |audio1| && |r.value.1| == |audio2|
  {
    if |audio1| == 0 || |audio2| == 0 then Panicked(EmptySignal)
    else Done((Lowpass(audio1, params.lowpassCutoff, params.frequency),
               Lowpass(audio2, params.lowpassCutoff, params.frequency)))
  }

  /** Stages 3 and 4: estimate the shift of the filtered pair, then trim that same pair. */
  function Align(numerics: Numerics, params: Params, filtered1: seq<real>, filtered2: seq<real>): (r: Outcome<(seq<real>, seq<real>)>)
    ensures r.Done? ==> |r.value.0| == |r.value.1|
    ensures r.Panicked? ==> r.reason == SliceOutOfRange
  {
    var shift := FindOptimalShift(numerics, filtered1, filtered2, params.shiftToleranceSeconds, params.frequency);
    ApplyShift(filtered1, filtered2, shift)
  }

  /** Stage 5: the coefficient of the two magnitude spectra. */
  function ScoreAligned(numerics: Numerics, aligned1: seq<real>, aligned2: seq<real>): (score: Score)
    ensures |aligned1| == 0 || |aligned2| == 0 ==> score == Undefined
  {
    CorrelationCoefficient(numerics.sqrt, ComputeFft(numerics, aligned1), ComputeFft(numerics, aligned2))
  }

  /**
   * Stage 6: `correlation >= min_correlation`. A comparison with NaN is
   * false in `f32`, so an undefined score is rejected.
   */
  function Decide(score: Score, minCorrelation: real): (accept: bool)
    ensures score.Undefined? ==> !accept
  {
    match score
    case Finite(v) => v >= minCorrelation
    case Undefined => false
  }

  /** Stages 5 and 6 on the aligned pair. */
  function ScoreAndDecide(numerics: Numerics, params: Params, aligned1: seq<real>, aligned2: seq<real>): bool {
    Decide(ScoreAligned(numerics, aligned1, aligned2), params.minCorrelation)
  }

  /** `compare_audio_files` on decoded samples. */
  function CompareAudioFiles(numerics: Numerics, params: Params, audio1: seq<real>, audio2: seq<real>): (verdict: Outcome<bool>)
    requires ValidParams(params)
    ensures TooDifferent(params, |audio1|, |audio2|) ==> verdict == Done(false)
    ensures !TooDifferent(params, |audio1|, |audio2|) && (|audio1| == 0 || |audio2| == 0) ==>
      verdict == Panicked(EmptySignal)
    ensures verdict.Panicked? ==> !TooDifferent(params, |audio1|, |audio2|)
  {
    if TooDifferent(params, |audio1|, |audio2|) then Done(false)
    else
      var filtered := FilterBoth(params, audio1, audio2);
      if filtered.Panicked? then Panicked(filtered.reason)
      else
        var aligned := Align(numerics, params, filtered.value.0, filtered.value.1);
        if aligned.Panicked? then Panicked(aligned.reason)
        else Done(ScoreAndDecide(numerics, params, aligned.value.0, aligned.value.1))
  }

  /**
   * When the gate fails, nothing after it matters: the verdict is `false`
   * whatever the sample values and whatever the numeric collaborators.
   */
  lemma GateShortCircuits(numerics: Numerics, numerics': Numerics, params: Params,
                          audio1: seq<real>, audio2: seq<real>, other1: seq<real>, other2: seq<real>)
    requires ValidParams(params)
    requires |other1| == |audio1| && |other2| == |audio2|
    requires TooDifferent(params, |audio1|, |audio2|)
    ensures CompareAudioFiles(numerics, params, audio1, audio2) == Done(false)
    ensures CompareAudioFiles(numerics', params, other1, other2) == Done(false)
  {
  }

  /**
   * The raw samples enter only through their filtered versions: two pairs
   * of signals with the same filtered signals get the same verdict.
   */
  lemma VerdictDependsOnFilteredSignals(numerics: Numerics, params: Params,
                                        audio1: seq<real>, audio2: seq<real>, other1: seq<real>, other2: seq<real>)
    requires ValidParams(params)
    requires |audio1| > 0 && |audio2| > 0 && |other1| > 0 && |other2| > 0
    requires Lowpass(audio1, params.lowpassCutoff, params.frequency) == Lowpass(other1, params.lowpassCutoff, params.frequency)
    requires Lowpass(audio2, params.lowpassCutoff, params.frequency) == Lowpass(other2, params.lowpassCutoff, params.frequency)
    ensures CompareAudioFiles(numerics, params, audio1, audio2) == CompareAudioFiles(numerics, params, other1, other2)
  {
    assert |audio1| == |other1| && |audio2| == |other2|;
  }

  /**
   * Past the gate both signals are filtered and the FILTERED pair is
   * aligned; when that alignment succeeds, its pair is scored and the
   * score is the verdict.
   */
  lemma AlignedPairIsScored(numerics: Numerics, params: Params, audio1: seq<real>, audio2: seq<real>,
                            aligned1: seq<real>, aligned2: seq<real>)
    requires ValidParams(params)
    requires |audio1| > 0 && |audio2| > 0
    requires !TooDifferent(params, |audio1|, |audio2|)
    requires Align(numerics, params, Lowpass(audio1, params.lowpassCutoff, params.frequency),
                                     Lowpass(audio2, params.lowpassCutoff, params.frequency)) == Done((aligned1, aligned2))
    ensures CompareAudioFiles(numerics, params, audio1, audio2) == Done(ScoreAndDecide(numerics, params, aligned1, aligned2))
  {
    assert FilterBoth(params, audio1, audio2)
      == Done((Lowpass(audio1, params.lowpassCutoff, params.frequency), Lowpass(audio2, params.lowpassCutoff, params.frequency)));
  }

  /** Past the gate, a panic while aligning the filtered pair is the verdict. */
  lemma AlignmentPanicIsVerdict(numerics: Numerics, params: Params, audio1: seq<real>, audio2: seq<real>)
    requires ValidParams(params)
    requires |audio1| > 0 && |audio2| > 0
    requires !TooDifferent(params, |audio1|, |audio2|)
    requires Align(numerics, params, Lowpass(audio1, params.lowpassCutoff, params.frequency),
                                     Lowpass(audio2, params.lowpassCutoff, params.frequency)).Panicked?
    ensures CompareAudioFiles(numerics, params, audio1, audio2) == Panicked(SliceOutOfRange)
  {
    assert FilterBoth(params, audio1, audio2)
      == Done((Lowpass(audio1, params.lowpassCutoff, params.frequency), Lowpass(audio2, params.lowpassCutoff, params.frequency)));
  }

  /**
   * Past the gate the stages run in their fixed order on each other's
   * results: both signals are filtered, the shift is estimated from the
   * FILTERED pair, the filtered pair (not the raw one) is trimmed to the
   * overlap that shift leaves, its spectra are scored and the score decides.
   */
  lemma StagesInOrder(numerics: Numerics, params: Params, audio1: seq<real>, audio2: seq<real>,
                      filtered1: seq<real>, filtered2: seq<real>, shift: int, trimmed1: seq<real>, trimmed2: seq<real>)
    requires ValidParams(params)
    requires |audio1| > 0 && |audio2| > 0
    requires !TooDifferent(params, |audio1|, |audio2|)
    requires filtered1 == Lowpass(audio1, params.lowpassCutoff, params.frequency)
    requires filtered2 == Lowpass(audio2, params.lowpassCutoff, params.frequency)
    requires shift == FindOptimalShift(numerics, filtered1, filtered2, params.shiftToleranceSeconds, params.frequency)
    requires ShiftInRange(|audio1|, |audio2|, shift)
    requires var n := OverlapLength(|audio1|, |audio2|, shift);
      trimmed1 == filtered1[Offset1(shift)..Offset1(shift) + n] && trimmed2 == filtered2[Offset2(shift)..Offset2(shift) + n]
    ensures CompareAudioFiles(numerics, params, audio1, audio2) == Done(ScoreAndDecide(numerics, params, trimmed1, trimmed2))
  {
    assert Align(numerics, params, filtered1, filtered2) == Done((trimmed1, trimmed2)) by {
      ApplyShiftAligned(filtered1, filtered2, shift);
    }
    AlignedPairIsScored(numerics, params, audio1, audio2, trimmed1, trimmed2);
  }

  /**
   * Past the gate, a shift estimated from the filtered pair that puts a
   * slice bound of `apply_shift` past the end of a signal makes the whole
   * comparison panic.
   */
  lemma StagesPanicOutsideOverlap(numerics: Numerics, params: Params, audio1: seq<real>, audio2: seq<real>,
                                  filtered1: seq<real>, filtered2: seq<real>, shift: int)
    requires ValidParams(params)
    requires |audio1| > 0 && |audio2| > 0
    requires !TooDifferent(params, |audio1|, |audio2|)
    requires filtered1 == Lowpass(audio1, params.lowpassCutoff, params.frequency)
    requires filtered2 == Lowpass(audio2, params.lowpassCutoff, params.frequency)
    requires shift == FindOptimalShift(numerics, filtered1, filtered2, params.shiftToleranceSeconds, params.frequency)
    requires !ShiftInRange(|audio1|, |audio2|, shift)
    ensures CompareAudioFiles(numerics, params, audio1, audio2) == Panicked(SliceOutOfRange)
  {
    assert Align(numerics, params, filtered1, filtered2).Panicked?;
    AlignmentPanicIsVerdict(numerics, params, audio1, audio2);
  }

  /** The decision is inclusive: a score exactly at the threshold is accepted. */
  lemma ThresholdInclusive(score: real, minCorrelation: real)
    ensures Decide(Finite(score), minCorrelation) <==> score >= minCorrelation
    ensures Decide(Finite(minCorrelation), minCorrelation)
    ensures !Decide(Undefined, minCorrelation)
  {
  }

  /**
   * Signals of equal length never make `apply_shift` panic: the estimated
   * shift always lies within half the length and the window.
   */
  lemma EqualLengthsAlignWithoutPanic(numerics: Numerics, params: Params, audio1: seq<real>, audio2: seq<real>)
    requires ValidParams(params)
    requires |audio1| == |audio2| > 0
    ensures CompareAudioFiles(numerics, params, audio1, audio2).Done?
  {
    var filtered1 := Lowpass(audio1, params.lowpassCutoff, params.frequency);
    var filtered2 := Lowpass(audio2, params.lowpassCutoff, params.frequency);
    var n := |audio1|;
    var shift := FindOptimalShift(numerics, filtered1, filtered2, params.shiftToleranceSeconds, params.frequency);
    assert MaxLength(n, n) == n;
    assert -(n / 2) <= shift <= n - 1 - n / 2;
    assert ShiftInRange(n, n, shift);
  }

  /**
   * Signals of unequal length can make `apply_shift` panic even with the
   * gate passed. With the default parameters and all-zero signals of 4 and
   * 1 samples, any transforms that map the all-zero 4-element buffer to
   * zero give four equal correlation values; the last index 3 is chosen,
   * the shift is 3 - 2 = 1, and the second signal would have to be cut to
   * 3 of its 1 samples.
   */
  lemma UnequalLengthsCanPanic(numerics: Numerics)
    requires forall k :: 0 <= k < 4 ==> numerics.forward(Zeros(4), k) == ZERO && numerics.inverse(Zeros(4), k) == ZERO
    ensures var params := Params(2.0, 0.7, 3000, 2, 16000);
      CompareAudioFiles(numerics, params, [0.0, 0.0, 0.0, 0.0], [0.0]) == Panicked(SliceOutOfRange)
  {
    var params := Params(2.0, 0.7, 3000, 2, 16000);
    var audio1: seq<real> := [0.0, 0.0, 0.0, 0.0];
    var audio2: seq<real> := [0.0];
    var alpha := Alpha(params.lowpassCutoff, params.frequency);
    SmoothedConstant(audio1, alpha);
    SmoothedConstant(audio2, alpha);
    assert !TooDifferent(params, 4, 1);
    assert MaxLength(4, 1) == 4;
    SilenceCorrelatesToZero(numerics, audio1, audio2);
    var correlation := CrossCorrelation(numerics, audio1, audio2);
    assert |correlation| == 4;
    var best := BestIndex(correlation, MaxShiftSamples(2, 16000));
    assert MinLength(32000, 4) == 4;
    assert correlation[..4] == correlation;
    LastMaxIndexCharacterized(correlation, 3);
    assert best == 3;
    StagesPanicOutsideOverlap(numerics, params, audio1, audio2, audio1, audio2, 1);
  }
}
