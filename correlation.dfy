/**
 * The shift estimator (src/correlation.rs): a circular cross-correlation
 * computed through the transform engine, and the choice of the lag with
 * the greatest correlation inside a window that starts at index 0.
 */
module Correlation {
  import opened Fft

  function MaxLength(a: nat, b: nat): (m: nat)
    ensures m >= a && m >= b && (m == a || m == b)
  {
    if a >= b then a else b
  }

  function MinLength(a: nat, b: nat): (m: nat)
    ensures m <= a && m <= b && (m == a || m == b)
  {
    if a <= b then a else b
  }

  /**
   * `Vec::resize(len, fill)`: truncated to `len` elements, or extended to
   * `len` elements with copies of `fill`.
   */
  function Resize(v: seq<Complex>, len: nat, fill: Complex): (r: seq<Complex>)
    ensures |r| == len
    ensures forall i :: 0 <= i < len ==> r[i] == if i < |v| then v[i] else fill
  {
    if len <= |v| then v[..len] else v + seq(len - |v|, _ => fill)
  }

  /** A signal lifted to complex numbers and zero-padded to `len` samples. */
  function Padded(audio: seq<real>, len: nat): (buffer: seq<Complex>)
    requires |audio| <= len
    ensures |buffer| == len
    ensures forall i :: 0 <= i < |audio| ==> buffer[i] == Complex(audio[i], 0.0)
    ensures forall i :: |audio| <= i < len ==> buffer[i] == ZERO
  {
    Resize(FromReal(audio), len, ZERO)
  }

  /** `conj(a[i]) * b[i]` over the pairs that `zip` forms. */
  function ConjugateProducts(a: seq<Complex>, b: seq<Complex>): (r: seq<Complex>)
    ensures |r| == MinLength(|a|, |b|)
    ensures forall i :: 0 <= i < |r| ==> r[i] == a[i].Conj().Times(b[i])
  {
    seq(MinLength(|a|, |b|), i requires 0 <= i < MinLength(|a|, |b|) => a[i].Conj().Times(b[i]))
  }

  /**
   * The value `cross_correlation_fft` returns: both signals padded to the
   * longer length, transformed, multiplied bin by bin (the first
   * conjugated), transformed back, and the real parts kept.
   */
  function CrossCorrelation(numerics: Numerics, audio1: seq<real>, audio2: seq<real>): (correlation: seq<real>)
    ensures |correlation| == MaxLength(|audio1|, |audio2|)
  {
    var len := MaxLength(|audio1|, |audio2|);
    var spectrum1 := Transform(numerics.forward, Padded(audio1, len));
    var spectrum2 := Transform(numerics.forward, Padded(audio2, len));
    RealParts(Transform(numerics.inverse, ConjugateProducts(spectrum1, spectrum2)))
  }

  /**
   * A fresh buffer holding the samples of `audio` as complex numbers,
   * then resized in place to `len` elements with zeros.
   */
  method PaddedBuffer(audio: seq<real>, len: nat) returns (buffer: array<Complex>)
    requires |audio| <= len
    ensures fresh(buffer)
    ensures buffer[..] == Padded(audio, len)
  {
    buffer := new Complex[len];
    var i := 0;
    while i < len
      invariant 0 <= i <= len
      invariant forall j :: 0 <= j < i ==> buffer[j] == if j < |audio| then Complex(audio[j], 0.0) else ZERO
    {
      buffer[i] := if i < |audio| then Complex(audio[i], 0.0) else ZERO;
      i := i + 1;
    }
  }

  /** A fresh buffer holding a copy of `v` (`clone`). */
  method Cloned(v: seq<Complex>) returns (buffer: array<Complex>)
    ensures fresh(buffer)
    ensures buffer[..] == v
  {
    buffer := new Complex[|v|](i requires 0 <= i < |v| => v[i]);
  }

  /**
   * `cross_correlation_fft`: pads both signals into buffers, transforms
   * them in place, takes the conjugate products, transforms a copy of
   * those back in place and keeps the real parts.
   */
  method CrossCorrelationFft(numerics: Numerics, audio1: seq<real>, audio2: seq<real>) returns (correlation: seq<real>)
    ensures correlation == CrossCorrelation(numerics, audio1, audio2)
  {
    var len := MaxLength(|audio1|, |audio2|);
    var signal1 := PaddedBuffer(audio1, len);
    var signal2 := PaddedBuffer(audio2, len);
    Process(numerics.forward, signal1);
    Process(numerics.forward, signal2);
    var crossCorrFft := ConjugateProducts(signal1[..], signal2[..]);
    var crossCorrTime := Cloned(crossCorrFft);
    Process(numerics.inverse, crossCorrTime);
    correlation := RealParts(crossCorrTime[..]);
  }

  /**
   * Silent signals correlate to silence: if both transforms map the
   * all-zero buffer of the common length to zero, all-zero signals have an
   * all-zero correlation.
   */
  lemma SilenceCorrelatesToZero(numerics: Numerics, audio1: seq<real>, audio2: seq<real>)
    requires forall i :: 0 <= i < |audio1| ==> audio1[i] == 0.0
    requires forall i :: 0 <= i < |audio2| ==> audio2[i] == 0.0
    requires var len := MaxLength(|audio1|, |audio2|);
      forall k :: 0 <= k < len ==> numerics.forward(Zeros(len), k) == ZERO && numerics.inverse(Zeros(len), k) == ZERO
    ensures var correlation := CrossCorrelation(numerics, audio1, audio2);
      forall j :: 0 <= j < |correlation| ==> correlation[j] == 0.0
  {
    var len := MaxLength(|audio1|, |audio2|);
    PaddedSilence(audio1, len);
    PaddedSilence(audio2, len);
    TransformSilence(numerics.forward, len);
    ConjugateSilence(len);
    TransformSilence(numerics.inverse, len);
  }

  /** A transform that maps the all-zero buffer to zero bin by bin maps it to the all-zero buffer. */
  lemma TransformSilence(bin: Bin, len: nat)
    requires forall k :: 0 <= k < len ==> bin(Zeros(len), k) == ZERO
    ensures Transform(bin, Zeros(len)) == Zeros(len)
  {
    var spectrum := Transform(bin, Zeros(len));
    forall k | 0 <= k < len
      ensures spectrum[k] == Zeros(len)[k]
    {
      assert spectrum[k] == bin(Zeros(len), k);
    }
  }

  /** The conjugate products of two all-zero buffers are zero. */
  lemma ConjugateSilence(len: nat)
    ensures ConjugateProducts(Zeros(len), Zeros(len)) == Zeros(len)
  {
    var zeros := Zeros(len);
    var products := ConjugateProducts(zeros, zeros);
    assert |products| == len;
    forall i | 0 <= i < len
      ensures products[i] == zeros[i]
    {
      var z := zeros[i];
      assert z == ZERO;
      assert products[i] == z.Conj().Times(z);
      assert z.Conj().Times(z) == Complex(0.0 * 0.0 - (-0.0) * 0.0, 0.0 * 0.0 + (-0.0) * 0.0);
    }
  }

  /** Padding an all-zero signal gives the all-zero buffer. */
  lemma PaddedSilence(audio: seq<real>, len: nat)
    requires |audio| <= len
    requires forall i :: 0 <= i < |audio| ==> audio[i] == 0.0
    ensures Padded(audio, len) == Zeros(len)
  {
    assert forall i :: 0 <= i < |audio| ==> Complex(audio[i], 0.0) == ZERO;
  }

  /** `k` is the last index of `c` holding its greatest value. */
  ghost predicate IsLastMaximum(c: seq<real>, k: nat) {
    && k < |c|
    && (forall j :: 0 <= j < |c| ==> c[j] <= c[k])
    && (forall j :: k < j < |c| ==> c[j] < c[k])
  }

  /**
   * `max_by` over `enumerate()`: a left fold that replaces the best so far
   * whenever the next value is not smaller, so that of equal maxima the
   * last one is kept.
   */
  function LastMaxIndex(c: seq<real>): (k: nat)
    requires |c| > 0
    ensures IsLastMaximum(c, k)
  {
    if |c| == 1 then 0
    else
      var best := LastMaxIndex(c[..|c| - 1]);
      if c[best] <= c[|c| - 1] then |c| - 1 else best
  }

  /** At most one index is the last maximum, so the fold is pinned down by its contract. */
  lemma LastMaximumUnique(c: seq<real>, k: nat, k': nat)
    requires IsLastMaximum(c, k) && IsLastMaximum(c, k')
    ensures k == k'
  {
    assert c[k] <= c[k'] && c[k'] <= c[k];
  }

  /** The index of the last maximum of a non-empty sequence is `LastMaxIndex`. */
  lemma LastMaxIndexCharacterized(c: seq<real>, k: nat)
    requires |c| > 0
    ensures IsLastMaximum(c, k) <==> k == LastMaxIndex(c)
  {
    if IsLastMaximum(c, k) {
      LastMaximumUnique(c, k, LastMaxIndex(c));
    }
  }

  /**
   * The index chosen in `find_optimal_shift`: the last maximum among the
   * first `window` correlation values (`take`), or 0 when none are taken
   * (`unwrap_or(0)`).
   */
  function BestIndex(correlation: seq<real>, window: nat): (best: nat)
    ensures MinLength(window, |correlation|) == 0 ==> best == 0
    ensures MinLength(window, |correlation|) > 0 ==>
      IsLastMaximum(correlation[..MinLength(window, |correlation|)], best)
  {
    var taken := correlation[..MinLength(window, |correlation|)];
    if |taken| == 0 then 0 else LastMaxIndex(taken)
  }

  /** The window of `find_optimal_shift`, in samples. */
  function MaxShiftSamples(shiftToleranceSeconds: nat, frequency: nat): nat {
    shiftToleranceSeconds * frequency
  }

  /**
   * `find_optimal_shift`: the chosen correlation index, converted to a
   * signed lag by subtracting half the correlation length.
   */
  function FindOptimalShift(numerics: Numerics, audio1: seq<real>, audio2: seq<real>,
                            shiftToleranceSeconds: nat, frequency: nat): (shift: int)
    ensures var len := MaxLength(|audio1|, |audio2|);
      var window := MinLength(MaxShiftSamples(shiftToleranceSeconds, frequency), len);
      && -(len / 2) <= shift
      && (window == 0 ==> shift == -(len / 2))
      && (window > 0 ==> shift <= window - 1 - len / 2)
  {
    var correlation := CrossCorrelation(numerics, audio1, audio2);
    BestIndex(correlation, MaxShiftSamples(shiftToleranceSeconds, frequency)) - |correlation| / 2
  }

  /**
   * Shifted back by half the correlation length, the lag is the last index
   * of greatest correlation in the window: its value is at least every
   * value in the window, and every later value in the window is smaller.
   */
  lemma ShiftIsLastMaximumInWindow(numerics: Numerics, audio1: seq<real>, audio2: seq<real>,
                                   shiftToleranceSeconds: nat, frequency: nat)
    requires shiftToleranceSeconds * frequency > 0
    requires |audio1| > 0 || |audio2| > 0
    ensures var correlation := CrossCorrelation(numerics, audio1, audio2);
      var window := MinLength(shiftToleranceSeconds * frequency, |correlation|);
      var best := FindOptimalShift(numerics, audio1, audio2, shiftToleranceSeconds, frequency) + |correlation| / 2;
      && 0 <= best < window
      && (forall j :: 0 <= j < window ==> correlation[j] <= correlation[best])
      && (forall j :: best < j < window ==> correlation[j] < correlation[best])
  {
    var correlation := CrossCorrelation(numerics, audio1, audio2);
    var window := MinLength(shiftToleranceSeconds * frequency, |correlation|);
    var taken := correlation[..window];
    var best := BestIndex(correlation, shiftToleranceSeconds * frequency);
    assert IsLastMaximum(taken, best);
    assert forall j :: 0 <= j < window ==> taken[j] == correlation[j];
  }
}
