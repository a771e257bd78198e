/**
 * The transform engine (src/fft.rs and the transform calls inside
 * src/correlation.rs). The numerics of the FFT library are not modelled:
 * a transform is given by a bin function, `bin(buffer, k)` being bin `k`
 * of the transform of `buffer`. Its length contract (an N-point transform
 * of an N-element buffer, computed in place) is what the rest of the model
 * relies on.
 */
module Fft {

  datatype Complex = Complex(re: real, im: real) {

    function Conj(): Complex {
      Complex(re, -im)
    }

    function Times(that: Complex): Complex {
      Complex(re * that.re - im * that.im, re * that.im + im * that.re)
    }

    function NormSquared(): (n: real)
      ensures n >= 0.0
    {
      re * re + im * im
    }
  }

  const ZERO: Complex := Complex(0.0, 0.0)

  /** Bin `k` of a discrete Fourier transform of a buffer. */
  type Bin = (seq<Complex>, nat) -> Complex

  /** The numeric collaborators the core calls but does not define. */
  datatype Numerics = Numerics(forward: Bin, inverse: Bin, sqrt: real -> real)

  /** A genuine square root is zero only at zero. */
  ghost predicate SqrtZeroOnlyAtZero(sqrt: real -> real) {
    forall x :: sqrt(x) == 0.0 ==> x == 0.0
  }

  /** A genuine square root is non-negative. */
  ghost predicate SqrtNonNegative(sqrt: real -> real) {
    forall x :: sqrt(x) >= 0.0
  }

  /** An all-zero buffer of `n` elements. */
  function Zeros(n: nat): (z: seq<Complex>)
    ensures |z| == n
    ensures forall i :: 0 <= i < n ==> z[i] == ZERO
  {
    seq(n, _ => ZERO)
  }

  /** Each sample lifted to a complex number with zero imaginary part. */
  function FromReal(signal: seq<real>): (buffer: seq<Complex>)
    ensures |buffer| == |signal|
    ensures forall i :: 0 <= i < |signal| ==> buffer[i].re == signal[i] && buffer[i].im == 0.0
  {
    seq(|signal|, i requires 0 <= i < |signal| => Complex(signal[i], 0.0))
  }

  /** The real component of each element. */
  function RealParts(buffer: seq<Complex>): (parts: seq<real>)
    ensures |parts| == |buffer|
    ensures forall i :: 0 <= i < |buffer| ==> parts[i] == buffer[i].re
  {
    seq(|buffer|, i requires 0 <= i < |buffer| => buffer[i].re)
  }

  /** The N-point transform of an N-element buffer. */
  function Transform(bin: Bin, buffer: seq<Complex>): (spectrum: seq<Complex>)
    ensures |spectrum| == |buffer|
    ensures forall k :: 0 <= k < |buffer| ==> spectrum[k] == bin(buffer, k)
  {
    seq(|buffer|, k requires 0 <= k < |buffer| => bin(buffer, k))
  }

  /**
   * `fft.process(&mut buffer)`: the transform computed in place. Every
   * bin is taken from the buffer as it was before the call.
   */
  method Process(bin: Bin, buffer: array<Complex>)
    modifies buffer
    ensures buffer[..] == Transform(bin, old(buffer[..]))
  {
    var input := buffer[..];
    var k := 0;
    while k < buffer.Length
      invariant 0 <= k <= buffer.Length
      invariant forall j :: 0 <= j < k ==> buffer[j] == bin(input, j)
    {
      buffer[k] := bin(input, k);
      k := k + 1;
    }
  }

  /**
   * `compute_fft`: the magnitude of each bin of the forward transform of a
   * real signal.
   */
  function ComputeFft(numerics: Numerics, signal: seq<real>): (magnitudes: seq<real>)
    ensures |magnitudes| == |signal|
    ensures forall k :: 0 <= k < |signal| ==>
      magnitudes[k] == numerics.sqrt(numerics.forward(FromReal(signal), k).NormSquared())
  {
    var spectrum := Transform(numerics.forward, FromReal(signal));
    seq(|signal|, k requires 0 <= k < |signal| => numerics.sqrt(spectrum[k].NormSquared()))
  }

  /** With a genuine square root every magnitude is non-negative. */
  lemma SpectrumNonNegative(numerics: Numerics, signal: seq<real>, k: nat)
    requires SqrtNonNegative(numerics.sqrt)
    requires k < |signal|
    ensures ComputeFft(numerics, signal)[k] >= 0.0
  {
    var m := ComputeFft(numerics, signal);
    assert m[k] == numerics.sqrt(numerics.forward(FromReal(signal), k).NormSquared());
  }
}
