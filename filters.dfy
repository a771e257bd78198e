/**
 * The smoothing filter (src/filters.rs): a single-pole low-pass recurrence
 * y[0] = x[0], y[i] = y[i-1] + alpha * (x[i] - y[i-1]), with alpha derived
 * from the cutoff frequency and the sample rate. Samples are reals.
 */
module Filters {
  // Products go through RealArith so that the solver reasons about them by their signs.
  import opened RealArith

  /** `std::f32::consts::PI`, as the decimal the library writes for it. */
  const PI: real := 3.14159265358979323846264338327950288

  /**
   * The smoothing factor: rc = 1 / (2 pi cutoff), dt = 1 / sampleRate,
   * alpha = dt / (rc + dt). It lies strictly between 0 and 1.
   */
  function Alpha(cutoff: nat, sampleRate: nat): (alpha: real)
    requires cutoff > 0 && sampleRate > 0
    ensures 0.0 < alpha < 1.0
  {
    var rc := 1.0 / (2.0 * PI * cutoff as real);
    var dt := 1.0 / sampleRate as real;
    assert rc > 0.0 && dt > 0.0;
    assert dt < rc + dt;
    dt / (rc + dt)
  }

  /** One step of the recurrence: move from the previous output towards the input by alpha. */
  function Step(previous: real, input: real, alpha: real): real {
    previous + alpha * (input - previous)
  }

  /**
   * The output of the recurrence on `x`, defined from the last sample
   * back: the output on `x` extends the output on `x` without its last
   * sample by one step.
   */
  function Smoothed(x: seq<real>, alpha: real): (y: seq<real>)
    requires |x| > 0
    ensures |y| == |x|
    decreases |x|
  {
    if |x| == 1 then [x[0]]
    else
      var previous := Smoothed(x[..|x| - 1], alpha);
      previous + [Step(previous[|x| - 2], x[|x| - 1], alpha)]
  }

  /** With 0 <= alpha <= 1 a step lands between the previous output and the input. */
  lemma StepBetween(previous: real, input: real, alpha: real)
    requires 0.0 <= alpha <= 1.0
    ensures previous <= input ==> previous <= Step(previous, input, alpha) <= input
    ensures input <= previous ==> input <= Step(previous, input, alpha) <= previous
  {
    if previous <= input {
      assert Step(previous, input, alpha) == previous + Product(alpha, input - previous);
      assert input - Step(previous, input, alpha) == Product(1.0 - alpha, input - previous);
      ProductSigns(alpha, input - previous);
      ProductSigns(1.0 - alpha, input - previous);
    } else {
      assert Step(previous, input, alpha) == previous - Product(alpha, previous - input);
      assert Step(previous, input, alpha) - input == Product(1.0 - alpha, previous - input);
      ProductSigns(alpha, previous - input);
      ProductSigns(1.0 - alpha, previous - input);
    }
  }

  /** `lowpass_filter` as a value: the recurrence with the filter's alpha. */
  function Lowpass(signal: seq<real>, cutoff: nat, sampleRate: nat): (filtered: seq<real>)
    requires |signal| > 0 && cutoff > 0 && sampleRate > 0
    ensures |filtered| == |signal|
  {
    Smoothed(signal, Alpha(cutoff, sampleRate))
  }

  /** The filter is causal: the first k outputs are the output on the first k inputs. */
  lemma {:induction false} SmoothedPrefix(x: seq<real>, alpha: real, k: nat)
    requires 0 < k <= |x|
    ensures Smoothed(x, alpha)[..k] == Smoothed(x[..k], alpha)
    decreases |x|
  {
    if k == |x| {
      assert x[..k] == x;
    } else {
      var front := x[..|x| - 1];
      SmoothedPrefix(front, alpha, k);
      assert front[..k] == x[..k];
    }
  }

  /** Inputs that agree on their first k samples give outputs that agree there too. */
  lemma SmoothedCausal(x: seq<real>, x': seq<real>, alpha: real, k: nat)
    requires 0 < k <= |x| && k <= |x'|
    requires x[..k] == x'[..k]
    ensures Smoothed(x, alpha)[..k] == Smoothed(x', alpha)[..k]
  {
    SmoothedPrefix(x, alpha, k);
    SmoothedPrefix(x', alpha, k);
  }

  /** The first sample passes through unchanged. */
  lemma {:induction false} SmoothedFirst(x: seq<real>, alpha: real)
    requires |x| > 0
    ensures Smoothed(x, alpha)[0] == x[0]
    decreases |x|
  {
    if |x| > 1 {
      SmoothedFirst(x[..|x| - 1], alpha);
    }
  }

  /** Every later output is one step of the recurrence from the output before it. */
  lemma SmoothedStep(x: seq<real>, alpha: real, i: nat)
    requires 0 < i < |x|
    ensures var y := Smoothed(x, alpha);
      y[i] == y[i - 1] + alpha * (x[i] - y[i - 1])
  {
    SmoothedPrefix(x, alpha, i + 1);
    var front := x[..i + 1];
    assert front[..i] == x[..i];
  }

  /** A constant signal passes through the filter unchanged. */
  lemma {:induction false} SmoothedConstant(x: seq<real>, alpha: real)
    requires |x| > 0
    requires forall i :: 0 <= i < |x| ==> x[i] == x[0]
    ensures Smoothed(x, alpha) == x
    decreases |x|
  {
    if |x| > 1 {
      var front := x[..|x| - 1];
      SmoothedConstant(front, alpha);
      assert Step(x[0], x[0], alpha) == x[0];
      assert x == front + [x[|x| - 1]];
    }
  }

  /**
   * With 0 <= alpha <= 1 each output is a convex combination of the
   * previous output and the current input, so it stays within any bounds
   * that hold of the inputs up to and including its own index.
   */
  lemma {:induction false} SmoothedBounded(x: seq<real>, alpha: real, i: nat, lo: real, hi: real)
    requires 0.0 <= alpha <= 1.0
    requires i < |x|
    requires forall j :: 0 <= j <= i ==> lo <= x[j] <= hi
    ensures lo <= Smoothed(x, alpha)[i] <= hi
  {
    if i == 0 {
      SmoothedFirst(x, alpha);
    } else {
      var y := Smoothed(x, alpha);
      SmoothedBounded(x, alpha, i - 1, lo, hi);
      SmoothedStep(x, alpha, i);
      assert y[i] == Step(y[i - 1], x[i], alpha);
      StepBetween(y[i - 1], x[i], alpha);
    }
  }

  /** The least element of a non-empty sequence. */
  function Min(s: seq<real>): (m: real)
    requires |s| > 0
    ensures forall j :: 0 <= j < |s| ==> m <= s[j]
    ensures exists j :: 0 <= j < |s| && m == s[j]
  {
    if |s| == 1 then s[0]
    else
      var rest := Min(s[1..]);
      assert forall j :: 1 <= j < |s| ==> s[j] == s[1..][j - 1];
      if s[0] <= rest then s[0] else rest
  }

  /** The greatest element of a non-empty sequence. */
  function Max(s: seq<real>): (m: real)
    requires |s| > 0
    ensures forall j :: 0 <= j < |s| ==> s[j] <= m
    ensures exists j :: 0 <= j < |s| && m == s[j]
  {
    if |s| == 1 then s[0]
    else
      var rest := Max(s[1..]);
      assert forall j :: 1 <= j < |s| ==> s[j] == s[1..][j - 1];
      if s[0] >= rest then s[0] else rest
  }

  /** Each output lies between the least and greatest input seen so far. */
  lemma SmoothedWithinRange(x: seq<real>, alpha: real, i: nat)
    requires 0.0 <= alpha <= 1.0
    requires i < |x|
    ensures Min(x[..i + 1]) <= Smoothed(x, alpha)[i] <= Max(x[..i + 1])
  {
    var seen := x[..i + 1];
    assert forall j :: 0 <= j <= i ==> x[j] == seen[j];
    SmoothedBounded(x, alpha, i, Min(seen), Max(seen));
  }

  /** The output on one more input sample is the output so far plus one step. */
  lemma SmoothedExtend(x: seq<real>, alpha: real, i: nat)
    requires 0 < i < |x|
    ensures var y := Smoothed(x[..i], alpha);
      Smoothed(x[..i + 1], alpha) == y + [Step(y[i - 1], x[i], alpha)]
  {
    assert x[..i + 1][..i] == x[..i];
  }

  /**
   * `lowpass_filter`: allocates the output buffer and fills it index by
   * index, each step reading the entry just written. The source indexes
   * `signal[0]` unconditionally, so an empty signal is outside its domain.
   */
  method LowpassFilter(signal: seq<real>, cutoff: nat, sampleRate: nat) returns (filtered: array<real>)
    requires |signal| > 0
    requires cutoff > 0 && sampleRate > 0
    ensures fresh(filtered)
    ensures filtered[..] == Lowpass(signal, cutoff, sampleRate)
  {
    var alpha := Alpha(cutoff, sampleRate);

    filtered := new real[|signal|];
    filtered[0] := signal[0];

    var i := 1;
    while i < |signal|
      invariant 1 <= i <= |signal|
      invariant filtered[..i] == Smoothed(signal[..i], alpha)
    {
      var previous := filtered[i - 1];
      filtered[i] := previous + alpha * (signal[i] - previous);
      assert filtered[i] == Step(previous, signal[i], alpha);
      SmoothedExtend(signal, alpha, i);
      i := i + 1;
    }
    assert signal[..i] == signal;
    assert filtered[..] == filtered[..i];
  }
}
