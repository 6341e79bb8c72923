/** The second-order low-pass filter of the plugin: coefficients from the
    LPF entry of Robert Bristow-Johnson's Audio EQ Cookbook, and the
    biquad recurrence with a two-sample input and output history.
    Samples are modelled as `real`; `sin` and `cos` are opaque inputs. */
module LowPass {

  /** The value of `std::f32::consts::PI` as written in its literal. */
  const PI: real := 3.14159265358979323846264338327950288

  /** The trigonometric library functions, kept opaque. */
  datatype Trig = Trig(sin: real -> real, cos: real -> real)

  /** The five normalised coefficients (a0 divided out). */
  datatype Coefficients = Coefficients(b0: real, b1: real, b2: real, a1: real, a2: real)

  /** Two past inputs and two past outputs, most recent first. */
  datatype History = History(in0: real, in1: real, out0: real, out1: real)

  const Rest := History(0.0, 0.0, 0.0, 0.0)

  /** The history a filter settles in under a constant input `x`. */
  function Dc(x: real): History
  {
    History(x, x, x, x)
  }

  // ---------------------------------------------------------------------
  // Coefficient design
  // ---------------------------------------------------------------------

  function Omega(cutoff: real, sampleRate: real): real
    requires sampleRate != 0.0
  {
    2.0 * PI * cutoff / sampleRate
  }

  function Alpha(cutoff: real, q: real, sampleRate: real, trig: Trig): real
    requires sampleRate != 0.0 && q != 0.0
  {
    trig.sin(Omega(cutoff, sampleRate)) / (2.0 * q)
  }

  /** The arguments for which no division by zero happens: the sample rate,
      Q and a0 = 1 + alpha are all nonzero. */
  predicate WellConditioned(cutoff: real, q: real, sampleRate: real, trig: Trig)
  {
    sampleRate != 0.0 && q != 0.0 && 1.0 + Alpha(cutoff, q, sampleRate, trig) != 0.0
  }

  /** The unnormalised cookbook LPF: (b0, b1, b2, a0, a1, a2). */
  datatype RawCoefficients = Raw(b0: real, b1: real, b2: real, a0: real, a1: real, a2: real)

  function CookbookRaw(cosW: real, alpha: real): (r: RawCoefficients)
  {
    Raw((1.0 - cosW) / 2.0, 1.0 - cosW, (1.0 - cosW) / 2.0, 1.0 + alpha, -2.0 * cosW, 1.0 - alpha)
  }

  /** Divides every coefficient by a0 and drops a0 itself. */
  function Normalise(r: RawCoefficients): Coefficients
    requires r.a0 != 0.0
  {
    Coefficients(r.b0 / r.a0, r.b1 / r.a0, r.b2 / r.a0, r.a1 / r.a0, r.a2 / r.a0)
  }

  /** The coefficients as `set_cutoff_frequency` computes them. */
  function CookbookLowPass(cutoff: real, q: real, sampleRate: real, trig: Trig): (c: Coefficients)
    requires WellConditioned(cutoff, q, sampleRate, trig)
    ensures c.b2 == c.b0
    ensures c.b1 == 2.0 * c.b0
  {
    var alpha := Alpha(cutoff, q, sampleRate, trig);
    var cosW := trig.cos(Omega(cutoff, sampleRate));
    var a0 := 1.0 + alpha;
    var b0 := (1.0 - cosW) / (2.0 * a0);
    assert (1.0 - cosW) / a0 == 2.0 * b0;
    Coefficients(b0, (1.0 - cosW) / a0, b0, -2.0 * cosW / a0, (1.0 - alpha) / a0)
  }

  /** The numerator and the denominator of H(1) = (b0+b1+b2) / (1+a1+a2)
      agree, so the gain at DC is one whenever 1+a1+a2 is nonzero (when
      cos w = 1 both are 0 and H(1) is undefined). */
  predicate UnitDcGain(c: Coefficients)
  {
    c.b0 + c.b1 + c.b2 == 1.0 + c.a1 + c.a2
  }

  /** The directly computed coefficients are the cookbook's raw
      coefficients normalised by a0. */
  lemma CookbookIsNormalisedRaw(cutoff: real, q: real, sampleRate: real, trig: Trig)
    requires WellConditioned(cutoff, q, sampleRate, trig)
    ensures CookbookRaw(trig.cos(Omega(cutoff, sampleRate)), Alpha(cutoff, q, sampleRate, trig)).a0 != 0.0
    ensures CookbookLowPass(cutoff, q, sampleRate, trig)
         == Normalise(CookbookRaw(trig.cos(Omega(cutoff, sampleRate)), Alpha(cutoff, q, sampleRate, trig)))
  {
    var alpha := Alpha(cutoff, q, sampleRate, trig);
    var cosW := trig.cos(Omega(cutoff, sampleRate));
    var a0 := 1.0 + alpha;
    var t := ((1.0 - cosW) / 2.0) / a0;
    assert t * (2.0 * a0) == 1.0 - cosW;
  }

  /** Whenever a0 = 1 + alpha is nonzero the designed filter has unit gain
      at DC, when 1+a1+a2 is nonzero (at cos w = 1 both sides of H(1) are 0
      and H(1) is undefined). */
  lemma DesignHasUnitDcGain(cutoff: real, q: real, sampleRate: real, trig: Trig)
    requires WellConditioned(cutoff, q, sampleRate, trig)
    ensures UnitDcGain(CookbookLowPass(cutoff, q, sampleRate, trig))
  {
    var alpha := Alpha(cutoff, q, sampleRate, trig);
    var cosW := trig.cos(Omega(cutoff, sampleRate));
    var a0 := 1.0 + alpha;
    var c := CookbookLowPass(cutoff, q, sampleRate, trig);
    assert c.b0 + c.b1 + c.b2 == (2.0 - 2.0 * cosW) / a0;
    assert 1.0 + c.a1 + c.a2 == (a0 - 2.0 * cosW + 1.0 - alpha) / a0;
  }

  // ---------------------------------------------------------------------
  // The recurrence
  // ---------------------------------------------------------------------

  /** The output for input `x` given coefficients and history. */
  function Output(c: Coefficients, h: History, x: real): real
  {
    c.b0 * x + c.b1 * h.in0 + c.b2 * h.in1 - c.a1 * h.out0 - c.a2 * h.out1
  }

  /** The history after input `x` produced output `y`: both buffers shift
      by one, the oldest value is dropped. */
  function Shift(h: History, x: real, y: real): History
  {
    History(x, h.in0, y, h.out0)
  }

  /** The history after feeding `xs` in order. */
  function After(c: Coefficients, h: History, xs: seq<real>): History
  {
    if xs == [] then h
    else
      var g := After(c, h, xs[..|xs| - 1]);
      var x := xs[|xs| - 1];
      Shift(g, x, Output(c, g, x))
  }

  /** The outputs for feeding `xs` in order. */
  function Run(c: Coefficients, h: History, xs: seq<real>): (ys: seq<real>)
    ensures |ys| == |xs|
  {
    if xs == [] then []
    else
      var g := After(c, h, xs[..|xs| - 1]);
      Run(c, h, xs[..|xs| - 1]) + [Output(c, g, xs[|xs| - 1])]
  }

  /** `n` copies of `x`. */
  function Repeat(x: real, n: nat): (s: seq<real>)
    ensures |s| == n
    ensures forall i :: 0 <= i < n ==> s[i] == x
  {
    if n == 0 then [] else Repeat(x, n - 1) + [x]
  }

  /** Feeding one more input extends the outputs by one and shifts the
      history once. */
  lemma RunSnoc(c: Coefficients, h: History, xs: seq<real>, x: real)
    ensures After(c, h, xs + [x]) == Shift(After(c, h, xs), x, Output(c, After(c, h, xs), x))
    ensures Run(c, h, xs + [x]) == Run(c, h, xs) + [Output(c, After(c, h, xs), x)]
  {
    assert (xs + [x])[..|xs|] == xs;
  }

  /** A filter at rest, fed zeros, outputs zeros and stays at rest. */
  lemma {:induction false} RestStaysAtRest(c: Coefficients, n: nat)
    ensures Run(c, Rest, Repeat(0.0, n)) == Repeat(0.0, n)
    ensures After(c, Rest, Repeat(0.0, n)) == Rest
  {
    if n > 0 {
      RestStaysAtRest(c, n - 1);
      RunSnoc(c, Rest, Repeat(0.0, n - 1), 0.0);
    }
  }

  /** One step of a unit-DC-gain filter whose history is all `x`, fed `x`,
      returns `x` and keeps its history. */
  lemma DcFixedPoint(c: Coefficients, x: real)
    requires UnitDcGain(c)
    ensures Output(c, Dc(x), x) == x
    ensures Shift(Dc(x), x, Output(c, Dc(x), x)) == Dc(x)
  {
    calc {
      Output(c, Dc(x), x);
      (c.b0 + c.b1 + c.b2) * x - (c.a1 + c.a2) * x;
      (1.0 + c.a1 + c.a2) * x - (c.a1 + c.a2) * x;
      x;
    }
  }

  /** A unit-DC-gain filter in the DC state of `x` reproduces a constant
      input `x` indefinitely. */
  lemma {:induction false} DcSteadyState(c: Coefficients, x: real, n: nat)
    requires UnitDcGain(c)
    ensures Run(c, Dc(x), Repeat(x, n)) == Repeat(x, n)
    ensures After(c, Dc(x), Repeat(x, n)) == Dc(x)
  {
    if n > 0 {
      DcSteadyState(c, x, n - 1);
      RunSnoc(c, Dc(x), Repeat(x, n - 1), x);
      DcFixedPoint(c, x);
    }
  }

  // ---------------------------------------------------------------------
  // The filter object
  // ---------------------------------------------------------------------

  class LowPassFilter {
    var a1: real
    var a2: real
    var b0: real
    var b1: real
    var b2: real
    /** Past input samples, most recent first. */
    const pastInputs: array<real>
    /** Past output samples, most recent first. */
    const pastOutputs: array<real>
    var sampleRate: real

    ghost predicate Valid()
      reads this
    {
      pastInputs.Length == 2 && pastOutputs.Length == 2 && pastInputs != pastOutputs
    }

    function Coeffs(): Coefficients
      reads this
    {
      Coefficients(b0, b1, b2, a1, a2)
    }

    function State(): History
      reads this, pastInputs, pastOutputs
      requires Valid()
    {
      History(pastInputs[0], pastInputs[1], pastOutputs[0], pastOutputs[1])
    }

    /** A filter at rest with the given sample rate, designed for `cutoff`
        and `q`. */
    constructor (cutoff: real, samplingFrequency: real, q: real, trig: Trig)
      requires WellConditioned(cutoff, q, samplingFrequency, trig)
      ensures Valid() && fresh(pastInputs) && fresh(pastOutputs)
      ensures pastInputs[..] == [0.0, 0.0] && pastOutputs[..] == [0.0, 0.0]
      ensures State() == Rest
      ensures sampleRate == samplingFrequency
      ensures Coeffs() == CookbookLowPass(cutoff, q, samplingFrequency, trig)
    {
      a1, a2, b0, b1, b2 := 0.0, 0.0, 0.0, 0.0, 0.0;
      pastInputs := new real[2] [0.0, 0.0];
      pastOutputs := new real[2] [0.0, 0.0];
      sampleRate := samplingFrequency;
      new;
      SetCutoffFrequency(cutoff, q, trig);
    }

    /** Stores the rate; the coefficients are not recomputed. */
    method SetSampleRate(samplingFrequency: real)
      modifies this`sampleRate
      ensures sampleRate == samplingFrequency
      ensures Coeffs() == old(Coeffs())
      ensures unchanged(pastInputs, pastOutputs)
    {
      sampleRate := samplingFrequency;
    }

    /** Redesigns the coefficients at the stored sample rate; the history
        is kept, so an abrupt change gives a transient. */
    method SetCutoffFrequency(cutoff: real, q: real, trig: Trig)
      requires WellConditioned(cutoff, q, sampleRate, trig)
      modifies this`a1, this`a2, this`b0, this`b1, this`b2
      ensures Coeffs() == CookbookLowPass(cutoff, q, sampleRate, trig)
      ensures UnitDcGain(Coeffs())
      ensures sampleRate == old(sampleRate)
      ensures unchanged(pastInputs, pastOutputs)
    {
      var omega := 2.0 * PI * cutoff / sampleRate;
      var alpha := trig.sin(omega) / (2.0 * q);
      var cosOmega := trig.cos(omega);
      var a0 := 1.0 + alpha;
      b0 := (1.0 - cosOmega) / (2.0 * a0);
      b1 := (1.0 - cosOmega) / a0;
      b2 := b0;
      a1 := -2.0 * cosOmega / a0;
      a2 := (1.0 - alpha) / a0;
      DesignHasUnitDcGain(cutoff, q, sampleRate, trig);
    }

    /** Filters one sample and shifts both histories in place. */
    method Process(inputSample: real) returns (newOutput: real)
      requires Valid()
      modifies pastInputs, pastOutputs
      ensures Valid()
      ensures newOutput == Output(Coeffs(), old(State()), inputSample)
      ensures State() == Shift(old(State()), inputSample, newOutput)
      ensures pastInputs[..] == [inputSample, old(pastInputs[0])]
      ensures pastOutputs[..] == [newOutput, old(pastOutputs[0])]
    {
      newOutput := b0 * inputSample
        + b1 * pastInputs[0]
        + b2 * pastInputs[1]
        - a1 * pastOutputs[0]
        - a2 * pastOutputs[1];
      pastInputs[1] := pastInputs[0];
      pastInputs[0] := inputSample;
      pastOutputs[1] := pastOutputs[0];
      pastOutputs[0] := newOutput;
    }
  }

  /** Reconfiguring twice with the same arguments gives the same
      coefficients as once, and neither call touches the history. */
  method ReconfigureTwice(f: LowPassFilter, cutoff: real, q: real, trig: Trig)
    requires WellConditioned(cutoff, q, f.sampleRate, trig)
    modifies f
    ensures f.Coeffs() == CookbookLowPass(cutoff, q, old(f.sampleRate), trig)
    ensures f.sampleRate == old(f.sampleRate)
    ensures unchanged(f.pastInputs, f.pastOutputs)
  {
    f.SetCutoffFrequency(cutoff, q, trig);
    var once := f.Coeffs();
    f.SetCutoffFrequency(cutoff, q, trig);
    assert f.Coeffs() == once;
  }
}
