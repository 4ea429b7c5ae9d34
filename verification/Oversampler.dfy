/**
 The oversampling filters of `vst/src/engine/digitalFilters.c`: eight second-order sections that
 share histories (the input history of a section is the output history of the one before it), and
 the zero-stuffing and decimating loops around them.
 */
module Oversampler {
  import opened Biquads
  import opened Reals

  const STAGE: nat := 8

  datatype Lowpass = Lowpass(a1: real, a2: real)

  /** The section a pair of coefficients stands for: numerator 1, 2, 1. */
  function Section(l: Lowpass): Coeffs {
    Coeffs(1.0, 2.0, 1.0, -l.a1, -l.a2)
  }

  function Sections(ls: seq<Lowpass>): (r: seq<Coeffs>)
    ensures |r| == |ls|
  {
    seq(|ls|, k requires 0 <= k < |ls| => Section(ls[k]))
  }

  /** The two previous inputs of section k when histories are shared. */
  function Previous(x: real, ys: seq<real>, k: nat): real
    requires k <= |ys|
  {
    if k == 0 then x else ys[k - 1]
  }

  /** Eight independent sections with the histories the shared ones imply. */
  function Independent(xn1: real, xn2: real, yn1: seq<real>, yn2: seq<real>): (r: seq<Memory>)
    requires |yn1| == |yn2|
    ensures |r| == |yn1|
  {
    seq(|yn1|, k requires 0 <= k < |yn1| => Direct(Previous(xn1, yn1, k), Previous(xn2, yn2, k), yn1[k], yn2[k]))
  }

  /** `iirSOS`. */
  class IirSos {
    var xn1: real
    var xn2: real
    const yn: array<real>
    const yn1: array<real>
    const yn2: array<real>

    ghost predicate Valid() {
      yn.Length == yn1.Length == yn2.Length == STAGE && yn != yn1 && yn != yn2 && yn1 != yn2
    }

    ghost const Repr: set<object> := {this, yn, yn1, yn2}

    ghost function State(): (r: seq<Memory>)
      requires Valid()
      reads this, yn1, yn2
      ensures |r| == STAGE
    {
      Independent(xn1, xn2, yn1[..], yn2[..])
    }

    constructor ()
      ensures Valid() && fresh(Repr)
      ensures forall k :: 0 <= k < STAGE ==> Silent(State()[k])
    {
      xn1, xn2 := 0.0, 0.0;
      yn, yn1, yn2 := new real[STAGE](_ => 0.0), new real[STAGE](_ => 0.0), new real[STAGE](_ => 0.0);
    }

    ghost predicate Computed(ls: seq<Lowpass>, ms: seq<Memory>, x: real, n: nat)
      requires |ls| == |ms| == STAGE && n <= STAGE && Valid()
      reads yn
    {
      forall i :: 0 <= i < n ==> yn[i] == Through(Sections(ls), ms, x, i + 1)
    }

    /** The loop over the sections after the first, the same in all three variants. */
    method LaterSections(ls: seq<Lowpass>, ghost x: real)
      requires Valid() && |ls| == STAGE && Computed(ls, State(), x, 1)
      modifies yn
      ensures Computed(ls, State(), x, STAGE)
    {
      hide Through, Sections;
      ghost var ms := State();
      for i := 1 to STAGE
        invariant Computed(ls, ms, x, i)
      {
        assert yn[i - 1] == Through(Sections(ls), ms, x, i - 1 + 1);
        assert ms[i] == Direct(yn1[i - 1], yn2[i - 1], yn1[i], yn2[i]);
        NextSection(ls, ms, x, i, yn[i - 1], yn1[i - 1], yn2[i - 1], yn1[i], yn2[i]);
        yn[i] := yn[i - 1] + 2.0 * yn1[i - 1] + yn2[i - 1] + ls[i].a1 * yn1[i] + ls[i].a2 * yn2[i];
      }
    }

    /** The copy of every output into the histories. */
    method Shift(ls: seq<Lowpass>, x: real)
      requires Valid() && |ls| == STAGE && Computed(ls, State(), x, STAGE)
      modifies this, yn1, yn2
      ensures State() == Advance(Sections(ls), old(State()), x)
    {
      ghost var ms, was1 := State(), yn1[..];
      assert forall k :: 0 <= k < STAGE ==>
               ms[k] == Direct(Previous(xn1, was1, k), Previous(xn2, yn2[..], k), was1[k], yn2[k]);
      for i := 0 to STAGE
        invariant forall k :: 0 <= k < i ==> yn2[k] == was1[k] && yn1[k] == yn[k]
        invariant forall k :: i <= k < STAGE ==> yn1[k] == was1[k]
        invariant unchanged(this)
      {
        yn2[i] := yn1[i];
        yn1[i] := yn[i];
      }
      ghost var old1 := xn1;
      xn2 := xn1;
      xn1 := x;
      assert yn2[..] == was1 && yn1[..] == yn[..];
      ShiftIsAdvance(ls, ms, x, old1, was1, yn[..]);
    }

    /** `iirSOSProcessorProcessBiquadSampleBySample`, and its double-precision twin. */
    method Process(x: real, ls: seq<Lowpass>) returns (y: real)
      requires Valid() && |ls| == STAGE
      modifies Repr
      ensures y == Through(Sections(ls), old(State()), x, STAGE)
      ensures State() == Advance(Sections(ls), old(State()), x)
    {
      yn[0] := x + 2.0 * xn1 + xn2 + ls[0].a1 * yn1[0] + ls[0].a2 * yn2[0];
      FirstSection(ls, State(), x, xn1, xn2, yn1[0], yn2[0]);
      hide Through, Sections, Independent;
      LaterSections(ls, x);
      y := yn[STAGE - 1];
      Shift(ls, x);
    }

    /** `iirSOSProcessorProcessBiquadSampleBySampleInterpolation`: the general step fed zero. */
    method ProcessInterpolation(ls: seq<Lowpass>) returns (y: real)
      requires Valid() && |ls| == STAGE
      modifies Repr
      ensures y == Through(Sections(ls), old(State()), 0.0, STAGE)
      ensures State() == Advance(Sections(ls), old(State()), 0.0)
    {
      yn[0] := 2.0 * xn1 + xn2 + ls[0].a1 * yn1[0] + ls[0].a2 * yn2[0];
      FirstSection(ls, State(), 0.0, xn1, xn2, yn1[0], yn2[0]);
      hide Through, Sections, Independent;
      LaterSections(ls, 0.0);
      y := yn[STAGE - 1];
      Shift(ls, 0.0);
    }
  }

  lemma FirstSection(ls: seq<Lowpass>, ms: seq<Memory>, x: real, x1: real, x2: real, y1: real, y2: real)
    requires |ls| == |ms| == STAGE && ms[0] == Direct(x1, x2, y1, y2)
    ensures x + 2.0 * x1 + x2 + ls[0].a1 * y1 + ls[0].a2 * y2 == Through(Sections(ls), ms, x, 1)
  {
    assert Through(Sections(ls), ms, x, 0) == x;
    assert Sections(ls)[0] == Section(ls[0]);
  }

  lemma NextSection(ls: seq<Lowpass>, ms: seq<Memory>, x: real, i: nat, u: real, x1: real, x2: real, y1: real, y2: real)
    requires |ls| == |ms| == STAGE && 0 < i < STAGE && ms[i] == Direct(x1, x2, y1, y2)
    requires u == Through(Sections(ls), ms, x, i)
    ensures u + 2.0 * x1 + x2 + ls[i].a1 * y1 + ls[i].a2 * y2 == Through(Sections(ls), ms, x, i + 1)
  {
    assert Sections(ls)[i] == Section(ls[i]);
    assert Through(Sections(ls), ms, x, i + 1) == Out(Section(ls[i]), ms[i], u);
  }

  lemma ShiftIsAdvance(ls: seq<Lowpass>, ms: seq<Memory>, x: real, x1: real, was1: seq<real>, ys: seq<real>)
    requires |ls| == |ms| == |was1| == |ys| == STAGE
    requires forall k :: 0 <= k < STAGE ==>
               ms[k].Direct? && ms[k].y1 == was1[k] && ms[k].x1 == Previous(x1, was1, k)
    requires forall i :: 0 <= i < STAGE ==> ys[i] == Through(Sections(ls), ms, x, i + 1)
    ensures Independent(x, x1, ys, was1) == Advance(Sections(ls), ms, x)
  {
    forall k | 0 <= k < STAGE
      ensures Independent(x, x1, ys, was1)[k] == Next(Sections(ls)[k], ms[k], Through(Sections(ls), ms, x, k))
    {
      assert ys[k] == Through(Sections(ls), ms, x, k + 1);
      assert k == 0 || ys[k - 1] == Through(Sections(ls), ms, x, k - 1 + 1);
      hide Sections;
    }
  }

  // ---- changing the rate ----

  function Scaled(gain: real, ys: seq<real>): (r: seq<real>)
    ensures |r| == |ys|
  {
    seq(|ys|, i requires 0 <= i < |ys| => Gained(ys[i], gain))
  }

  /** One input sample at the higher rate: scaled by the factor and followed by zeros. */
  function Stuffed(x: real, factor: nat): (r: seq<real>)
    requires 0 < factor
    ensures |r| == factor
  {
    seq(factor, i => if i == 0 then Gained(x, factor as real) else 0.0)
  }

  /** The block of output samples for one input sample. */
  ghost function UpBlock(ls: seq<Lowpass>, ms: seq<Memory>, factor: nat, gain: real, x: real): (r: seq<real>)
    requires |ls| == |ms| && 0 < factor
    ensures |r| == factor
  {
    Scaled(gain, CascadeStream(Sections(ls), ms, Stuffed(x, factor)))
  }

  ghost function UpAfter(ls: seq<Lowpass>, ms: seq<Memory>, factor: nat, x: real): (r: seq<Memory>)
    requires |ls| == |ms| && 0 < factor
    ensures |r| == |ms|
  {
    After(Sections(ls), ms, Stuffed(x, factor))
  }

  /** The single output sample for one block of input samples: the last one the filter gives. */
  ghost function DownSample(ls: seq<Lowpass>, ms: seq<Memory>, gain: real, us: seq<real>): real
    requires |ls| == |ms| && us != []
  {
    CascadeStream(Sections(ls), ms, us)[|us| - 1] * gain
  }

  lemma CascadeAppend(cs: seq<Coeffs>, ms: seq<Memory>, us: seq<real>, v: real)
    requires |cs| == |ms|
    ensures CascadeStream(cs, ms, us + [v]) == CascadeStream(cs, ms, us) + [Through(cs, After(cs, ms, us), v, |cs|)]
    ensures After(cs, ms, us + [v]) == Advance(cs, After(cs, ms, us), v)
  {
    hide CascadeStream, After, Through, Advance;
    CascadeOfConcat(cs, ms, us, [v]);
    CascadeOfOne(cs, After(cs, ms, us), v);
  }

  /** `samplerateTool`. */
  class SamplerateTool {
    const factor: nat
    const coeffs: seq<Lowpass>
    const gain: real
    const lpfU: IirSos
    const lpfD: IirSos

    ghost predicate Valid() {
      0 < factor && |coeffs| == STAGE && lpfU.Valid() && lpfD.Valid() && lpfU.Repr !! lpfD.Repr
    }

    /** `oversample_makeSmp`, given the filter design. */
    constructor (factor: nat, coeffs: seq<Lowpass>, gain: real)
      requires 0 < factor && |coeffs| == STAGE
      ensures Valid() && fresh(lpfU.Repr + lpfD.Repr)
      ensures this.factor == factor && this.coeffs == coeffs && this.gain == gain
      ensures forall k :: 0 <= k < STAGE ==> Silent(lpfU.State()[k]) && Silent(lpfD.State()[k])
    {
      this.factor, this.coeffs, this.gain := factor, coeffs, gain;
      lpfU := new IirSos();
      lpfD := new IirSos();
    }

    /** `oversample_stepupSmp`. */
    method StepUp(x: real, output: array<real>)
      requires Valid() && factor <= output.Length && output !in lpfU.Repr
      modifies lpfU.Repr, output
      ensures output[..factor] == UpBlock(coeffs, old(lpfU.State()), factor, gain, x)
      ensures lpfU.State() == UpAfter(coeffs, old(lpfU.State()), factor, x)
    {
      hide Through, Advance, CascadeStream, After, Scaled, Sections, Independent, Gained;
      ghost var cs, ms, us := Sections(coeffs), lpfU.State(), Stuffed(x, factor);
      var scaled := Gained(x, factor as real);
      var y := lpfU.Process(scaled, coeffs);
      output[0] := Gained(y, gain);
      ghost var ys := [y];
      CascadeOfOne(cs, ms, us[0]);
      ScaledOne(gain, y);
      assert us[..1] == [us[0]];
      for i := 1 to factor
        invariant ys == CascadeStream(cs, ms, us[..i])
        invariant lpfU.State() == After(cs, ms, us[..i])
        invariant output[..i] == Scaled(gain, ys)
      {
        y := lpfU.ProcessInterpolation(coeffs);
        output[i] := Gained(y, gain);
        CascadeAppend(cs, ms, us[..i], us[i]);
        ScaledAppend(gain, ys, y);
        ys := ys + [y];
        assert us[..i + 1] == us[..i] + [us[i]];
        assert output[..i + 1] == output[..i] + [Gained(y, gain)];
      }
      assert us[..factor] == us;
    }

    /** `oversample_stepdownSmpFloat` and `oversample_stepdownSmpDouble`. */
    method StepDown(input: array<real>) returns (out: real)
      requires Valid() && factor <= input.Length && input !in lpfD.Repr
      modifies lpfD.Repr
      ensures out == DownSample(coeffs, old(lpfD.State()), gain, input[..factor])
      ensures lpfD.State() == After(Sections(coeffs), old(lpfD.State()), input[..factor])
    {
      hide Through, Advance, CascadeStream, After, Sections, Independent;
      ghost var cs, ms, us := Sections(coeffs), lpfD.State(), input[..factor];
      out := 0.0;
      NothingYet(cs, ms, us);
      for i := 0 to factor
        invariant input[..factor] == us
        invariant lpfD.State() == After(cs, ms, us[..i])
        invariant 0 < i ==> out == CascadeStream(cs, ms, us[..i])[i - 1] * gain
      {
        var y := lpfD.Process(input[i], coeffs);
        out := y * gain;
        CascadeAppend(cs, ms, us[..i], us[i]);
        assert us[..i + 1] == us[..i] + [us[i]];
      }
      assert us[..factor] == us;
    }
  }

  lemma NothingYet(cs: seq<Coeffs>, ms: seq<Memory>, us: seq<real>)
    requires |cs| == |ms|
    ensures After(cs, ms, us[..0]) == ms
  {
  }

  lemma ScaledOne(gain: real, y: real)
    ensures Scaled(gain, [y]) == [Gained(y, gain)]
  {
    hide Gained;
  }

  lemma ScaledAppend(gain: real, ys: seq<real>, y: real)
    ensures Scaled(gain, ys + [y]) == Scaled(gain, ys) + [Gained(y, gain)]
  {
    ScaledConcat(gain, ys, [y]);
    ScaledOne(gain, y);
  }

  // ---- whole streams ----

  /** The tool's upsampling over a stream, one call per sample. */
  ghost function UpStream(ls: seq<Lowpass>, ms: seq<Memory>, factor: nat, gain: real, xs: seq<real>): seq<real>
    requires |ls| == |ms| && 0 < factor
    decreases |xs|
  {
    if xs == [] then []
    else UpBlock(ls, ms, factor, gain, xs[0]) + UpStream(ls, UpAfter(ls, ms, factor, xs[0]), factor, gain, xs[1..])
  }

  lemma ScaledConcat(gain: real, us: seq<real>, vs: seq<real>)
    ensures Scaled(gain, us + vs) == Scaled(gain, us) + Scaled(gain, vs)
  {
    hide Gained;
  }

  function StuffedFromFront(xs: seq<real>, factor: nat): (r: seq<real>)
    requires 0 < factor
    ensures |r| == |xs| * factor
  {
    if xs == [] then [] else Stuffed(xs[0], factor) + StuffedFromFront(xs[1..], factor)
  }

  /** Where sample j of the block for input sample i goes. */
  function Place(i: nat, j: nat, factor: nat): nat { i * factor + j }

  /** The stream at the higher rate, index by index: a scaled input sample, then zeros. */
  ghost predicate ZeroStuffed(us: seq<real>, xs: seq<real>, factor: nat) {
    && |us| == |xs| * factor
    && forall i: nat, j: nat :: i < |xs| && j < factor ==>
         && Place(i, j, factor) < |us|
         && us[Place(i, j, factor)] == if j == 0 then Gained(xs[i], factor as real) else 0.0
  }

  lemma {:induction false} StuffedAt(xs: seq<real>, factor: nat, i: nat, j: nat)
    requires j < factor && i < |xs|
    ensures Place(i, j, factor) < |xs| * factor
    ensures StuffedFromFront(xs, factor)[Place(i, j, factor)] == if j == 0 then Gained(xs[i], factor as real) else 0.0
  {
    hide Gained;
    BlockIndex(|xs|, factor, i, j);
    if i != 0 {
      StuffedAt(xs[1..], factor, i - 1, j);
      assert (i - 1) * factor + j == i * factor + j - factor;
    }
  }

  lemma BlockIndex(n: nat, factor: nat, i: nat, j: nat)
    requires j < factor && i < n
    ensures 0 <= i * factor && i * factor + j < n * factor
    ensures 0 < i ==> factor <= i * factor
  {
    assert (i + 1) * factor <= n * factor;
    assert (i + 1) * factor == i * factor + factor;
    if 0 < i {
      assert 1 * factor <= i * factor;
    }
  }

  /** Upsampling any stream from any state is one cascade over the zero-stuffed stream, scaled. */
  lemma {:induction false} UpStreamIsCascade(ls: seq<Lowpass>, ms: seq<Memory>, factor: nat, gain: real, xs: seq<real>)
    requires |ls| == |ms| && 0 < factor
    ensures UpStream(ls, ms, factor, gain, xs)
         == Scaled(gain, CascadeStream(Sections(ls), ms, StuffedFromFront(xs, factor)))
    ensures ZeroStuffed(StuffedFromFront(xs, factor), xs, factor)
    decreases |xs|
  {
    forall i: nat, j: nat | i < |xs| && j < factor
      ensures Place(i, j, factor) < |xs| * factor
      ensures StuffedFromFront(xs, factor)[Place(i, j, factor)] == if j == 0 then Gained(xs[i], factor as real) else 0.0
    {
      StuffedAt(xs, factor, i, j);
      hide Place, Gained, StuffedFromFront;
    }
    assert ZeroStuffed(StuffedFromFront(xs, factor), xs, factor);
    hide ZeroStuffed, Place;
    if xs != [] {
      hide CascadeStream, After, Stuffed, Scaled, Sections;
      var u, v := Stuffed(xs[0], factor), StuffedFromFront(xs[1..], factor);
      var ms' := UpAfter(ls, ms, factor, xs[0]);
      UpStreamIsCascade(ls, ms', factor, gain, xs[1..]);
      CascadeOfConcat(Sections(ls), ms, u, v);
      ScaledConcat(gain, CascadeStream(Sections(ls), ms, u), CascadeStream(Sections(ls), ms', v));
    }
  }

  /** The tool's downsampling over a stream of whole blocks, one call per block. */
  ghost function DownStream(ls: seq<Lowpass>, ms: seq<Memory>, factor: nat, gain: real, us: seq<real>, n: nat)
    : (r: seq<real>)
    requires |ls| == |ms| && 0 < factor && |us| == n * factor
    ensures |r| == n
    decreases n
  {
    if n == 0 then []
    else
      FirstBlock(n, factor);
      [DownSample(ls, ms, gain, us[..factor])]
        + DownStream(ls, After(Sections(ls), ms, us[..factor]), factor, gain, us[factor..], n - 1)
  }

  lemma FirstBlock(n: nat, factor: nat)
    requires 0 < n
    ensures factor <= n * factor && n * factor - factor == (n - 1) * factor
  {
    assert n * factor == (n - 1) * factor + factor;
  }

  /** Downsampling any stream keeps every factor-th sample of one cascade over it, scaled. */
  lemma {:induction false} DownStreamDecimates(ls: seq<Lowpass>, ms: seq<Memory>, factor: nat, gain: real,
                                               us: seq<real>, n: nat, i: nat)
    requires |ls| == |ms| && 0 < factor && |us| == n * factor && i < n
    ensures 0 <= i * factor && i * factor + factor - 1 < |us|
    ensures DownStream(ls, ms, factor, gain, us, n)[i]
         == CascadeStream(Sections(ls), ms, us)[i * factor + factor - 1] * gain
    decreases n
  {
    hide Sections, After, CascadeStream;
    FirstBlock(n, factor);
    BlockIndex(n, factor, i, factor - 1);
    var u, v := us[..factor], us[factor..];
    assert us == u + v;
    CascadeOfConcat(Sections(ls), ms, u, v);
    if i != 0 {
      DownStreamDecimates(ls, After(Sections(ls), ms, u), factor, gain, v, n - 1, i - 1);
      assert (i - 1) * factor == i * factor - factor;
    }
  }
}
