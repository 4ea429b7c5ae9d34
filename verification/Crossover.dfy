/**
 The ten-band crossover of `vst/src/engine/digitalFilters.c`: nine first-order sections, each
 splitting what the one before left over into a low and a high part.
 */
module Crossover {
  import opened Reals

  /** The three coefficients of one section. */
  datatype Design = Design(b: real, bp: real, a: real) {
    /** What `myButter` guarantees, and what makes the two halves add up. */
    predicate Complementary() {
      bp == 1.0 - b && a == b - bp
    }
  }

  /** `myButter`, after `alph` has been computed from the corner frequency and q. */
  function Butter(alph: real): (d: Design)
    requires alph != -1.0
    ensures d.Complementary()
    ensures 0.0 < alph ==> 0.0 < d.b < 1.0 && -1.0 < d.a < 1.0
  {
    var b, a := alph / (1.0 + alph), -(1.0 - alph) / (1.0 + alph);
    ButterArithmetic(alph, b, a);
    Design(b, 1.0 - b, a)
  }

  lemma ButterArithmetic(alph: real, b: real, a: real)
    requires alph != -1.0 && b == alph / (1.0 + alph) && a == -(1.0 - alph) / (1.0 + alph)
    ensures a == 2.0 * b - 1.0
    ensures 0.0 < alph ==> 0.0 < b < 1.0
  {
    var s := 1.0 + alph;
    assert b * s == alph && a * s == alph - 1.0;
    assert (2.0 * b - 1.0 - a) * s == 0.0;
  }

  /** alph is the tangent of half the corner's angle per sample: at the angle whose half has cosine c and sine
      alph c, where the magnitudes of the two halves are 2 b c and 2 bp alph c, both are as loud. */
  lemma CornerIsEven(alph: real, c: real)
    requires alph != -1.0
    ensures Gained(Butter(alph).b, c) == Gained(Butter(alph).bp, alph * c)
  {
    var b := alph / (1.0 + alph);
    assert b * (1.0 + alph) == alph;
    assert b == (1.0 - b) * alph;
    assert ((1.0 - b) * alph) * c == (1.0 - b) * (alph * c);
  }

  /** The two delayed terms of a section. */
  datatype Delay = Delay(low: real, high: real) {
    /** How far the section is from splitting its input exactly. */
    function Error(): real { low + high }
  }

  function Low(d: Design, z: Delay, x: real): real { x * d.b + z.low }

  function High(d: Design, z: Delay, x: real): real { x * d.bp + z.high }

  function Next(d: Design, z: Delay, x: real): Delay {
    Delay(x * d.b - d.a * Low(d, z, x), x * -d.bp - d.a * High(d, z, x))
  }

  /** One section: the halves miss the input by the stored error, which the sample multiplies by -a. */
  lemma SectionSplits(d: Design, z: Delay, x: real)
    requires d.Complementary()
    ensures Low(d, z, x) + High(d, z, x) == x + z.Error()
    ensures Next(d, z, x).Error() == -d.a * z.Error()
  {
    var l, h, e := Low(d, z, x), High(d, z, x), z.Error();
    assert d.b * x + d.bp * x == x;
    assert l + h == x + e;
    assert d.a * l + d.a * h == d.a * x + d.a * e by {
      assert d.a * (l + h) == d.a * (x + e);
    }
    assert d.a * x == d.b * x - d.bp * x;
  }

  /** A constant goes to the low half: the low output closes the same fraction of its distance to it every
      sample, and the high output dies away as fast. */
  lemma ConstantGoesLow(d: Design, z: Delay, x: real)
    requires d.Complementary()
    ensures Low(d, Next(d, z, x), x) - x == Gained(Low(d, z, x) - x, -d.a)
    ensures High(d, Next(d, z, x), x) == Gained(High(d, z, x), -d.a)
  {
    var l, h := Low(d, z, x), High(d, z, x);
    assert Low(d, Next(d, z, x), x) == 2.0 * (x * d.b) - d.a * l;
    assert 2.0 * (x * d.b) == x + d.a * x by {
      assert d.a * x == (2.0 * d.b - 1.0) * x;
    }
    assert High(d, Next(d, z, x), x) == x * d.bp + (x * -d.bp) - d.a * h;
  }

  // ---- any number of sections ----

  /** What is left of the input after k sections have taken their low part. */
  function Rest(ds: seq<Design>, zs: seq<Delay>, x: real, k: nat): real
    requires |ds| == |zs| && k <= |ds|
  {
    if k == 0 then x else High(ds[k - 1], zs[k - 1], Rest(ds, zs, x, k - 1))
  }

  function Band(ds: seq<Design>, zs: seq<Delay>, x: real, k: nat): real
    requires |ds| == |zs| && k <= |ds|
  {
    if k == |ds| then Rest(ds, zs, x, k) else Low(ds[k], zs[k], Rest(ds, zs, x, k))
  }

  function Advance(ds: seq<Design>, zs: seq<Delay>, x: real): (r: seq<Delay>)
    requires |ds| == |zs|
    ensures |r| == |zs|
  {
    seq(|ds|, k requires 0 <= k < |ds| => Next(ds[k], zs[k], Rest(ds, zs, x, k)))
  }

  /** The sum of the first n bands. */
  function BandSum(ds: seq<Design>, zs: seq<Delay>, x: real, n: nat): real
    requires |ds| == |zs| && n <= |ds| + 1
  {
    if n == 0 then 0.0 else BandSum(ds, zs, x, n - 1) + Band(ds, zs, x, n - 1)
  }

  function ErrorSum(zs: seq<Delay>, n: nat): real
    requires n <= |zs|
  {
    if n == 0 then 0.0 else ErrorSum(zs, n - 1) + zs[n - 1].Error()
  }

  ghost predicate AllComplementary(ds: seq<Design>) {
    forall k :: 0 <= k < |ds| ==> ds[k].Complementary()
  }

  lemma {:induction false} BandsTelescope(ds: seq<Design>, zs: seq<Delay>, x: real, k: nat)
    requires |ds| == |zs| && k <= |ds| && AllComplementary(ds)
    ensures BandSum(ds, zs, x, k) + Rest(ds, zs, x, k) == x + ErrorSum(zs, k)
  {
    if k != 0 {
      BandsTelescope(ds, zs, x, k - 1);
      SectionSplits(ds[k - 1], zs[k - 1], Rest(ds, zs, x, k - 1));
      hide Design.Complementary, Low, High;
    }
  }

  /** What the first k sections pass on of a click. */
  function PassedOn(ds: seq<Design>, k: nat): real
    requires k <= |ds|
  {
    if k == 0 then 1.0 else PassedOn(ds, k - 1) * ds[k - 1].bp
  }

  lemma {:induction false} RestOfClick(ds: seq<Design>, zs: seq<Delay>, x: real, k: nat)
    requires |ds| == |zs| && k <= |ds| && forall i :: 0 <= i < |zs| ==> zs[i] == Delay(0.0, 0.0)
    ensures Rest(ds, zs, x, k) == Gained(x, PassedOn(ds, k))
  {
    if k != 0 {
      RestOfClick(ds, zs, x, k - 1);
      var p := PassedOn(ds, k - 1);
      assert (x * p) * ds[k - 1].bp == x * (p * ds[k - 1].bp);
    }
  }

  /** Who gets what of a click: each section keeps its low share of what those before it passed on, and the
      last band is what is left. */
  lemma BandsOfClick(ds: seq<Design>, zs: seq<Delay>, x: real, k: nat)
    requires |ds| == |zs| && k <= |ds| && forall i :: 0 <= i < |zs| ==> zs[i] == Delay(0.0, 0.0)
    ensures Band(ds, zs, x, k)
         == if k < |ds| then Gained(Gained(x, PassedOn(ds, k)), ds[k].b) else Gained(x, PassedOn(ds, k))
  {
    RestOfClick(ds, zs, x, k);
    hide Rest, PassedOn;
  }

  ghost function DelaysAt(ds: seq<Design>, zs: seq<Delay>, xs: seq<real>, n: nat): (r: seq<Delay>)
    requires |ds| == |zs| && n <= |xs|
    ensures |r| == |zs|
  {
    if n == 0 then zs else Advance(ds, DelaysAt(ds, zs, xs, n - 1), xs[n - 1])
  }

  lemma DelaysStep(ds: seq<Design>, zs: seq<Delay>, xs: seq<real>, k: nat, n: nat)
    requires |ds| == |zs| && 0 < n <= |xs| && k < |ds| && AllComplementary(ds)
    ensures DelaysAt(ds, zs, xs, n)[k].Error() == -ds[k].a * DelaysAt(ds, zs, xs, n - 1)[k].Error()
  {
    hide Next, Low, High, Rest, Delay.Error;
    var before := DelaysAt(ds, zs, xs, n - 1);
    SectionSplits(ds[k], before[k], Rest(ds, before, xs[n - 1], k));
  }

  /** Whatever is fed in, section k's error after n samples is its starting error times (-a)^n. */
  lemma {:induction false} ErrorDecays(ds: seq<Design>, zs: seq<Delay>, xs: seq<real>, k: nat, n: nat)
    requires |ds| == |zs| && n <= |xs| && k < |ds| && AllComplementary(ds)
    ensures DelaysAt(ds, zs, xs, n)[k].Error() == Power(-ds[k].a, n) * zs[k].Error()
  {
    hide AllComplementary, Advance, Delay.Error;
    if n != 0 {
      ErrorDecays(ds, zs, xs, k, n - 1);
      DelaysStep(ds, zs, xs, k, n);
      Associate(-ds[k].a, Power(-ds[k].a, n - 1), zs[k].Error());
    }
  }

  lemma Associate(x: real, y: real, z: real)
    ensures x * (y * z) == (x * y) * z
  {
  }

  /** The initial errors of the first k sections, each scaled by its own power. */
  ghost function DecayedSum(ds: seq<Design>, zs: seq<Delay>, n: nat, k: nat): real
    requires |ds| == |zs| && k <= |ds|
  {
    if k == 0 then 0.0 else DecayedSum(ds, zs, n, k - 1) + Power(-ds[k - 1].a, n) * zs[k - 1].Error()
  }

  lemma {:induction false} ErrorSumDecays(ds: seq<Design>, zs: seq<Delay>, xs: seq<real>, n: nat, k: nat)
    requires |ds| == |zs| && n <= |xs| && k <= |ds| && AllComplementary(ds)
    ensures ErrorSum(DelaysAt(ds, zs, xs, n), k) == DecayedSum(ds, zs, n, k)
  {
    hide AllComplementary, DelaysAt, Power, Delay.Error;
    if k != 0 {
      ErrorSumDecays(ds, zs, xs, n, k - 1);
      ErrorDecays(ds, zs, xs, k - 1, n);
    }
  }

  /** At every sample of every stream, from any start state, all bands together give the input plus
      the decayed starting errors. */
  lemma BandsSumToInput(ds: seq<Design>, zs: seq<Delay>, xs: seq<real>, n: nat)
    requires |ds| == |zs| && n < |xs| && AllComplementary(ds)
    ensures BandSum(ds, DelaysAt(ds, zs, xs, n), xs[n], |ds| + 1) == xs[n] + DecayedSum(ds, zs, n, |ds|)
  {
    BandsTelescope(ds, DelaysAt(ds, zs, xs, n), xs[n], |ds|);
    ErrorSumDecays(ds, zs, xs, n, |ds|);
  }

  lemma {:induction false} NothingToDecay(ds: seq<Design>, zs: seq<Delay>, n: nat, k: nat)
    requires |ds| == |zs| && k <= |ds| && forall i :: 0 <= i < |zs| ==> zs[i].Error() == 0.0
    ensures DecayedSum(ds, zs, n, k) == 0.0
  {
    if k != 0 {
      NothingToDecay(ds, zs, n, k - 1);
    }
  }

  /** Perfect reconstruction: starting from rest the bands add up to the input, for ever. */
  lemma PerfectReconstruction(ds: seq<Design>, zs: seq<Delay>, xs: seq<real>, n: nat)
    requires |ds| == |zs| && n < |xs| && AllComplementary(ds)
    requires forall i :: 0 <= i < |zs| ==> zs[i] == Delay(0.0, 0.0)
    ensures BandSum(ds, DelaysAt(ds, zs, xs, n), xs[n], |ds| + 1) == xs[n]
  {
    BandsSumToInput(ds, zs, xs, n);
    NothingToDecay(ds, zs, n, |ds|);
  }

  /** What positive values of alph give. */
  ghost predicate AllDamped(ds: seq<Design>) {
    forall k :: 0 <= k < |ds| ==> Abs(ds[k].a) < 1.0
  }

  lemma {:induction false} DecayVanishes(ds: seq<Design>, zs: seq<Delay>, eps: real, k: nat) returns (from: nat)
    requires |ds| == |zs| && k <= |ds| && AllDamped(ds) && 0.0 < eps
    ensures forall n: nat :: from <= n ==> Abs(DecayedSum(ds, zs, n, k)) < eps
    decreases k
  {
    hide Power, Delay.Error;
    from := 0;
    if k != 0 {
      var others := DecayVanishes(ds, zs, eps / 2.0, k - 1);
      var own := PowersVanish(-ds[k - 1].a, zs[k - 1].Error(), eps / 2.0);
      from := others + own;
      forall n: nat | from <= n ensures Abs(DecayedSum(ds, zs, n, k)) < eps {
        assert Abs(DecayedSum(ds, zs, n, k - 1)) < eps / 2.0;
        assert Abs(Gained(zs[k - 1].Error(), Power(-ds[k - 1].a, n))) < eps / 2.0;
        Swapped(Power(-ds[k - 1].a, n), zs[k - 1].Error());
        hide Gained;
      }
    }
  }

  lemma Swapped(x: real, y: real)
    ensures x * y == Gained(y, x)
  {
  }

  /** From any start state the crossover ends up reconstructing: for every tolerance there is a time
      after which, whatever is fed in, the bands miss the input by less. */
  lemma ErrorVanishes(ds: seq<Design>, zs: seq<Delay>, eps: real) returns (from: nat)
    requires |ds| == |zs| && AllComplementary(ds) && AllDamped(ds) && 0.0 < eps
    ensures forall xs: seq<real>, n: nat :: from <= n < |xs| ==>
              Abs(BandSum(ds, DelaysAt(ds, zs, xs, n), xs[n], |ds| + 1) - xs[n]) < eps
  {
    hide BandSum, DelaysAt, DecayedSum, AllComplementary, AllDamped;
    from := DecayVanishes(ds, zs, eps, |ds|);
    forall xs: seq<real>, n: nat | from <= n < |xs|
      ensures Abs(BandSum(ds, DelaysAt(ds, zs, xs, n), xs[n], |ds| + 1) - xs[n]) < eps
    {
      BandsSumToInput(ds, zs, xs, n);
    }
  }

  // ---- the program ----

  lemma FirstRest(ds: seq<Design>, zs: seq<Delay>, x: real)
    requires |ds| == |zs|
    ensures Rest(ds, zs, x, 0) == x
  {
  }

  /** `DF1P`. */
  class Section {
    var d: Design
    var z: Delay

    constructor (alph: real)
      requires alph != -1.0
      ensures d.Complementary() && z == Delay(0.0, 0.0)
    {
      d := Butter(alph);
      z := Delay(0.0, 0.0);
    }

    /** `processCrossover`. */
    method Split(x: real) returns (lowOut: real, highOut: real)
      modifies this
      ensures d == old(d) && z == Next(d, old(z), x)
      ensures lowOut == Low(d, old(z), x) && highOut == High(d, old(z), x)
    {
      var tmp := x * d.b;
      lowOut := tmp + z.low;
      z := z.(low := tmp - d.a * lowOut);
      highOut := x * d.bp + z.high;
      z := z.(high := x * -d.bp - d.a * highOut);
    }
  }

  const SECTIONS: nat := 9

  /** `TenBandsCrossover`. */
  class TenBands {
    const sys: seq<Section>

    ghost predicate Valid() {
      |sys| == SECTIONS && forall i, j :: 0 <= i < j < |sys| ==> sys[i] != sys[j]
    }

    /** `init10BandsCrossover` on cleared memory, given the nine values of alph. */
    constructor (alph0: real, alph1: real, alph2: real, alph3: real, alph4: real,
                 alph5: real, alph6: real, alph7: real, alph8: real)
      requires -1.0 !in {alph0, alph1, alph2, alph3, alph4, alph5, alph6, alph7, alph8}
      ensures Valid() && fresh(sys)
      ensures forall k :: 0 <= k < SECTIONS ==> sys[k].d.Complementary() && sys[k].z == Delay(0.0, 0.0)
    {
      hide Design.Complementary, Butter;
      var s0 := new Section(alph0);
      var s1 := new Section(alph1);
      var s2 := new Section(alph2);
      var s3 := new Section(alph3);
      var s4 := new Section(alph4);
      var s5 := new Section(alph5);
      var s6 := new Section(alph6);
      var s7 := new Section(alph7);
      var s8 := new Section(alph8);
      sys := [s0, s1, s2, s3, s4, s5, s6, s7, s8];
    }

    ghost function Designs(): (r: seq<Design>)
      reads sys
    {
      seq(|sys|, k requires 0 <= k < |sys| reads sys => sys[k].d)
    }

    ghost function Delays(): (r: seq<Delay>)
      reads sys
    {
      seq(|sys|, k requires 0 <= k < |sys| reads sys => sys[k].z)
    }

    /** The first k sections have run on what their predecessors left over of x. */
    ghost predicate RunUpTo(ds: seq<Design>, zs: seq<Delay>, x: real, k: nat)
      reads sys
    {
      && Valid() && |ds| == |zs| == SECTIONS
      && forall j :: 0 <= j < SECTIONS ==>
           sys[j].d == ds[j] && sys[j].z == if j < k then Next(ds[j], zs[j], Rest(ds, zs, x, j)) else zs[j]
    }

    lemma AllRun(ds: seq<Design>, zs: seq<Delay>, x: real)
      requires RunUpTo(ds, zs, x, SECTIONS)
      ensures Designs() == ds && Delays() == Advance(ds, zs, x)
      ensures Rest(ds, zs, x, SECTIONS) == Band(ds, zs, x, SECTIONS)
    {
      hide Next, Rest;
    }

    method SplitAt(k: nat, rest: real, x: real, ghost ds: seq<Design>, ghost zs: seq<Delay>)
      returns (lowOut: real, highOut: real)
      requires RunUpTo(ds, zs, x, k) && k < SECTIONS && rest == Rest(ds, zs, x, k)
      modifies sys[k]
      ensures RunUpTo(ds, zs, x, k + 1)
      ensures lowOut == Band(ds, zs, x, k) && highOut == Rest(ds, zs, x, k + 1)
    {
      lowOut, highOut := sys[k].Split(rest);
      hide Low, High, Next;
    }

    /** `process10BandsCrossover`. */
    method Process(x: real) returns (low: real, mid1: real, mid2: real, mid3: real, mid4: real,
                                     mid5: real, mid6: real, mid7: real, mid8: real, high: real)
      requires Valid()
      modifies sys
      ensures Designs() == old(Designs()) && Delays() == Advance(old(Designs()), old(Delays()), x)
      ensures var ds, zs := old(Designs()), old(Delays());
              && low == Band(ds, zs, x, 0) && mid1 == Band(ds, zs, x, 1) && mid2 == Band(ds, zs, x, 2)
              && mid3 == Band(ds, zs, x, 3) && mid4 == Band(ds, zs, x, 4) && mid5 == Band(ds, zs, x, 5)
              && mid6 == Band(ds, zs, x, 6) && mid7 == Band(ds, zs, x, 7) && mid8 == Band(ds, zs, x, 8)
              && high == Band(ds, zs, x, 9)
    {
      ghost var ds, zs := Designs(), Delays();
      assert RunUpTo(ds, zs, x, 0);
      hide Low, High, Next, Rest, Band, RunUpTo;
      FirstRest(ds, zs, x);
      var tmp;
      low, tmp := SplitAt(0, x, x, ds, zs);
      mid1, tmp := SplitAt(1, tmp, x, ds, zs);
      mid2, tmp := SplitAt(2, tmp, x, ds, zs);
      mid3, tmp := SplitAt(3, tmp, x, ds, zs);
      mid4, tmp := SplitAt(4, tmp, x, ds, zs);
      mid5, tmp := SplitAt(5, tmp, x, ds, zs);
      mid6, tmp := SplitAt(6, tmp, x, ds, zs);
      mid7, tmp := SplitAt(7, tmp, x, ds, zs);
      mid8, high := SplitAt(8, tmp, x, ds, zs);
      AllRun(ds, zs, x);
    }
  }
}
