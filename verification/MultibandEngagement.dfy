/**
 When the distortion stage of `vst/src/engine/multibandDist.c` cannot run away: over all inputs, from any
 filter state, with the twofold oversampling the effect picks below 96 kHz and without it. What decides is
 the part of the stage that is a straight line in its input.
 */
module MultibandEngagement {
  import opened Reals
  import opened Shapers
  import opened Biquads
  import opened MultibandSettings
  import opened Oversampler
  import opened Stability
  import opened MultibandBounds
  import MB = MultibandSpec

  // ---- the filters are straight lines in each of their inputs ----

  /** What the first k sections let through of a sample one sample later. */
  function Aftermath(os: seq<Lowpass>, k: nat): real
    requires k <= |os|
  {
    if k == 0 then 0.0 else Aftermath(os, k - 1) + (2.0 + os[k - 1].a1)
  }

  /** The part of a section's next output that its present input does not reach. */
  function Older(l: Lowpass, m: Memory): real {
    match m
    case Transposed(_, z2) => z2
    case Direct(x1, _, y1, _) => x1 + l.a2 * y1
  }

  lemma OutOfSection(l: Lowpass, m: Memory, x: real)
    ensures Biquads.Out(Section(l), m, x) == Biquads.Out(Section(l), m, 0.0) + x
  {
  }

  lemma NextOutOfSection(l: Lowpass, m: Memory, s: real, t: real)
    ensures Biquads.Out(Section(l), Next(Section(l), m, s), t)
         == t + 2.0 * s + l.a1 * Biquads.Out(Section(l), m, s) + Older(l, m)
  {
  }

  lemma {:induction false} ThroughStraight(os: seq<Lowpass>, ms: seq<Memory>, x: real, k: nat)
    requires |os| == |ms| && k <= |os|
    ensures Through(Sections(os), ms, x, k) == Through(Sections(os), ms, 0.0, k) + x
  {
    hide Section, Biquads.Out;
    if k != 0 {
      ThroughStraight(os, ms, x, k - 1);
      OutOfSection(os[k - 1], ms[k - 1], Through(Sections(os), ms, x, k - 1));
      OutOfSection(os[k - 1], ms[k - 1], Through(Sections(os), ms, 0.0, k - 1));
    }
  }

  /** The second of two samples: each of the two inputs moves it along a straight line. */
  lemma {:induction false} SecondStraight(os: seq<Lowpass>, ms: seq<Memory>, s: real, t: real, k: nat)
    requires |os| == |ms| && k <= |os|
    ensures var cs := Sections(os);
            Through(cs, Advance(cs, ms, s), t, k)
              == Through(cs, Advance(cs, ms, 0.0), 0.0, k) + t + Gained(s, Aftermath(os, k))
  {
    hide Section, Sections, Biquads.Out, Next, Gained;
    var cs := Sections(os);
    if k == 0 {
      NoGain(s);
    } else {
      SecondStraight(os, ms, s, t, k - 1);
      SecondStep(os, ms, s, t, k);
      SecondStep(os, ms, 0.0, 0.0, k);
      ThroughStraight(os, ms, s, k - 1);
      ThroughStraight(os, ms, s, k);
      MoreAftermath(s, Aftermath(os, k - 1), os[k - 1].a1, Through(cs, ms, 0.0, k));
    }
  }

  lemma NoGain(s: real)
    ensures Gained(s, 0.0) == 0.0
  {
  }

  lemma SecondStep(os: seq<Lowpass>, ms: seq<Memory>, s: real, t: real, k: nat)
    requires |os| == |ms| && 0 < k <= |os|
    ensures var cs := Sections(os);
            Through(cs, Advance(cs, ms, s), t, k)
              == Through(cs, Advance(cs, ms, s), t, k - 1) + 2.0 * Through(cs, ms, s, k - 1)
                   + os[k - 1].a1 * Through(cs, ms, s, k) + Older(os[k - 1], ms[k - 1])
  {
    hide Section, Biquads.Out, Next, Older;
    var cs := Sections(os);
    assert cs[k - 1] == Section(os[k - 1]);
    assert Through(cs, ms, s, k) == Biquads.Out(cs[k - 1], ms[k - 1], Through(cs, ms, s, k - 1));
    assert Advance(cs, ms, s)[k - 1] == Next(cs[k - 1], ms[k - 1], Through(cs, ms, s, k - 1));
    NextOutOfSection(os[k - 1], ms[k - 1], Through(cs, ms, s, k - 1), Through(cs, Advance(cs, ms, s), t, k - 1));
  }

  lemma MoreAftermath(s: real, h: real, a1: real, y: real)
    ensures Gained(s, h + (2.0 + a1)) == Gained(s, h) + 2.0 * s + a1 * s
    ensures a1 * (y + s) == a1 * y + a1 * s
  {
  }

  /** A stream of two samples. */
  lemma TwoSamples(cs: seq<Coeffs>, ms: seq<Memory>, p: real, q: real)
    requires |cs| == |ms|
    ensures CascadeStream(cs, ms, [p, q]) == [Through(cs, ms, p, |cs|), Through(cs, Advance(cs, ms, p), q, |cs|)]
  {
    hide CascadeStream, Biquads.After, Through, Advance;
    CascadeOfOne(cs, ms, p);
    CascadeAppend(cs, ms, [p], q);
    assert [p] + [q] == [p, q];
  }

  // ---- the stage ----

  /** How steeply the stage rises with its input, apart from what is bounded. */
  function Slope(g: MB.Rig): real
    requires g.osFactor == 2 ==> |g.os| == STAGE
  {
    var dry := 1.0 - g.s.shaperBlend;
    if g.osFactor == 2 then 4.0 * Gained(Gained(Aftermath(g.os, STAGE), Gained(g.osGain, g.osGain)), dry) else dry
  }

  /** The two samples at the higher rate for one driven sample. */
  lemma UpPair(os: seq<Lowpass>, ms: seq<Memory>, gain: real, u: real)
    requires |os| == |ms| == STAGE
    ensures var cs := Sections(os);
            var t, w := Through(cs, ms, 0.0, STAGE), Through(cs, Advance(cs, ms, 0.0), 0.0, STAGE);
            UpBlock(os, ms, 2, gain, u)
              == [Gained(t + 2.0 * u, gain), Gained(w + Gained(2.0 * u, Aftermath(os, STAGE)), gain)]
  {
    hide Through, Advance, CascadeStream, Aftermath, Gained, Sections;
    var cs := Sections(os);
    StuffedPair(u);
    TwoSamples(cs, ms, 2.0 * u, 0.0);
    ThroughStraight(os, ms, 2.0 * u, STAGE);
    SecondStraight(os, ms, 2.0 * u, 0.0, STAGE);
    assert UpBlock(os, ms, 2, gain, u) == Scaled(gain, CascadeStream(cs, ms, [2.0 * u, 0.0]));
  }

  lemma StuffedPair(u: real)
    ensures Stuffed(u, 2) == [2.0 * u, 0.0]
  {
    assert Gained(u, 2 as real) == 2.0 * u;
  }

  lemma DownPair(os: seq<Lowpass>, ms: seq<Memory>, gain: real, p: real, q: real)
    requires |os| == |ms| == STAGE
    ensures var cs := Sections(os);
            DownSample(os, ms, gain, [p, q])
              == Gained(Through(cs, Advance(cs, ms, 0.0), 0.0, STAGE) + q + Gained(p, Aftermath(os, STAGE)), gain)
  {
    hide Through, Advance, CascadeStream, Aftermath, Sections;
    TwoSamples(Sections(os), ms, p, q);
    SecondStraight(os, ms, p, q, STAGE);
    assert DownSample(os, ms, gain, [p, q]) == CascadeStream(Sections(os), ms, [p, q])[1] * gain;
  }

  /** One oversampled sample, with all that the filters remember collected in three numbers. */
  lemma OversampledSample(g: MB.Rig, c: MB.Channel, u: real) returns (f0: real, f1: real)
    requires g.Valid() && c.Valid() && g.osFactor == 2
    ensures Abs(f0) <= Bound(g.cv, g.s.model) && Abs(f1) <= Bound(g.cv, g.s.model)
    ensures var cs, h := Sections(g.os), Aftermath(g.os, STAGE);
            var t, w := Through(cs, c.up, 0.0, STAGE), Through(cs, Advance(cs, c.up, 0.0), 0.0, STAGE);
            var d := Through(cs, Advance(cs, c.down, 0.0), 0.0, STAGE);
            MB.Distorted(g, c.up, c.down, u)
              == Combined(t, w, d, h, g.osGain, g.s.shaperBlend, u, f0, f1)
  {
    hide Through, Advance, Aftermath, Shape, Bound, InRange, Curves.Lawful, Mix, Gained, Sections, UpBlock, DownSample;
    var us := UpBlock(g.os, c.up, g.osFactor, g.osGain, u);
    UpPair(g.os, c.up, g.osGain, u);
    InRangeShape(g.s);
    f0, f1 := Shape(g.cv, g.s.model, us[0], g.s.shape), Shape(g.cv, g.s.model, us[1], g.s.shape);
    ShapeBounded(g.cv, g.s.model, us[0], g.s.shape);
    ShapeBounded(g.cv, g.s.model, us[1], g.s.shape);
    var p, q := Mix(us[0], f0, g.s.shaperBlend), Mix(us[1], f1, g.s.shaperBlend);
    assert MB.OverBlock(g, c.up, u) == [p, q];
    DownPair(g.os, c.down, g.osGain, p, q);
  }

  function Combined(t: real, w: real, d: real, h: real, gain: real, blend: real, u: real, f0: real, f1: real): real {
    var p := Mix(Gained(t + 2.0 * u, gain), f0, blend);
    var q := Mix(Gained(w + Gained(2.0 * u, h), gain), f1, blend);
    Gained(d + q + Gained(p, h), gain)
  }

  /** What does not grow with the input: the memories' share, and the shaper's. */
  function Offset(t: real, w: real, d: real, h: real, gain: real, blend: real): real {
    Gained(d + Gained(Gained(w + Gained(t, h), gain), 1.0 - blend), gain)
  }

  lemma BlendsTogether(x: real, y: real, f0: real, f1: real, h: real, blend: real)
    ensures Mix(y, f1, blend) + Gained(Mix(x, f0, blend), h)
         == Gained(y + Gained(x, h), 1.0 - blend) + Gained(f1 + Gained(f0, h), blend)
  {
    var dry := 1.0 - blend;
    assert (x * dry + f0 * blend) * h == (x * h) * dry + (f0 * h) * blend;
    assert (y + x * h) * dry == y * dry + (x * h) * dry;
    assert (f1 + f0 * h) * blend == f1 * blend + (f0 * h) * blend;
  }

  lemma TwoUps(t: real, w: real, u: real, h: real, gain: real)
    ensures Gained(w + Gained(2.0 * u, h), gain) + Gained(Gained(t + 2.0 * u, gain), h)
         == Gained(w + Gained(t, h), gain) + 4.0 * Gained(u, Gained(h, gain))
  {
    var g := h * gain;
    assert ((t + 2.0 * u) * gain) * h == t * g + 2.0 * (u * g);
    assert (w + 2.0 * u * h) * gain == w * gain + 2.0 * (u * g);
    assert (w + t * h) * gain == w * gain + t * g;
  }

  lemma Regroup(u: real, h: real, gain: real, dry: real)
    ensures Gained(Gained(4.0 * Gained(u, Gained(h, gain)), dry), gain)
         == Gained(u, 4.0 * Gained(Gained(h, Gained(gain, gain)), dry))
  {
    assert ((u * (h * gain)) * dry) * gain == u * ((h * (gain * gain)) * dry);
  }

  lemma CombinedIsStraight(t: real, w: real, d: real, h: real, gain: real, blend: real, u: real, f0: real, f1: real)
    ensures Combined(t, w, d, h, gain, blend, u, f0, f1)
         == Gained(u, 4.0 * Gained(Gained(h, Gained(gain, gain)), 1.0 - blend)) + Offset(t, w, d, h, gain, blend)
              + Gained(Gained(f1 + Gained(f0, h), blend), gain)
  {
    var dry := 1.0 - blend;
    var x, y := Gained(t + 2.0 * u, gain), Gained(w + Gained(2.0 * u, h), gain);
    BlendsTogether(x, y, f0, f1, h, blend);
    TwoUps(t, w, u, h, gain);
    var kept, moved := Gained(w + Gained(t, h), gain), 4.0 * Gained(u, Gained(h, gain));
    var f := Gained(f1 + Gained(f0, h), blend);
    SumGained(kept, moved, dry);
    SumGained(d + Gained(kept, dry), Gained(moved, dry), gain);
    SumGained(d + Gained(kept, dry) + Gained(moved, dry), f, gain);
    Regroup(u, h, gain, dry);
    hide Gained, Mix;
    assert Mix(y, f1, blend) + Gained(Mix(x, f0, blend), h) == Gained(kept, dry) + Gained(moved, dry) + f;
  }

  /** How far from the straight line the stage can get. */
  function Spread(t: real, w: real, d: real, h: real, gain: real, blend: real, b: real): real {
    Abs(Offset(t, w, d, h, gain, blend)) + Gained(Gained(b + Gained(b, Abs(h)), 1.0), Abs(gain))
  }

  lemma CombinedNear(t: real, w: real, d: real, h: real, gain: real, blend: real, u: real, f0: real, f1: real, b: real)
    requires 0.0 <= blend <= 1.0 && Abs(f0) <= b && Abs(f1) <= b
    ensures var slope := 4.0 * Gained(Gained(h, Gained(gain, gain)), 1.0 - blend);
            Abs(Combined(t, w, d, h, gain, blend, u, f0, f1) - Gained(u, slope)) <= Spread(t, w, d, h, gain, blend, b)
  {
    hide Combined, Offset, Gained;
    CombinedIsStraight(t, w, d, h, gain, blend, u, f0, f1);
    GainedBounded(f0, h, b, Abs(h));
    var f := f1 + Gained(f0, h);
    GainedBounded(f, blend, b + Gained(b, Abs(h)), 1.0);
    GainedBounded(Gained(f, blend), gain, Gained(b + Gained(b, Abs(h)), 1.0), Abs(gain));
  }

  lemma BlendedNear(g: MB.Rig, u: real)
    requires g.Valid()
    ensures Abs(MB.Blended(g, u) - Gained(u, 1.0 - g.s.shaperBlend)) <= Bound(g.cv, g.s.model)
  {
    hide Shape, Bound, InRange, Curves.Lawful;
    InRangeShape(g.s);
    InRangeBlend(g.s);
    ShapeBounded(g.cv, g.s.model, u, g.s.shape);
    var f := Shape(g.cv, g.s.model, u, g.s.shape);
    assert MB.Blended(g, u) == Gained(u, 1.0 - g.s.shaperBlend) + Gained(f, g.s.shaperBlend);
    GainedBounded(f, g.s.shaperBlend, Bound(g.cv, g.s.model), 1.0);
    assert Gained(Bound(g.cv, g.s.model), 1.0) == Bound(g.cv, g.s.model);
    hide MB.Blended, Gained;
  }

  /** Whatever the filters remember, the stage stays near a straight line through its inputs. */
  lemma StageIsStraight(g: MB.Rig, c: MB.Channel) returns (d: real)
    requires g.Valid() && c.Valid() && g.osFactor <= 2
    ensures forall u :: Abs(MB.Distorted(g, c.up, c.down, u) - Gained(u, Slope(g))) <= d
  {
    hide Through, Advance, Aftermath, Bound, InRange, Curves.Lawful, Gained, Sections, Combined, Spread, MB.Blended,
         MB.OverBlock, DownSample, Abs;
    var b := Bound(g.cv, g.s.model);
    InRangeBlend(g.s);
    if g.osFactor == 2 {
      var cs, h := Sections(g.os), Aftermath(g.os, STAGE);
      var t, w := Through(cs, c.up, 0.0, STAGE), Through(cs, Advance(cs, c.up, 0.0), 0.0, STAGE);
      var e := Through(cs, Advance(cs, c.down, 0.0), 0.0, STAGE);
      d := Spread(t, w, e, h, g.osGain, g.s.shaperBlend, b);
      forall u ensures Abs(MB.Distorted(g, c.up, c.down, u) - Gained(u, Slope(g))) <= d {
        var f0, f1 := OversampledSample(g, c, u);
        assert MB.Distorted(g, c.up, c.down, u) == Combined(t, w, e, h, g.osGain, g.s.shaperBlend, u, f0, f1);
        assert Slope(g) == 4.0 * Gained(Gained(h, Gained(g.osGain, g.osGain)), 1.0 - g.s.shaperBlend);
        CombinedNear(t, w, e, h, g.osGain, g.s.shaperBlend, u, f0, f1, b);
      }
    } else {
      d := b;
      forall u ensures Abs(MB.Distorted(g, c.up, c.down, u) - Gained(u, Slope(g))) <= d {
        BlendedNear(g, u);
      }
    }
  }

  lemma LineEscapes(slope: real, k: real) returns (u: real)
    requires slope != 0.0
    ensures k < Abs(Gained(u, slope))
  {
    u := (Abs(k) + 1.0) / slope;
    assert u * slope == Abs(k) + 1.0;
  }

  /** Over all inputs the stage has a bound exactly when its line is flat. */
  lemma StageBoundedIffFlat(g: MB.Rig, c: MB.Channel)
    requires g.Valid() && c.Valid() && g.osFactor <= 2
    ensures (exists e :: DistortsWithin(g, c, e)) <==> Slope(g) == 0.0
  {
    hide MB.Distorted, Slope, InRange, Curves.Lawful;
    var d := StageIsStraight(g, c);
    if Slope(g) == 0.0 {
      forall u ensures Abs(MB.Distorted(g, c.up, c.down, u)) <= d {
        assert Abs(MB.Distorted(g, c.up, c.down, u) - Gained(u, Slope(g))) <= d;
      }
      assert DistortsWithin(g, c, d);
    } else {
      forall e ensures !DistortsWithin(g, c, e) {
        var u := LineEscapes(Slope(g), d + e);
        assert Abs(MB.Distorted(g, c.up, c.down, u) - Gained(u, Slope(g))) <= d;
        assert e < Abs(MB.Distorted(g, c.up, c.down, u));
      }
    }
  }

  /** The oversampling filters let something of a sample through. */
  predicate LetsThrough(g: MB.Rig)
    requires |g.os| == STAGE
  {
    g.osFactor == 2 ==> g.osGain != 0.0 && Aftermath(g.os, STAGE) != 0.0
  }

  lemma FlatIff(g: MB.Rig)
    requires |g.os| == STAGE
    ensures Slope(g) == 0.0 <==> g.s.shaperBlend == 1.0 || !LetsThrough(g)
  {
    hide Aftermath;
    var h, g2, dry := Aftermath(g.os, STAGE), Gained(g.osGain, g.osGain), 1.0 - g.s.shaperBlend;
    ZeroProduct(g.osGain, g.osGain);
    ZeroProduct(h, g2);
    ZeroProduct(Gained(h, g2), dry);
  }

  lemma ZeroProduct(x: real, y: real)
    ensures Gained(x, y) == 0.0 <==> x == 0.0 || y == 0.0
    ensures x * y == Gained(x, y)
  {
    ProductNonNegative(Abs(x), Abs(y));
    AbsProduct(x, y);
  }

  /** The distortion stage is bounded over all inputs, whatever its filters remember, exactly when the
      blend is complete: any dry signal left in it passes the band filter's output through unbounded,
      with oversampling too unless the filters pass nothing at all. */
  lemma StageBoundedIffEngaged(g: MB.Rig, c: MB.Channel)
    requires g.Valid() && c.Valid() && g.osFactor <= 2
    ensures (exists e :: DistortsWithin(g, c, e)) <==> g.s.shaperBlend == 1.0 || !LetsThrough(g)
  {
    hide MB.Distorted, Slope, LetsThrough, DistortsWithin;
    StageBoundedIffFlat(g, c);
    FlatIff(g);
  }

  lemma {:induction false} DampedLetsThrough(os: seq<Lowpass>, k: nat)
    requires k <= |os| && AllDamped(os)
    ensures if k == 0 then Aftermath(os, k) == 0.0 else 0.0 < Aftermath(os, k)
  {
    if k != 0 {
      DampedLetsThrough(os, k - 1);
      assert Damped(os[k - 1]);
    }
  }

  /** With the filters an oversampling design gives, the blend alone decides. */
  lemma DampedStageBoundedIffEngaged(g: MB.Rig, c: MB.Channel)
    requires g.Valid() && c.Valid() && g.osFactor <= 2
    requires g.osFactor == 2 ==> AllDamped(g.os) && g.osGain != 0.0
    ensures (exists e :: DistortsWithin(g, c, e)) <==> g.s.shaperBlend == 1.0
  {
    hide DistortsWithin, AllDamped, Aftermath;
    StageBoundedIffEngaged(g, c);
    if g.osFactor == 2 {
      DampedLetsThrough(g.os, STAGE);
    }
  }
}
