/**
 Bounded output over whole runs of `vst/src/engine/multibandDist.c`, at every sample rate and for both
 routings.
 */
module MultibandRuns {
  import opened Reals
  import opened Shapers
  import opened Biquads
  import opened DelayLine
  import opened MultibandSettings
  import opened Oversampler
  import opened Stability
  import opened BandList
  import opened MultibandBounds
  import MB = MultibandSpec

  /** What stays the same while settings, bands and rates change: the curves and the filter design. */
  datatype Kit = Kit(cv: Curves, os: seq<Lowpass>, gain: real) {
    ghost predicate Valid() { cv.Lawful() && |os| == STAGE }

    ghost predicate Equips(g: MB.Rig) { g.cv == cv && g.os == os && g.osGain == gain }
  }

  /** A run in which the settings, the bands and the rates may change before any sample; `bands` is what
      the band filter's sections remember by then, whoever cleared or kept them. */
  datatype Sample = Sample(rig: MB.Rig, phase: real, x: real, bands: seq<Memory>)

  ghost predicate AllEngaged(kit: Kit, run: seq<Sample>) {
    forall n :: 0 <= n < |run| ==> Engaged(run[n].rig) && kit.Equips(run[n].rig) && |run[n].bands| == MAX_BANDS
  }

  lemma EngagedAt(kit: Kit, run: seq<Sample>, n: nat)
    requires AllEngaged(kit, run) && n < |run|
    ensures Engaged(run[n].rig) && kit.Equips(run[n].rig) && run[n].rig.Valid()
    ensures kit.Valid() && 0 < run[n].rig.osFactor && |run[n].bands| == MAX_BANDS
  {
  }

  /** The channel after n samples. */
  ghost function ChannelAt(kit: Kit, c: MB.Channel, run: seq<Sample>, n: nat): (r: MB.Channel)
    requires AllEngaged(kit, run) && c.Valid() && n <= |run|
    ensures r.Valid()
    decreases n, 0
  {
    if n == 0 then c else MB.After(run[n - 1].rig, Entering(kit, c, run, n - 1), run[n - 1].phase, run[n - 1].x)
  }

  /** The channel as sample n finds it. */
  ghost function Entering(kit: Kit, c: MB.Channel, run: seq<Sample>, n: nat): (r: MB.Channel)
    requires AllEngaged(kit, run) && c.Valid() && n < |run|
    ensures r.Valid()
    decreases n, 1
  {
    ChannelAt(kit, c, run, n).(bands := run[n].bands)
  }

  ghost function SignalsAt(kit: Kit, c: MB.Channel, run: seq<Sample>, n: nat): MB.Signals
    requires AllEngaged(kit, run) && c.Valid() && n < |run|
  {
    MB.SignalsOf(run[n].rig, Entering(kit, c, run, n), run[n].x)
  }

  // ---- the oversampling filter ----

  ghost predicate Oversampled(run: seq<Sample>) {
    exists n :: 0 <= n < |run| && run[n].rig.osFactor > 1
  }

  /** What one sample feeds into the downsampling filter when the shaper is driven with u. */
  ghost function BlockOf(g: MB.Rig, c: MB.Channel, u: real): seq<real>
    requires g.Valid() && c.Valid()
  {
    if g.osFactor > 1 then MB.OverBlock(g, c.up, u) else []
  }

  /** Everything fed into it by the first n samples. */
  ghost function Fed(kit: Kit, c: MB.Channel, run: seq<Sample>, n: nat): seq<real>
    requires AllEngaged(kit, run) && c.Valid() && n <= |run|
  {
    if n == 0 then []
    else
      var before := Entering(kit, c, run, n - 1);
      Fed(kit, c, run, n - 1) + BlockOf(run[n - 1].rig, before, SignalsAt(kit, c, run, n - 1).driven)
  }

  lemma BlockWithin(g: MB.Rig, c: MB.Channel, u: real, m: real)
    requires Engaged(g) && c.Valid() && Covers(g.cv, m)
    ensures AllWithin(BlockOf(g, c, u), m)
  {
    hide Covers, MB.Blended, UpBlock, InRange, Curves.Lawful;
    if g.osFactor > 1 {
      var us := UpBlock(g.os, c.up, g.osFactor, g.osGain, u);
      forall j | 0 <= j < |us| ensures Abs(MB.BlendedAll(g, us)[j]) <= m {
        BlendedWithin(g, m, us[j]);
      }
    }
  }

  lemma DownStep(g: MB.Rig, c: MB.Channel, phase: real, x: real)
    requires g.Valid() && c.Valid()
    ensures var block := BlockOf(g, c, MB.SignalsOf(g, c, x).driven);
            MB.After(g, c, phase, x).down
              == if g.osFactor > 1 then Biquads.After(Sections(g.os), c.down, block) else c.down
  {
    hide MB.OverBlock, Biquads.After, MB.Distorted, MB.BandSignal, MB.BandsAfter, MB.Crushed, MB.Blocked,
         MB.ToneAfter, MB.Tilted, MB.HoldAfter, MB.LineAfter, MB.UpNext, MB.Driven, Curves.Lawful, InRange;
  }

  lemma NothingFed(kit: Kit, c: MB.Channel, run: seq<Sample>)
    requires AllEngaged(kit, run) && c.Valid()
    ensures Fed(kit, c, run, 0) == []
  {
  }

  lemma FedStep(kit: Kit, c: MB.Channel, run: seq<Sample>, n: nat)
    requires AllEngaged(kit, run) && c.Valid() && 0 < n <= |run|
    ensures var before := Entering(kit, c, run, n - 1);
            Fed(kit, c, run, n) == Fed(kit, c, run, n - 1)
                                     + BlockOf(run[n - 1].rig, before, SignalsAt(kit, c, run, n - 1).driven)
  {
    hide BlockOf, ChannelAt, Entering, SignalsAt, MB.Rig.Valid;
  }

  lemma {:induction false} FedWithin(kit: Kit, c: MB.Channel, run: seq<Sample>, m: real, n: nat)
    requires kit.Valid() && AllEngaged(kit, run) && c.Valid() && n <= |run| && Covers(kit.cv, m)
    ensures AllWithin(Fed(kit, c, run, n), m)
  {
    hide Covers, Engaged, AllEngaged, BlockOf, ChannelAt, Entering, SignalsAt, Fed, Abs, MB.Rig.Valid, Curves.Lawful;
    if n == 0 {
      NothingFed(kit, c, run);
    } else {
      FedWithin(kit, c, run, m, n - 1);
      EngagedAt(kit, run, n - 1);
      FedStep(kit, c, run, n);
      BlockWithin(run[n - 1].rig, Entering(kit, c, run, n - 1), SignalsAt(kit, c, run, n - 1).driven, m);
    }
  }

  /** The downsampling filter remembers one uninterrupted stream. */
  lemma {:induction false} DownRemembers(kit: Kit, c: MB.Channel, run: seq<Sample>, n: nat)
    requires kit.Valid() && AllEngaged(kit, run) && c.Valid() && n <= |run|
    ensures ChannelAt(kit, c, run, n).down == Biquads.After(Sections(kit.os), c.down, Fed(kit, c, run, n))
  {
    hide Engaged, BlockOf, MB.After, MB.SignalsOf, MB.Rig.Valid, Curves.Lawful, Sections;
    if n == 0 {
    } else {
      hide Biquads.After;
      DownRemembers(kit, c, run, n - 1);
      EngagedAt(kit, run, n - 1);
      var g, before := run[n - 1].rig, Entering(kit, c, run, n - 1);
      DownStep(g, before, run[n - 1].phase, run[n - 1].x);
      var block := BlockOf(g, before, SignalsAt(kit, c, run, n - 1).driven);
      CascadeOfConcat(Sections(kit.os), c.down, Fed(kit, c, run, n - 1), block);
      if g.osFactor <= 1 {
        NoBlock(g, before, SignalsAt(kit, c, run, n - 1).driven);
        assert Fed(kit, c, run, n - 1) + block == Fed(kit, c, run, n - 1);
      }
    }
  }

  lemma NoBlock(g: MB.Rig, c: MB.Channel, u: real)
    requires g.Valid() && c.Valid()
    ensures if g.osFactor <= 1 then BlockOf(g, c, u) == [] else |BlockOf(g, c, u)| == g.osFactor
  {
    hide MB.OverBlock, Curves.Lawful, InRange;
  }

  /** The last sample a stable filter gives for a block that ends a bounded stream. */
  lemma DownSampleWithin(os: seq<Lowpass>, gain: real, k: real, us: seq<real>, block: seq<real>, m: real)
    requires |os| == STAGE && Stable(os, gain, k) && 0.0 <= m && block != []
    requires AllWithin(us, m) && AllWithin(block, m)
    ensures Abs(DownSample(os, Biquads.After(Sections(os), QuietTool(), us), gain, block)) <= Gained(m, k)
  {
    hide CascadeStream, Biquads.After, Sections, Gained;
    var cs := Sections(os);
    var ys, zs := CascadeStream(cs, QuietTool(), us), CascadeStream(cs, Biquads.After(cs, QuietTool(), us), block);
    CascadeOfConcat(cs, QuietTool(), us, block);
    assert AllWithin(us + block, m);
    var last := |us| + |block| - 1;
    assert Abs(Scaled(gain, ys + zs)[last]) <= Gained(m, k);
    ScaledAt(gain, ys + zs, last);
  }

  lemma ScaledAt(gain: real, ys: seq<real>, i: nat)
    requires i < |ys|
    ensures Scaled(gain, ys)[i] == ys[i] * gain
  {
  }

  // ---- runs ----

  /** The level the stages after the shaper have to cope with, for filters of gain k. */
  function Amplitude(cv: Curves, k: real): real
    requires cv.Lawful()
  {
    Gained(Level(cv), k) + 0.5
  }

  lemma DistortionWithin(kit: Kit, k: real, c: MB.Channel, run: seq<Sample>, m: real, n: nat)
    requires kit.Valid() && AllEngaged(kit, run) && c.Valid() && n < |run| && Covers(kit.cv, m) && 0.0 <= m && 1.0 <= k
    requires Oversampled(run) ==> Stable(kit.os, kit.gain, k) && c.down == QuietTool()
    ensures run[n].rig.Valid() && DistortsWithin(run[n].rig, Entering(kit, c, run, n), Gained(m, k))
  {
    hide Covers, Stable, Engaged, MB.Rig.Valid, Curves.Lawful, ChannelAt, BlockOf, MB.Blended, AllWithin, Fed,
         DownSample, Biquads.After, Sections, AllEngaged, Gained, Abs, InRange;
    EngagedAt(kit, run, n);
    var g, before := run[n].rig, Entering(kit, c, run, n);
    FedWithin(kit, c, run, m, n);
    DownRemembers(kit, c, run, n);
    AtLeastItself(m, k);
    forall u ensures Abs(MB.Distorted(g, before.up, before.down, u)) <= Gained(m, k) {
      DistortedIs(g, before, u);
      NoBlock(g, before, u);
      if g.osFactor > 1 {
        BlockWithin(g, before, u, m);
        DownSampleWithin(kit.os, kit.gain, k, Fed(kit, c, run, n), BlockOf(g, before, u), m);
      } else {
        BlendedWithin(g, m, u);
      }
    }
  }

  lemma DistortedIs(g: MB.Rig, c: MB.Channel, u: real)
    requires g.Valid() && c.Valid()
    ensures g.osFactor > 1 ==> BlockOf(g, c, u) != []
    ensures MB.Distorted(g, c.up, c.down, u)
         == if g.osFactor > 1 then DownSample(g.os, c.down, g.osGain, BlockOf(g, c, u)) else MB.Blended(g, u)
  {
    hide MB.OverBlock, DownSample, MB.Blended, Curves.Lawful, InRange;
  }

  lemma AtLeastItself(m: real, k: real)
    requires 0.0 <= m && 1.0 <= k
    ensures m <= Gained(m, k)
  {
    ProductMonotone(m, 1.0, k);
  }

  lemma BandsDoNotMatter(d: real, c: MB.Channel, bands: seq<Memory>)
    requires Bounded(d, c)
    ensures Bounded(d, c.(bands := bands))
  {
  }

  lemma {:induction false} StaysBounded(kit: Kit, c: MB.Channel, d: real, run: seq<Sample>, n: nat)
    requires AllEngaged(kit, run) && c.Valid() && n <= |run| && Bounded(d, c)
    requires forall i: nat :: i < n ==>
               run[i].rig.Valid() && DistortsWithin(run[i].rig, Entering(kit, c, run, i), d - 0.5)
    ensures Bounded(d, ChannelAt(kit, c, run, n))
  {
    hide Bounded, DistortsWithin, MB.After, MB.Out, MB.SignalsOf, MB.Channel.Valid, MB.Rig.Valid, Curves.Lawful,
         Leak, Abs;
    if n != 0 {
      StaysBounded(kit, c, d, run, n - 1);
      EngagedAt(kit, run, n - 1);
      hide Engaged, AllEngaged;
      assert DistortsWithin(run[n - 1].rig, Entering(kit, c, run, n - 1), d - 0.5);
      BandsDoNotMatter(d, ChannelAt(kit, c, run, n - 1), run[n - 1].bands);
      StepBounded(run[n - 1].rig, Entering(kit, c, run, n - 1), d, run[n - 1].phase, run[n - 1].x);
    }
  }

  /** The state `MultibandDistEnable` leaves behind. */
  predicate Fresh(c: MB.Channel) {
    c.shHold == 0.0 && c.dcX == 0.0 && c.dcY == 0.0 && c.toneZ == 0.0 && c.line == []
  }

  lemma FreshIsBounded(c: MB.Channel, d: real)
    requires Fresh(c) && 0.0 <= d
    ensures Bounded(d, c)
  {
  }

  lemma OutputWithin(kit: Kit, k: real, c: MB.Channel, run: seq<Sample>, bound: real, n: nat)
    requires kit.Valid() && AllEngaged(kit, run) && c.Valid() && Fresh(c) && n < |run| && 1.0 <= k
    requires Oversampled(run) ==> Stable(kit.os, kit.gain, k) && c.down == QuietTool()
    requires forall i :: 0 <= i < |run| ==> Abs(run[i].x) <= bound
    ensures run[n].rig.Valid()
    ensures Abs(MB.Out(run[n].rig, Entering(kit, c, run, n), run[n].phase, run[n].x))
         <= bound + Leak(run[n].rig.s, SignalsAt(kit, c, run, n).b) + 160.0 * Amplitude(kit.cv, k)
  {
    hide Bounded, Covers, Level, Curves.Lawful, MB.After, MB.Out, MB.SignalsOf, MB.Channel.Valid, ChannelAt, Fresh,
         Stable, Oversampled, Gained, Leak, Engaged, AllEngaged, Abs, DistortsWithin, MB.Rig.Valid;
    var m, d := Level(kit.cv), Amplitude(kit.cv, k);
    LevelCovers(kit.cv);
    AtLeastItself(m, k);
    FreshIsBounded(c, d);
    forall i: nat | i < |run|
      ensures run[i].rig.Valid() && DistortsWithin(run[i].rig, Entering(kit, c, run, i), d - 0.5)
    {
      DistortionWithin(kit, k, c, run, m, i);
    }
    StaysBounded(kit, c, d, run, n);
    EngagedAt(kit, run, n);
    BandsDoNotMatter(d, ChannelAt(kit, c, run, n), run[n].bands);
    assert DistortsWithin(run[n].rig, Entering(kit, c, run, n), d - 0.5);
    StepBounded(run[n].rig, Entering(kit, c, run, n), d, run[n].phase, run[n].x);
  }

  /** Bounded output over every run from a fresh start: inputs within X give outputs within X plus a
      constant, whatever the band coefficients and the filter state do and whenever they change; with
      split routing the signal the band filter takes out of the input adds to that. The constant depends
      on the curves and on the oversampling filters, which have to be damped where they are used. */
  lemma OutputStaysBounded(kit: Kit, c: MB.Channel, run: seq<Sample>, bound: real, n: nat)
    requires kit.Valid() && AllEngaged(kit, run) && c.Valid() && Fresh(c) && n < |run|
    requires Oversampled(run) ==> AllDamped(kit.os) && c.down == QuietTool()
    requires forall i :: 0 <= i < |run| ==> Abs(run[i].x) <= bound
    ensures run[n].rig.Valid()
    ensures Abs(MB.Out(run[n].rig, Entering(kit, c, run, n), run[n].phase, run[n].x))
         <= bound + Leak(run[n].rig.s, SignalsAt(kit, c, run, n).b)
              + 160.0 * Amplitude(kit.cv, FilterGain(kit.os, kit.gain))
  {
    hide Curves.Lawful, MB.Out, MB.Channel.Valid, ChannelAt, Entering, SignalsAt, Fresh, Stable, Oversampled, Leak,
         AllEngaged, Abs, MB.Rig.Valid, Amplitude, FilterGain, AllDamped;
    if Oversampled(run) {
      DampedIsStable(kit.os, kit.gain);
    }
    OutputWithin(kit, FilterGain(kit.os, kit.gain), c, run, bound, n);
  }

  // ---- both channels of one uninterrupted stream ----

  ghost function LeftRun(g: MB.Rig, st: MB.Stereo, xs: seq<(real, real)>): (run: seq<Sample>)
    requires g.Valid() && st.Valid()
    ensures |run| == |xs|
  {
    seq(|xs|, n requires 0 <= n < |xs| => Sample(g, MB.StateAt(g, st, xs, n).chPhase, xs[n].0,
                                              MB.StateAt(g, st, xs, n).left.bands))
  }

  ghost function RightRun(g: MB.Rig, st: MB.Stereo, xs: seq<(real, real)>): (run: seq<Sample>)
    requires g.Valid() && st.Valid()
    ensures |run| == |xs|
  {
    seq(|xs|, n requires 0 <= n < |xs| => Sample(g, MB.StateAt(g, st, xs, n).chPhase + g.s.chSpread, xs[n].1,
                                              MB.StateAt(g, st, xs, n).right.bands))
  }

  lemma StereoEngaged(kit: Kit, g: MB.Rig, st: MB.Stereo, xs: seq<(real, real)>)
    requires Engaged(g) && kit.Equips(g) && st.Valid()
    ensures AllEngaged(kit, LeftRun(g, st, xs)) && AllEngaged(kit, RightRun(g, st, xs))
  {
    hide MB.StateAt, MB.Rig.Valid;
  }

  lemma ChannelsAtStart(kit: Kit, g: MB.Rig, st: MB.Stereo, xs: seq<(real, real)>)
    requires Engaged(g) && st.Valid() && AllEngaged(kit, LeftRun(g, st, xs)) && AllEngaged(kit, RightRun(g, st, xs))
    ensures ChannelAt(kit, st.left, LeftRun(g, st, xs), 0) == st.left && MB.StateAt(g, st, xs, 0) == st
    ensures ChannelAt(kit, st.right, RightRun(g, st, xs), 0) == st.right
  {
    hide LeftRun, RightRun, AllEngaged, MB.Rig.Valid;
  }

  lemma RunsStep(kit: Kit, g: MB.Rig, st: MB.Stereo, xs: seq<(real, real)>, n: nat)
    requires Engaged(g) && st.Valid() && 0 < n <= |xs|
    requires AllEngaged(kit, LeftRun(g, st, xs)) && AllEngaged(kit, RightRun(g, st, xs))
    requires ChannelAt(kit, st.left, LeftRun(g, st, xs), n - 1) == MB.StateAt(g, st, xs, n - 1).left
    requires ChannelAt(kit, st.right, RightRun(g, st, xs), n - 1) == MB.StateAt(g, st, xs, n - 1).right
    ensures var e := MB.StateAt(g, st, xs, n - 1);
            && ChannelAt(kit, st.left, LeftRun(g, st, xs), n) == MB.After(g, e.left, e.chPhase, xs[n - 1].0)
            && ChannelAt(kit, st.right, RightRun(g, st, xs), n)
                 == MB.After(g, e.right, e.chPhase + g.s.chSpread, xs[n - 1].1)
  {
    hide MB.StateAt, AllEngaged, MB.Rig.Valid, MB.After, MB.Channel.Valid;
  }

  lemma OneMoreOfStream(g: MB.Rig, st: MB.Stereo, xs: seq<(real, real)>, n: nat)
    requires Engaged(g) && st.Valid() && 0 < n <= |xs|
    ensures MB.StateAt(g, st, xs, n) == MB.StereoAfter(g, MB.StateAt(g, st, xs, n - 1), xs[n - 1])
  {
    hide MB.StereoAfter, MB.StateAt, MB.Rig.Valid;
    MB.StateOneMore(g, st, xs, n);
  }

  lemma {:induction false} ChannelsOfStereo(kit: Kit, g: MB.Rig, st: MB.Stereo, xs: seq<(real, real)>, n: nat)
    requires Engaged(g) && kit.Equips(g) && st.Valid() && n <= |xs|
    ensures AllEngaged(kit, LeftRun(g, st, xs)) && AllEngaged(kit, RightRun(g, st, xs))
    ensures ChannelAt(kit, st.left, LeftRun(g, st, xs), n) == MB.StateAt(g, st, xs, n).left
    ensures ChannelAt(kit, st.right, RightRun(g, st, xs), n) == MB.StateAt(g, st, xs, n).right
  {
    hide MB.After, MB.StateAt, ChannelAt, LeftRun, RightRun, MB.Rig.Valid, Engaged, AllEngaged, Kit.Equips,
         MB.Channel.Valid, MB.Stereo.Valid;
    StereoEngaged(kit, g, st, xs);
    ChannelsAtStart(kit, g, st, xs);
    if n != 0 {
      ChannelsOfStereo(kit, g, st, xs, n - 1);
      OneMoreOfStream(g, st, xs, n);
      RunsStep(kit, g, st, xs, n);
    }
  }

  /** The same for the two channels of one uninterrupted stream. */
  lemma StereoOutputBounded(g: MB.Rig, st: MB.Stereo, xs: seq<(real, real)>, bound: real, n: nat)
    requires Engaged(g) && st.Valid() && Fresh(st.left) && Fresh(st.right) && n < |xs|
    requires g.osFactor > 1 ==> AllDamped(g.os) && st.left.down == st.right.down == QuietTool()
    requires forall i :: 0 <= i < |xs| ==> Abs(xs[i].0) <= bound && Abs(xs[i].1) <= bound
    ensures g.Valid() && MB.StateAt(g, st, xs, n).Valid()
    ensures var e, rest := MB.StateAt(g, st, xs, n), 160.0 * Amplitude(g.cv, FilterGain(g.os, g.osGain));
            && Abs(MB.Run(g, st, xs)[n].0) <= bound + Leak(g.s, MB.SignalsOf(g, e.left, xs[n].0).b) + rest
            && Abs(MB.Run(g, st, xs)[n].1) <= bound + Leak(g.s, MB.SignalsOf(g, e.right, xs[n].1).b) + rest
  {
    hide MB.Out, MB.SignalsOf, Fresh, AllDamped, Abs, Leak, Amplitude, FilterGain, MB.StateAt, Curves.Lawful, InRange,
         ChannelAt;
    var kit := Kit(g.cv, g.os, g.osGain);
    ChannelsOfStereo(kit, g, st, xs, n);
    OutputStaysBounded(kit, st.left, LeftRun(g, st, xs), bound, n);
    OutputStaysBounded(kit, st.right, RightRun(g, st, xs), bound, n);
  }
}
