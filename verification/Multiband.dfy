/**
 `MultibandDistProcess` and its life cycle, in place: per-channel state, band sections, oversampling
 tools and the two chorus rings. Each sample is proved to be one step of the specification.
 */
module Multiband {
  import opened Reals
  import opened Shapers
  import opened Biquads
  import opened DelayLine
  import opened MultibandSettings
  import opened Oversampler
  import opened BandList
  import opened Stability
  import Runs = MultibandRuns
  import MB = MultibandSpec

  const OS_MAX: nat := 8

  /** The `[ch]` column of the struct's state arrays, with the channel's ring. */
  class ChannelState {
    const bands: array<Memory>
    var up: SamplerateTool
    var down: SamplerateTool
    var shHold: real
    var shPhase: real
    var dcX: real
    var dcY: real
    var toneZ: real
    var ring: array?<real>
    var pos: nat
    ghost var line: seq<real>
    ghost var Repr: set<object>

    ghost predicate Valid()
      reads this, Repr
      ensures Valid() ==> this in Repr && bands in Repr && bands.Length == BandList.MAX_BANDS
    {
      && Repr == {this, bands} + up.lpfU.Repr + down.lpfD.Repr + (if ring == null then {} else {ring})
      && bands.Length == BandList.MAX_BANDS && AllTransposed(bands[..])
      && up.Valid() && down.Valid() && up.lpfU.Repr !! down.lpfD.Repr
      && {this, bands} !! up.lpfU.Repr && {this, bands} !! down.lpfD.Repr
      && (ring != null ==> ring !in up.lpfU.Repr && ring !in down.lpfD.Repr && Holds(ring[..], pos, line))
    }

    ghost function State(): (c: MB.Channel)
      requires Valid()
      reads this, Repr
      ensures c.Valid()
    {
      MB.Channel(bands[..], up.lpfU.State(), down.lpfD.State(), shHold, shPhase, dcX, dcY, toneZ, line)
    }

    /** Cleared memory: no rings, silent filters. */
    constructor (factor: nat, os: seq<Lowpass>, gain: real)
      requires 0 < factor && |os| == STAGE
      ensures Valid() && ring == null && fresh(Repr)
      ensures ToolsFit(factor, os, gain)
    {
      hide IirSos.State, Silent;
      bands := new Memory[BandList.MAX_BANDS](_ => Transposed(0.0, 0.0));
      up := new SamplerateTool(factor, os, gain);
      down := new SamplerateTool(factor, os, gain);
      shHold, shPhase, dcX, dcY, toneZ := 0.0, 0.0, 0.0, 0.0, 0.0;
      ring, pos, line := null, 0, [];
      new;
      Repr := {this, bands} + up.lpfU.Repr + down.lpfD.Repr;
    }

    /** The oversampling filters this channel was last given are silent. */
    ghost predicate QuietTools()
      requires Valid()
      reads this, Repr
    {
      up.lpfU.State() == down.lpfD.State() == QuietTool()
    }

    method MakeTools(factor: nat, os: seq<Lowpass>, gain: real)
      requires Valid() && 0 < factor && |os| == STAGE
      modifies `up, `down, `Repr
      ensures Valid() && ToolsFit(factor, os, gain) && QuietTools() && fresh(Repr - old(Repr))
    {
      hide IirSos.State, Silent, AllTransposed, Holds, SamplerateTool.Valid;
      up := new SamplerateTool(factor, os, gain);
      down := new SamplerateTool(factor, os, gain);
      Repr := {this, bands} + up.lpfU.Repr + down.lpfD.Repr + (if ring == null then {} else {ring});
      SilentIsQuiet(up.lpfU);
      SilentIsQuiet(down.lpfD);
    }

    /** A ring full of zeros, standing for a line nothing has been pushed to. */
    method AllocateRing()
      requires Valid()
      modifies `ring, `pos, `line, `Repr
      ensures Valid() && ring != null && fresh(ring) && line == [] && fresh(Repr - old(Repr))
    {
      var zeros := new real[BUFLEN](_ => 0.0);
      EmptyRing(zeros[..]);
      hide IirSos.State, AllTransposed, Holds, SamplerateTool.Valid;
      ring, pos, line := zeros, 0, [];
      Repr := {this, bands, zeros} + up.lpfU.Repr + down.lpfD.Repr;
    }

    /** The `memset`s over the channel's own state. */
    method ClearState()
      requires Valid()
      modifies bands, `shHold, `shPhase, `dcX, `dcY, `toneZ
      ensures Valid() && bands[..] == seq(BandList.MAX_BANDS, k => Transposed(0.0, 0.0))
      ensures shHold == shPhase == dcX == dcY == toneZ == 0.0
    {
      hide IirSos.State, Holds, SamplerateTool.Valid;
      for k := 0 to bands.Length
        invariant forall i :: 0 <= i < k ==> bands[i] == Transposed(0.0, 0.0)
      {
        bands[k] := Transposed(0.0, 0.0);
      }
      shHold, shPhase, dcX, dcY, toneZ := 0.0, 0.0, 0.0, 0.0, 0.0;
    }

    /** Every stage of the channel starts from silence, and nothing has been pushed. */
    ghost predicate Cleared()
      reads this, bands
    {
      && ring != null && line == [] && bands[..] == seq(BandList.MAX_BANDS, k => Transposed(0.0, 0.0))
      && shHold == shPhase == dcX == dcY == toneZ == 0.0
    }

    /** What enabling does to one channel: a ring, oversampling filters if they will be used, and
        every state cleared. */
    method Restart(factor: nat, os: seq<Lowpass>, gain: real)
      requires Valid() && ring == null && 0 < factor && |os| == STAGE
      modifies this, bands
      ensures Valid() && ring != null && Cleared() && fresh(Repr - old(Repr)) && Runs.Fresh(State())
      ensures factor > 1 ==> ToolsFit(factor, os, gain) && QuietTools()
    {
      hide Valid, State, QuietTools, Runs.Fresh;
      AllocateRing();
      ClearState();
      if factor > 1 {
        MakeTools(factor, os, gain);
      }
      ClearedIsFresh();
    }

    lemma ClearedIsFresh()
      requires Valid() && Cleared()
      ensures Runs.Fresh(State())
    {
      hide IirSos.State;
    }

    /** What disabling does to one channel. */
    method FreeRing()
      requires Valid()
      modifies `ring, `Repr
      ensures Valid() && ring == null && Repr <= old(Repr)
    {
      hide IirSos.State, AllTransposed;
      ring := null;
      Repr := {this, bands} + up.lpfU.Repr + down.lpfD.Repr;
    }

    /** The rig names the tools and rings this channel has. */
    ghost predicate Fits(g: MB.Rig)
      reads this
    {
      && g.osFactor <= OS_MAX && (g.chorusOn ==> ring != null)
      && (g.osFactor > 1 ==> ToolsFit(g.osFactor, g.os, g.osGain))
    }

    ghost predicate ToolsFit(factor: nat, os: seq<Lowpass>, gain: real)
      reads this
    {
      && up.factor == down.factor == factor && up.coeffs == down.coeffs == os && up.gain == down.gain == gain
    }

    /** The filter is part of this channel and shares nothing with the sections. */
    ghost predicate Within(f: IirSos)
      reads this
    {
      && f in Repr && f.yn1 in Repr && f.yn2 in Repr
      && bands != (f as object) && bands != (f.yn1 as object) && bands != (f.yn2 as object)
    }

    /** Other objects may write the section states, as long as they stay those of sections. */
    twostate lemma SectionsRewritten()
      requires old(Valid()) && unchanged(this) && AllTransposed(bands[..])
      requires forall o :: o in Repr && o != bands ==> unchanged(o)
      ensures Valid() && State() == old(State()).(bands := bands[..])
    {
      hide IirSos.State, Holds;
      assert Within(up.lpfU) && Within(down.lpfD);
      assert ring != null ==> ring in Repr && (ring as object) != bands;
      assert ring != null ==> unchanged(ring) && ring[..] == old(ring[..]);
    }

    /** `mbdBiquadRun`. */
    method RunSection(c: Coeffs, k: nat, x: real) returns (y: real)
      requires k < bands.Length && bands[k].Transposed?
      modifies bands
      ensures y == Biquads.Out(c, old(bands[k]), x)
      ensures bands[..] == old(bands[..])[k := Next(c, old(bands[k]), x)]
    {
      var z := bands[k];
      y := c.b0 * x + z.z1;
      var z' := Transposed(c.b1 * x - c.a1 * y + z.z2, c.b2 * x - c.a2 * y);
      assert y == Biquads.Out(c, z, x) && z' == Next(c, z, x);
      hide Biquads.Out, Next;
      bands[k] := z';
    }

    /** The cascade over the bands in use. */
    method SelectBand(g: MB.Rig, x: real) returns (b: real)
      requires |g.sections| <= bands.Length && AllTransposed(bands[..])
      modifies bands
      ensures AllTransposed(bands[..])
      ensures b == MB.BandSignal(g, old(bands[..]), x) && bands[..] == MB.BandsAfter(g, old(bands[..]), x)
    {
      hide Biquads.Out, Next, Through, Advance, FilteredUpTo, AllTransposed;
      ghost var ms, cs := bands[..], g.sections;
      b := x;
      FilteredStart(cs, ms, x);
      for k := 0 to |g.sections|
        invariant b == Through(cs, ms[..|cs|], x, k)
        invariant FilteredUpTo(bands[..], cs, ms, x, k)
      {
        ghost var before := bands[..];
        FilteredStep(before, cs, ms, x, k);
        b := RunSection(g.sections[k], k, b);
      }
      FilteredDone(bands[..], cs, ms, x);
    }

    /** The shaper, at the higher rate where there is one. */
    method Distort(g: MB.Rig, driven: real, upsample: array<real>) returns (d: real)
      requires Valid() && g.Valid() && Fits(g) && upsample.Length == OS_MAX
      requires upsample !in up.lpfU.Repr && upsample !in down.lpfD.Repr
      modifies up.lpfU.Repr, down.lpfD.Repr, upsample
      ensures d == MB.Distorted(g, old(up.lpfU.State()), old(down.lpfD.State()), driven)
      ensures up.lpfU.State() == MB.UpNext(g, old(up.lpfU.State()), driven)
      ensures down.lpfD.State() == MB.DownNext(g, old(up.lpfU.State()), old(down.lpfD.State()), driven)
    {
      hide UpBlock, UpAfter, DownSample, Biquads.After, Sections, MB.Rig.Valid, Curves.Lawful, MB.Blended, InRange,
           IirSos.State, Holds, AllTransposed;
      RigParts(g);
      if g.osFactor > 1 {
        ghost var us := UpBlock(g.os, up.lpfU.State(), g.osFactor, g.osGain, driven);
        up.StepUp(driven, upsample);
        label stepped:
        BlendInPlace(g, upsample, us);
        assert upsample[..g.osFactor] == MB.BlendedAll(g, us);
        d := down.StepDown(upsample);
      } else {
        d := MB.Blended(g, driven);
      }
    }

    method BlendInPlace(g: MB.Rig, upsample: array<real>, ghost us: seq<real>)
      requires g.Valid() && g.osFactor <= upsample.Length && upsample[..g.osFactor] == us
      modifies upsample
      ensures upsample[..g.osFactor] == MB.BlendedAll(g, us)
    {
      hide Shape, Mix, InRange;
      for j := 0 to g.osFactor
        invariant forall i :: 0 <= i < j ==> upsample[i] == MB.Blended(g, us[i])
        invariant forall i :: j <= i < g.osFactor ==> upsample[i] == us[i]
      {
        upsample[j] := MB.Blended(g, upsample[j]);
      }
      assert upsample[..g.osFactor] == MB.BlendedAll(g, us);
    }

    /** Sample-and-hold of the quantised signal. */
    method Crush(s: Settings, d: real) returns (r: real)
      requires InRange(s)
      modifies `shHold, `shPhase
      ensures r == MB.Crushed(s, old(shHold), old(shPhase), d)
      ensures shHold == MB.HoldAfter(s, old(shHold), old(shPhase), d) && shPhase == MB.PhaseAfter(s, old(shPhase))
    {
      r := d;
      if s.model == Model.Crush {
        shPhase := shPhase + 1.0;
        if shPhase >= s.holdLen {
          shPhase := shPhase - s.holdLen;
          shHold := MB.Quantised(s, d);
        }
        r := shHold;
      }
    }

    method BlockDc(s: Settings, d: real) returns (r: real)
      modifies `dcX, `dcY
      ensures r == MB.Blocked(s, old(dcX), old(dcY), d) && dcX == d && dcY == r
    {
      r := d - dcX + dcY * s.dcR;
      dcX := d;
      dcY := r;
    }

    method Tilt(s: Settings, d: real) returns (r: real)
      modifies `toneZ
      ensures toneZ == MB.ToneAfter(s, old(toneZ), d) && r == MB.Tilted(s, toneZ, d)
    {
      toneZ := toneZ + (d - toneZ) * s.toneA;
      var lp := toneZ;
      r := lp * (1.0 - s.tilt) + (d - lp) * (1.0 + s.tilt);
    }

    /** Stages 3 to 5. */
    method Condition(g: MB.Rig, d: real) returns (r: real)
      requires InRange(g.s)
      modifies `shHold, `shPhase, `dcX, `dcY, `toneZ
      ensures dcX == MB.Crushed(g.s, old(shHold), old(shPhase), d)
      ensures dcY == MB.Blocked(g.s, old(dcX), old(dcY), dcX)
      ensures toneZ == MB.ToneAfter(g.s, old(toneZ), dcY) && r == MB.Tilted(g.s, toneZ, dcY)
      ensures shHold == MB.HoldAfter(g.s, old(shHold), old(shPhase), d) && shPhase == MB.PhaseAfter(g.s, old(shPhase))
    {
      hide MB.Crushed, MB.HoldAfter, MB.PhaseAfter, MB.Blocked, MB.ToneAfter, MB.Tilted, InRange;
      r := Crush(g.s, d);
      r := BlockDc(g.s, r);
      r := Tilt(g.s, r);
    }

    /** The average of the voices' taps. */
    method ReadVoices(g: MB.Rig, phase: real) returns (wet: real)
      requires Valid() && g.Valid() && ring != null
      ensures 0 < g.s.chVoices && wet == MB.Wet(g, line, phase)
    {
      hide Holds, DelayLine.Tap, MB.Delay, AllTransposed;
      wet := 0.0;
      for v := 0 to g.s.chVoices
        invariant wet == MB.WetSum(g, line, phase, v)
      {
        MB.DelayServable(g, phase, v);
        var delay := MB.Delay(g, phase, v);
        var tap, _ := ReadTap(ring, pos, delay, line);
        wet := wet + tap;
      }
      wet := wet / g.s.chVoices as real;
    }

    method Chorus(g: MB.Rig, phase: real, d: real) returns (r: real)
      requires Valid() && g.Valid() && Fits(g)
      modifies `pos, `line, ring
      ensures 0 < g.s.chVoices && r == MB.Chorused(g, old(line), phase, d)
      ensures line == MB.LineAfter(g, old(line), phase, d)
      ensures ring != null ==> Holds(ring[..], pos, line)
    {
      hide Holds, MB.Wet, Mix, Gained, MB.Rig.Valid, Curves.Lawful, AllTransposed;
      RigParts(g);
      r := d;
      if g.chorusOn {
        var wet := ReadVoices(g, phase);
        var v := d + Gained(wet, g.s.chFeedback);
        PushKeepsHolding(ring[..], pos, line, v);
        PosInRing(ring[..], pos, line);
        ring[pos] := v;
        pos := (pos + 1) % BUFLEN;
        line := line + [v];
        r := Mix(d, wet, g.s.chMix);
      }
    }

    lemma PosInRing(ring: seq<real>, pos: nat, line: seq<real>)
      requires Holds(ring, pos, line)
      ensures pos < BUFLEN == |ring|
    {
    }

    /** Stages 1 and 2: what touches the filters. */
    method Filter(g: MB.Rig, x: real, upsample: array<real>) returns (b: real, d: real)
      requires Valid() && g.Valid() && Fits(g) && upsample.Length == OS_MAX && upsample !in Repr
      modifies bands, up.lpfU.Repr, down.lpfD.Repr, upsample
      ensures Valid()
      ensures b == MB.BandSignal(g, old(bands[..]), x) && bands[..] == MB.BandsAfter(g, old(bands[..]), x)
      ensures var up0, down0, driven := old(up.lpfU.State()), old(down.lpfD.State()), MB.Driven(g.s, b);
              && d == MB.Distorted(g, up0, down0, driven)
              && up.lpfU.State() == MB.UpNext(g, up0, driven) && down.lpfD.State() == MB.DownNext(g, up0, down0, driven)
    {
      hide MB.Distorted, MB.UpNext, MB.DownNext, MB.BandSignal, MB.BandsAfter, MB.Driven, InRange, Holds,
           MB.Rig.Valid, Curves.Lawful, IirSos.State, AllTransposed;
      RigParts(g);
      b := SelectBand(g, x);
      var driven := MB.Driven(g.s, b);
      d := Distort(g, driven, upsample);
    }

    /** Stages 3 to 7: what touches the channel's own fields and its ring. */
    method Finish(g: MB.Rig, phase: real, x: real, b: real, shaped: real) returns (out: real)
      requires Valid() && g.Valid() && Fits(g)
      modifies `shHold, `shPhase, `dcX, `dcY, `toneZ, `pos, `line, ring
      ensures dcX == MB.Crushed(g.s, old(shHold), old(shPhase), shaped)
      ensures dcY == MB.Blocked(g.s, old(dcX), old(dcY), dcX)
      ensures toneZ == MB.ToneAfter(g.s, old(toneZ), dcY)
      ensures shHold == MB.HoldAfter(g.s, old(shHold), old(shPhase), shaped)
      ensures shPhase == MB.PhaseAfter(g.s, old(shPhase))
      ensures InRange(g.s) && 0 < g.s.chVoices
      ensures line == MB.LineAfter(g, old(line), phase, MB.Tilted(g.s, toneZ, dcY))
      ensures ring != null ==> Holds(ring[..], pos, line)
      ensures var toned := MB.Tilted(g.s, toneZ, dcY);
              out == MB.Output(g.s, x, b, Gained(MB.Chorused(g, old(line), phase, toned), g.s.bandGain))
    {
      hide MB.Crushed, MB.HoldAfter, MB.PhaseAfter, MB.Blocked, MB.ToneAfter, MB.Tilted, MB.Chorused, MB.LineAfter,
           MB.Output, MB.Rig.Valid, Curves.Lawful, InRange, Holds, Mix, Gained, IirSos.State, AllTransposed;
      RigParts(g);
      var d := Condition(g, shaped);
      d := Chorus(g, phase, d);
      d := Gained(d, g.s.bandGain);
      out := MB.Output(g.s, x, b, d);
    }

    /** One sample of one channel. */
    method Step(g: MB.Rig, phase: real, x: real, upsample: array<real>) returns (out: real)
      requires Valid() && g.Valid() && Fits(g) && upsample.Length == OS_MAX && upsample !in Repr
      modifies Repr, upsample
      ensures Valid() && Repr == old(Repr) && Fits(g)
      ensures up == old(up) && down == old(down) && ring == old(ring)
      ensures out == MB.Out(g, old(State()), phase, x) && State() == MB.After(g, old(State()), phase, x)
    {
      hide MB.Distorted, MB.UpNext, MB.DownNext, MB.BandSignal, MB.BandsAfter, MB.Crushed, MB.HoldAfter, MB.PhaseAfter,
           MB.Blocked, MB.ToneAfter, MB.Tilted, MB.Chorused, MB.LineAfter, MB.Driven, MB.Output,
           MB.Rig.Valid, Curves.Lawful, InRange, Holds, Mix, Gained, IirSos.State, AllTransposed;
      RigParts(g);
      var b, d := Filter(g, x, upsample);
      out := Finish(g, phase, x, b, d);
    }
  }

  lemma SilentIsQuiet(f: IirSos)
    requires f.Valid() && forall k :: 0 <= k < STAGE ==> Silent(f.State()[k])
    ensures f.State() == QuietTool()
  {
    var ms := f.State();
    forall k | 0 <= k < STAGE ensures ms[k] == QuietTool()[k] {
      assert Silent(ms[k]) && ms[k].Direct?;
    }
  }

  lemma RigParts(g: MB.Rig)
    requires g.Valid()
    ensures InRange(g.s) && |g.sections| <= BandList.MAX_BANDS && 0 < g.osFactor && |g.os| == STAGE
    ensures 0 < g.s.chVoices && g.s.bitStep != 0.0 && g.cv.Lawful()
  {
  }

  /** The first k sections in use have run, the others have not. */
  ghost predicate FilteredUpTo(now: seq<Memory>, cs: seq<Coeffs>, ms: seq<Memory>, x: real, k: nat) {
    && k <= |cs| <= |ms| == |now| && AllTransposed(now) && AllTransposed(ms)
    && forall i :: 0 <= i < |now| ==>
         now[i] == if i < k then Next(cs[i], ms[i], Through(cs, ms[..|cs|], x, i)) else ms[i]
  }

  lemma FilteredStart(cs: seq<Coeffs>, ms: seq<Memory>, x: real)
    requires |cs| <= |ms| && AllTransposed(ms)
    ensures FilteredUpTo(ms, cs, ms, x, 0) && Through(cs, ms[..|cs|], x, 0) == x
  {
    hide Next;
  }

  lemma FilteredStep(now: seq<Memory>, cs: seq<Coeffs>, ms: seq<Memory>, x: real, k: nat)
    requires FilteredUpTo(now, cs, ms, x, k) && k < |cs|
    ensures k < |now| && now[k].Transposed?
    ensures var u := Through(cs, ms[..|cs|], x, k);
            && FilteredUpTo(now[k := Next(cs[k], now[k], u)], cs, ms, x, k + 1)
            && Through(cs, ms[..|cs|], x, k + 1) == Biquads.Out(cs[k], now[k], u)
  {
    hide Biquads.Out;
  }

  lemma FilteredDone(now: seq<Memory>, cs: seq<Coeffs>, ms: seq<Memory>, x: real)
    requires FilteredUpTo(now, cs, ms, x, |cs|)
    ensures AllTransposed(now) && now == Advance(cs, ms[..|cs|], x) + ms[|cs|..]
  {
    hide Next, Through;
  }
}
