/**
 What one channel of `MultibandDistProcess` computes for one sample, stage by stage, with the chorus
 ring replaced by the unbounded delay line it stands for; and what that means over whole streams.
 */
module MultibandSpec {
  import opened Reals
  import opened Trigonometry
  import opened Shapers
  import opened Biquads
  import opened DelayLine
  import opened MultibandSettings
  import opened Oversampler
  import opened BandList

  /** Everything the per-sample loop only reads. */
  datatype Rig = Rig(
    cv: Curves, trig: Trig, s: Settings, sections: seq<Coeffs>,
    osFactor: nat, os: seq<Lowpass>, osGain: real, chorusOn: bool) {

    ghost predicate Valid() {
      && cv.Lawful() && trig.Lawful() && InRange(s) && |sections| <= MAX_BANDS
      && 0 < osFactor && |os| == STAGE
    }
  }

  /** The state one channel carries from sample to sample. */
  datatype Channel = Channel(
    bands: seq<Memory>, up: seq<Memory>, down: seq<Memory>,
    shHold: real, shPhase: real, dcX: real, dcY: real, toneZ: real, line: seq<real>) {

    predicate Valid() {
      |bands| == MAX_BANDS && |up| == STAGE && |down| == STAGE
    }
  }

  // ---- 1. band select ----

  function BandSignal(g: Rig, bands: seq<Memory>, x: real): real
    requires |g.sections| <= |bands|
  {
    Through(g.sections, bands[..|g.sections|], x, |g.sections|)
  }

  function BandsAfter(g: Rig, bands: seq<Memory>, x: real): (r: seq<Memory>)
    requires |g.sections| <= |bands|
    ensures |r| == |bands|
  {
    Advance(g.sections, bands[..|g.sections|], x) + bands[|g.sections|..]
  }

  // ---- 2. distort ----

  function Driven(s: Settings, b: real): real { Gained(b + s.bias, s.drive) }

  /** The shaper faded in by the blend. */
  function Blended(g: Rig, u: real): real
    requires g.cv.Lawful() && InRange(g.s)
  {
    Mix(u, Shape(g.cv, g.s.model, u, g.s.shape), g.s.shaperBlend)
  }

  function BlendedAll(g: Rig, us: seq<real>): (r: seq<real>)
    requires g.cv.Lawful() && InRange(g.s)
    ensures |r| == |us|
  {
    seq(|us|, j requires 0 <= j < |us| => Blended(g, us[j]))
  }

  /** The distorted block at the higher rate. */
  ghost function OverBlock(g: Rig, up: seq<Memory>, driven: real): (r: seq<real>)
    requires g.Valid() && |up| == STAGE
    ensures |r| == g.osFactor
  {
    BlendedAll(g, UpBlock(g.os, up, g.osFactor, g.osGain, driven))
  }

  ghost function Distorted(g: Rig, up: seq<Memory>, down: seq<Memory>, driven: real): real
    requires g.Valid() && |up| == |down| == STAGE
  {
    if g.osFactor > 1 then DownSample(g.os, down, g.osGain, OverBlock(g, up, driven)) else Blended(g, driven)
  }

  /** What the two oversampling filters remember afterwards; without oversampling they are not run. */
  ghost function UpNext(g: Rig, up: seq<Memory>, driven: real): (r: seq<Memory>)
    requires g.Valid() && |up| == STAGE
    ensures |r| == STAGE
  {
    if g.osFactor > 1 then UpAfter(g.os, up, g.osFactor, driven) else up
  }

  ghost function DownNext(g: Rig, up: seq<Memory>, down: seq<Memory>, driven: real): (r: seq<Memory>)
    requires g.Valid() && |up| == |down| == STAGE
    ensures |r| == STAGE
  {
    if g.osFactor > 1 then Biquads.After(Sections(g.os), down, OverBlock(g, up, driven)) else down
  }

  // ---- 3. bit and rate reduction ----

  function Quantised(s: Settings, d: real): real
    requires s.bitStep != 0.0
  {
    Gained((d / s.bitStep + 0.5).Floor as real, s.bitStep)
  }

  function HoldElapsed(s: Settings, shPhase: real): bool { shPhase + 1.0 >= s.holdLen }

  function PhaseAfter(s: Settings, shPhase: real): real {
    if s.model != Crush then shPhase
    else if HoldElapsed(s, shPhase) then shPhase + 1.0 - s.holdLen else shPhase + 1.0
  }

  function HoldAfter(s: Settings, shHold: real, shPhase: real, d: real): real
    requires s.bitStep != 0.0
  {
    if s.model == Crush && HoldElapsed(s, shPhase) then Quantised(s, d) else shHold
  }

  function Crushed(s: Settings, shHold: real, shPhase: real, d: real): real
    requires s.bitStep != 0.0
  {
    if s.model == Crush then HoldAfter(s, shHold, shPhase, d) else d
  }

  // ---- 4. and 5. DC removal and tilt ----

  function Blocked(s: Settings, dcX: real, dcY: real, d: real): real { d - dcX + Gained(dcY, s.dcR) }

  function ToneAfter(s: Settings, toneZ: real, d: real): real { toneZ + Gained(d - toneZ, s.toneA) }

  function Tilted(s: Settings, lp: real, d: real): real {
    Gained(lp, 1.0 - s.tilt) + Gained(d - lp, 1.0 + s.tilt)
  }

  // ---- 6. chorus ----

  function Turn(t: Trig, p: real): real { 2.0 * t.pi * p }

  function Lfo(t: Trig, p: real): real { 0.5 - 0.5 * t.cos(Turn(t, p)) }

  function Fraction(p: real): real { p - p.Floor as real }

  function VoicePhase(phase: real, v: nat, voices: int): real
    requires 0 < voices
  {
    Fraction(phase + v as real / voices as real)
  }

  function Delay(g: Rig, phase: real, v: nat): real
    requires 0 < g.s.chVoices
  {
    g.s.chBase + Gained(g.s.chDepth, Lfo(g.trig, VoicePhase(phase, v, g.s.chVoices)))
  }

  /** The taps of the first n voices, added up. */
  function WetSum(g: Rig, line: seq<real>, phase: real, n: nat): real
    requires 0 < g.s.chVoices
  {
    if n == 0 then 0.0 else WetSum(g, line, phase, n - 1) + DelayLine.Tap(line, Delay(g, phase, n - 1))
  }

  function Wet(g: Rig, line: seq<real>, phase: real): real
    requires 0 < g.s.chVoices
  {
    WetSum(g, line, phase, g.s.chVoices) / g.s.chVoices as real
  }

  function LineAfter(g: Rig, line: seq<real>, phase: real, d: real): seq<real>
    requires 0 < g.s.chVoices
  {
    if g.chorusOn then line + [d + Gained(Wet(g, line, phase), g.s.chFeedback)] else line
  }

  function Chorused(g: Rig, line: seq<real>, phase: real, d: real): real
    requires 0 < g.s.chVoices
  {
    if g.chorusOn then Mix(d, Wet(g, line, phase), g.s.chMix) else d
  }

  // ---- 7. put it back ----

  function Output(s: Settings, x: real, b: real, d: real): real {
    Mix(x, if s.routing == Split then (x - b) + d else x + d, s.mix)
  }

  // ---- one sample of one channel ----

  /** The signals between the stages. */
  datatype Signals = Signals(b: real, driven: real, shaped: real, crushed: real, blocked: real, lp: real, toned: real)

  ghost function SignalsOf(g: Rig, c: Channel, x: real): Signals
    requires g.Valid() && c.Valid()
  {
    var b := BandSignal(g, c.bands, x);
    var driven := Driven(g.s, b);
    var shaped := Distorted(g, c.up, c.down, driven);
    var crushed := Crushed(g.s, c.shHold, c.shPhase, shaped);
    var blocked := Blocked(g.s, c.dcX, c.dcY, crushed);
    var lp := ToneAfter(g.s, c.toneZ, blocked);
    Signals(b, driven, shaped, crushed, blocked, lp, Tilted(g.s, lp, blocked))
  }

  ghost function Out(g: Rig, c: Channel, phase: real, x: real): real
    requires g.Valid() && c.Valid()
  {
    var q := SignalsOf(g, c, x);
    Output(g.s, x, q.b, Gained(Chorused(g, c.line, phase, q.toned), g.s.bandGain))
  }

  ghost function After(g: Rig, c: Channel, phase: real, x: real): (r: Channel)
    requires g.Valid() && c.Valid()
    ensures r.Valid()
  {
    var q := SignalsOf(g, c, x);
    Channel(
      BandsAfter(g, c.bands, x),
      UpNext(g, c.up, q.driven), DownNext(g, c.up, c.down, q.driven),
      HoldAfter(g.s, c.shHold, c.shPhase, q.shaped), PhaseAfter(g.s, c.shPhase),
      q.crushed, q.blocked, q.lp,
      LineAfter(g, c.line, phase, q.toned))
  }

  // ---- both channels over a stream ----

  datatype Stereo = Stereo(left: Channel, right: Channel, chPhase: real) {
    predicate Valid() { left.Valid() && right.Valid() }
  }

  function PhaseStep(s: Settings, chPhase: real): real {
    if chPhase + s.chInc >= 1.0 then chPhase + s.chInc - 1.0 else chPhase + s.chInc
  }

  ghost function StereoAfter(g: Rig, st: Stereo, x: (real, real)): (r: Stereo)
    requires g.Valid() && st.Valid()
    ensures r.Valid()
  {
    Stereo(After(g, st.left, st.chPhase, x.0), After(g, st.right, st.chPhase + g.s.chSpread, x.1),
           PhaseStep(g.s, st.chPhase))
  }

  ghost function StereoOut(g: Rig, st: Stereo, x: (real, real)): (real, real)
    requires g.Valid() && st.Valid()
  {
    (Out(g, st.left, st.chPhase, x.0), Out(g, st.right, st.chPhase + g.s.chSpread, x.1))
  }

  /** The state after the first n samples. */
  ghost function StateAt(g: Rig, st: Stereo, xs: seq<(real, real)>, n: nat): (r: Stereo)
    requires g.Valid() && st.Valid() && n <= |xs|
    ensures r.Valid()
  {
    if n == 0 then st else StereoAfter(g, StateAt(g, st, xs, n - 1), xs[n - 1])
  }

  lemma StateOneMore(g: Rig, st: Stereo, xs: seq<(real, real)>, n: nat)
    requires g.Valid() && st.Valid() && n <= |xs|
    ensures StateAt(g, st, xs, 0) == st
    ensures 0 < n ==> StateAt(g, st, xs, n) == StereoAfter(g, StateAt(g, st, xs, n - 1), xs[n - 1])
  {
    hide StereoAfter, Rig.Valid, Stereo.Valid;
  }

  ghost function Run(g: Rig, st: Stereo, xs: seq<(real, real)>): (ys: seq<(real, real)>)
    requires g.Valid() && st.Valid()
    ensures |ys| == |xs|
  {
    seq(|xs|, n requires 0 <= n < |xs| => StereoOut(g, StateAt(g, st, xs, n), xs[n]))
  }

  ghost predicate SameLeft(xs: seq<(real, real)>, ys: seq<(real, real)>) {
    |xs| == |ys| && forall n :: 0 <= n < |xs| ==> xs[n].0 == ys[n].0
  }

  ghost predicate SameRight(xs: seq<(real, real)>, ys: seq<(real, real)>) {
    |xs| == |ys| && forall n :: 0 <= n < |xs| ==> xs[n].1 == ys[n].1
  }

  lemma {:induction false} ChannelsIndependentAt(g: Rig, st: Stereo, st': Stereo,
                                                 xs: seq<(real, real)>, ys: seq<(real, real)>, n: nat)
    requires g.Valid() && st.Valid() && st'.Valid() && |xs| == |ys| && n <= |xs| && st.chPhase == st'.chPhase
    ensures StateAt(g, st, xs, n).chPhase == StateAt(g, st', ys, n).chPhase
    ensures st.left == st'.left && SameLeft(xs, ys) ==> StateAt(g, st, xs, n).left == StateAt(g, st', ys, n).left
    ensures st.right == st'.right && SameRight(xs, ys) ==> StateAt(g, st, xs, n).right == StateAt(g, st', ys, n).right
  {
    hide After, Rig.Valid, Channel.Valid, Stereo.Valid;
    if n != 0 {
      ChannelsIndependentAt(g, st, st', xs, ys, n - 1);
    }
  }

  /** The left output depends only on the left input and the settings, and the right on the right:
      two runs that differ only in the other channel, its input and its state, agree. */
  lemma ChannelsIndependent(g: Rig, st: Stereo, st': Stereo, xs: seq<(real, real)>, ys: seq<(real, real)>)
    requires g.Valid() && st.Valid() && st'.Valid() && |xs| == |ys| && st.chPhase == st'.chPhase
    ensures st.left == st'.left && SameLeft(xs, ys) ==> SameLeft(Run(g, st, xs), Run(g, st', ys))
    ensures st.right == st'.right && SameRight(xs, ys) ==> SameRight(Run(g, st, xs), Run(g, st', ys))
  {
    hide Out, Rig.Valid, StateAt;
    forall n | 0 <= n < |xs|
      ensures st.left == st'.left && SameLeft(xs, ys) ==> Run(g, st, xs)[n].0 == Run(g, st', ys)[n].0
      ensures st.right == st'.right && SameRight(xs, ys) ==> Run(g, st, xs)[n].1 == Run(g, st', ys)[n].1
    {
      ChannelsIndependentAt(g, st, st', xs, ys, n);
    }
  }

  lemma {:induction false} StateOfPrefix(g: Rig, st: Stereo, us: seq<(real, real)>, vs: seq<(real, real)>, n: nat)
    requires g.Valid() && st.Valid() && n <= |us|
    ensures StateAt(g, st, us + vs, n) == StateAt(g, st, us, n)
  {
    hide StereoAfter, Rig.Valid, Stereo.Valid;
    if n != 0 {
      StateOfPrefix(g, st, us, vs, n - 1);
    }
  }

  lemma {:induction false} StateOfConcat(g: Rig, st: Stereo, us: seq<(real, real)>, vs: seq<(real, real)>, n: nat)
    requires g.Valid() && st.Valid() && n <= |vs|
    ensures StateAt(g, st, us + vs, |us| + n) == StateAt(g, StateAt(g, st, us, |us|), vs, n)
  {
    hide StereoAfter, Rig.Valid, Stereo.Valid;
    if n == 0 {
      StateOfPrefix(g, st, us, vs, |us|);
    } else {
      StateOfConcat(g, st, us, vs, n - 1);
    }
  }

  lemma RunAt(g: Rig, st: Stereo, xs: seq<(real, real)>, n: nat)
    requires g.Valid() && st.Valid() && n < |xs|
    ensures Run(g, st, xs)[n] == StereoOut(g, StateAt(g, st, xs, n), xs[n])
  {
    hide StateAt, StereoOut, Rig.Valid, Stereo.Valid;
  }

  lemma CutAt(g: Rig, st: Stereo, us: seq<(real, real)>, vs: seq<(real, real)>, n: nat)
    requires g.Valid() && st.Valid() && n < |us| + |vs|
    ensures Run(g, st, us + vs)[n] == (Run(g, st, us) + Run(g, StateAt(g, st, us, |us|), vs))[n]
  {
    hide StateAt, StereoOut, Rig.Valid, Stereo.Valid, Run;
    RunAt(g, st, us + vs, n);
    if n < |us| {
      StateOfPrefix(g, st, us, vs, n);
      RunAt(g, st, us, n);
    } else {
      StateOfConcat(g, st, us, vs, n - |us|);
      RunAt(g, StateAt(g, st, us, |us|), vs, n - |us|);
    }
  }

  /** Two blocks one after the other are one call on both. */
  lemma TwoBlocks(g: Rig, st: Stereo, us: seq<(real, real)>, vs: seq<(real, real)>)
    requires g.Valid() && st.Valid()
    ensures Run(g, st, us + vs) == Run(g, st, us) + Run(g, StateAt(g, st, us, |us|), vs)
    ensures StateAt(g, st, us + vs, |us + vs|) == StateAt(g, StateAt(g, st, us, |us|), vs, |vs|)
  {
    hide StateAt, StereoOut, Rig.Valid, Stereo.Valid, Run;
    forall n | 0 <= n < |us| + |vs|
      ensures Run(g, st, us + vs)[n] == (Run(g, st, us) + Run(g, StateAt(g, st, us, |us|), vs))[n]
    {
      CutAt(g, st, us, vs, n);
    }
    FinalState(g, st, us, vs);
  }

  ghost function Joined(blocks: seq<seq<(real, real)>>): seq<(real, real)>
    decreases |blocks|
  {
    if blocks == [] then [] else Joined(blocks[..|blocks| - 1]) + blocks[|blocks| - 1]
  }

  /** The state after one call per block. */
  ghost function StateAfterBlocks(g: Rig, st: Stereo, blocks: seq<seq<(real, real)>>): (r: Stereo)
    requires g.Valid() && st.Valid()
    ensures r.Valid()
    decreases |blocks|
  {
    if blocks == [] then st
    else
      var last := blocks[|blocks| - 1];
      StateAt(g, StateAfterBlocks(g, st, blocks[..|blocks| - 1]), last, |last|)
  }

  /** What the calls put out. */
  ghost function RunBlocks(g: Rig, st: Stereo, blocks: seq<seq<(real, real)>>): seq<(real, real)>
    requires g.Valid() && st.Valid()
    decreases |blocks|
  {
    if blocks == [] then []
    else
      var front := blocks[..|blocks| - 1];
      RunBlocks(g, st, front) + Run(g, StateAfterBlocks(g, st, front), blocks[|blocks| - 1])
  }

  /** However a buffer is cut into blocks, the output and the final state are those of one call. */
  lemma {:induction false} BlocksDoNotMatter(g: Rig, st: Stereo, blocks: seq<seq<(real, real)>>)
    requires g.Valid() && st.Valid()
    ensures RunBlocks(g, st, blocks) == Run(g, st, Joined(blocks))
    ensures StateAfterBlocks(g, st, blocks) == StateAt(g, st, Joined(blocks), |Joined(blocks)|)
    decreases |blocks|
  {
    hide StereoOut, StereoAfter, Rig.Valid, Stereo.Valid;
    if blocks != [] {
      var front := blocks[..|blocks| - 1];
      BlocksDoNotMatter(g, st, front);
      TwoBlocks(g, st, Joined(front), blocks[|blocks| - 1]);
    }
  }

  lemma FinalState(g: Rig, st: Stereo, us: seq<(real, real)>, vs: seq<(real, real)>)
    requires g.Valid() && st.Valid()
    ensures StateAt(g, st, us + vs, |us + vs|) == StateAt(g, StateAt(g, st, us, |us|), vs, |vs|)
  {
    hide StateAt, Rig.Valid, Stereo.Valid;
    assert |us + vs| == |us| + |vs|;
    StateOfConcat(g, st, us, vs, |vs|);
  }

  /** Split routing substitutes, and nothing else: with any of the effect mixed in, the output is the
      input exactly when the stages after the filter give the band back unchanged, whatever it is. */
  lemma SplitNull(g: Rig, c: Channel, phase: real, x: real)
    requires g.Valid() && c.Valid() && g.s.routing == Split && g.s.mix != 0.0
    ensures var q := SignalsOf(g, c, x);
            Out(g, c, phase, x) == x <==> Gained(Chorused(g, c.line, phase, q.toned), g.s.bandGain) == q.b
  {
    hide SignalsOf, Gained, Mix, Chorused, Curves.Lawful, Trig.Lawful;
    var q := SignalsOf(g, c, x);
    var d := Gained(Chorused(g, c.line, phase, q.toned), g.s.bandGain);
    MixMoves(x, d - q.b, g.s.mix);
  }

  /** Parallel routing adds and takes nothing away: with any of the effect mixed in, the output is the
      input exactly when the stages add nothing. */
  lemma ParallelNull(g: Rig, c: Channel, phase: real, x: real)
    requires g.Valid() && c.Valid() && g.s.routing == Parallel && g.s.mix != 0.0
    ensures var q := SignalsOf(g, c, x);
            Out(g, c, phase, x) == x <==> Gained(Chorused(g, c.line, phase, q.toned), g.s.bandGain) == 0.0
  {
    hide SignalsOf, Gained, Mix, Chorused, Curves.Lawful, Trig.Lawful;
    var q := SignalsOf(g, c, x);
    MixMoves(x, Gained(Chorused(g, c.line, phase, q.toned), g.s.bandGain), g.s.mix);
  }

  /** What the stage changes about a sample is the mixed-in share of what it puts back, less what split
      routing took out. */
  lemma ChangeIsMixedIn(g: Rig, c: Channel, phase: real, x: real)
    requires g.Valid() && c.Valid()
    ensures var q := SignalsOf(g, c, x);
            var back := Gained(Chorused(g, c.line, phase, q.toned), g.s.bandGain);
            Out(g, c, phase, x) - x == Gained(back - (if g.s.routing == Split then q.b else 0.0), g.s.mix)
  {
    hide SignalsOf, Gained, Mix, Chorused, Curves.Lawful, Trig.Lawful;
    var q := SignalsOf(g, c, x);
    var back := Gained(Chorused(g, c.line, phase, q.toned), g.s.bandGain);
    MixChange(x, back - q.b, g.s.mix);
    MixChange(x, back, g.s.mix);
  }

  lemma MixChange(x: real, change: real, mix: real)
    ensures Mix(x, x + change, mix) - x == Gained(change, mix)
  {
  }

  /** With parallel routing and the band turned down, whole streams pass through untouched, whatever the
      filters, the shaper and the ring do meanwhile. */
  lemma ParallelBandOff(g: Rig, st: Stereo, xs: seq<(real, real)>)
    requires g.Valid() && st.Valid() && g.s.routing == Parallel && g.s.bandGain == 0.0
    ensures Run(g, st, xs) == xs
  {
    hide Run, Out, StateAt, Rig.Valid, Channel.Valid;
    forall n | 0 <= n < |xs| ensures Run(g, st, xs)[n] == xs[n] {
      RunAt(g, st, xs, n);
      var e := StateAt(g, st, xs, n);
      BandOff(g, e.left, e.chPhase, xs[n].0);
      BandOff(g, e.right, e.chPhase + g.s.chSpread, xs[n].1);
    }
  }

  lemma BandOff(g: Rig, c: Channel, phase: real, x: real)
    requires g.Valid() && c.Valid() && g.s.routing == Parallel && g.s.bandGain == 0.0
    ensures Out(g, c, phase, x) == x
  {
    hide SignalsOf, Out, Chorused, Curves.Lawful, Trig.Lawful, InRange;
    ChangeIsMixedIn(g, c, phase, x);
    InRangeVoices(g.s);
    NothingMixedIn(Chorused(g, c.line, phase, SignalsOf(g, c, x).toned), g.s.mix);
  }

  lemma InRangeVoices(s: Settings)
    requires InRange(s)
    ensures 0 < s.chVoices
  {
  }

  lemma NothingMixedIn(y: real, mix: real)
    ensures Gained(Gained(y, 0.0) - 0.0, mix) == 0.0
  {
  }

  lemma MixMoves(x: real, change: real, mix: real)
    requires mix != 0.0
    ensures Mix(x, x + change, mix) == x <==> change == 0.0
  {
    assert Mix(x, x + change, mix) == x + change * mix;
  }

  // ---- the delays stay inside the ring ----

  lemma LfoInRange(t: Trig, p: real)
    requires t.Lawful()
    ensures 0.0 <= Lfo(t, p) <= 1.0
  {
    hide Turn, Trig.Lawful;
    t.CosineRange(Turn(t, p));
  }

  /** At every moment of the modulation the delay is one the ring can serve. */
  lemma DelayServable(g: Rig, phase: real, v: nat)
    requires g.trig.Lawful() && InRange(g.s)
    ensures Servable(Delay(g, phase, v))
  {
    hide Lfo, VoicePhase, Trig.Lawful, Gained;
    var lfo := Lfo(g.trig, VoicePhase(phase, v, g.s.chVoices));
    LfoInRange(g.trig, VoicePhase(phase, v, g.s.chVoices));
    FractionOf(g.s.chDepth, lfo);
  }

  lemma FractionOf(depth: real, lfo: real)
    requires 0.0 <= depth && 0.0 <= lfo <= 1.0
    ensures 0.0 <= Gained(depth, lfo) <= depth
  {
    ProductNonNegative(depth, lfo);
    ProductMonotone(depth, lfo, 1.0);
  }
}
