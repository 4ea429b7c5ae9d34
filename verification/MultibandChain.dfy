/**
 The per-sample loop of `MultibandDistProcess` interleaves seven stages, each with memory of its own. Here it
 is proved to be a chain of stages through which the stream goes one after the other: what a stage puts out at
 a sample depends on the stream the stage before it puts out and on its own memory, and on nothing else. With
 oversampling the distortion stage is two cascades at the higher rate with the shaper between them.
 */
module MultibandChain {
  import opened Reals
  import opened Biquads
  import opened Oversampler
  import opened MultibandSettings
  import opened MultibandSpec
  import MB = MultibandSpec
  import opened MultibandStages
  import opened ChorusLaws

  // ---- each stage over a stream of its own ----

  ghost function DrivenStream(g: Rig, bs: seq<real>): (r: seq<real>)
    ensures |r| == |bs|
  {
    seq(|bs|, n requires 0 <= n < |bs| => Driven(g.s, bs[n]))
  }

  /** What the oversampling filters remember after n samples, the upsampling one first. */
  ghost function FiltersAt(g: Rig, up: seq<Memory>, down: seq<Memory>, us: seq<real>, n: nat)
    : (r: (seq<Memory>, seq<Memory>))
    requires g.Valid() && |up| == |down| == STAGE && n <= |us|
    ensures |r.0| == |r.1| == STAGE
  {
    if n == 0 then (up, down)
    else
      var before := FiltersAt(g, up, down, us, n - 1);
      (UpNext(g, before.0, us[n - 1]), DownNext(g, before.0, before.1, us[n - 1]))
  }

  ghost function DistortedAt(g: Rig, up: seq<Memory>, down: seq<Memory>, us: seq<real>, n: nat): real
    requires g.Valid() && |up| == |down| == STAGE && n < |us|
  {
    var before := FiltersAt(g, up, down, us, n);
    Distorted(g, before.0, before.1, us[n])
  }

  ghost function DistortedStream(g: Rig, up: seq<Memory>, down: seq<Memory>, us: seq<real>): (r: seq<real>)
    requires g.Valid() && |up| == |down| == STAGE
    ensures |r| == |us|
  {
    seq(|us|, n requires 0 <= n < |us| => DistortedAt(g, up, down, us, n))
  }

  ghost function CrushedStream(s: Settings, hold: real, phase: real, ds: seq<real>): (r: seq<real>)
    requires s.bitStep != 0.0
    ensures |r| == |ds|
  {
    seq(|ds|, n requires 0 <= n < |ds| => Crushed(s, Held(s, hold, phase, ds, n), HoldPhase(s, phase, n), ds[n]))
  }

  /** The stream one sample late, behind what came before it. */
  function Before(first: real, ds: seq<real>, n: nat): real
    requires n <= |ds|
  {
    if n == 0 then first else ds[n - 1]
  }

  /** What the blocker last put out, after n samples. */
  ghost function BlockedAt(s: Settings, dcX: real, dcY: real, ds: seq<real>, n: nat): real
    requires n <= |ds|
  {
    if n == 0 then dcY else Blocked(s, Before(dcX, ds, n - 1), BlockedAt(s, dcX, dcY, ds, n - 1), ds[n - 1])
  }

  ghost function BlockedStream(s: Settings, dcX: real, dcY: real, ds: seq<real>): (r: seq<real>)
    ensures |r| == |ds|
  {
    seq(|ds|, n requires 0 <= n < |ds| => BlockedAt(s, dcX, dcY, ds, n + 1))
  }

  /** What the tilt's pole holds after n samples. */
  ghost function ToneAt(s: Settings, toneZ: real, ds: seq<real>, n: nat): real
    requires n <= |ds|
  {
    if n == 0 then toneZ else ToneAfter(s, ToneAt(s, toneZ, ds, n - 1), ds[n - 1])
  }

  ghost function TiltedStream(s: Settings, toneZ: real, ds: seq<real>): (r: seq<real>)
    ensures |r| == |ds|
  {
    seq(|ds|, n requires 0 <= n < |ds| => Tilted(s, ToneAt(s, toneZ, ds, n + 1), ds[n]))
  }

  ghost function ChorusedStream(g: Rig, line: seq<real>, phases: seq<real>, ds: seq<real>): (r: seq<real>)
    requires 0 < g.s.chVoices && |ds| == |phases|
    ensures |r| == |ds|
  {
    seq(|ds|, n requires 0 <= n < |ds| => Chorused(g, LineAt(g, line, phases, ds, n), phases[n], ds[n]))
  }

  // ---- the chain ----

  /** The streams between the stages when a channel that starts at c is fed xs. */
  datatype Chain = Chain(band: seq<real>, shaped: seq<real>, crushed: seq<real>, blocked: seq<real>, toned: seq<real>)

  ghost function ChainOf(g: Rig, c: Channel, xs: seq<real>): (r: Chain)
    requires g.Valid() && c.Valid()
    ensures |r.band| == |r.shaped| == |r.crushed| == |r.blocked| == |r.toned| == |xs|
  {
    var band := CascadeStream(g.sections, c.bands[..|g.sections|], xs);
    var shaped := DistortedStream(g, c.up, c.down, DrivenStream(g, band));
    var crushed := CrushedStream(g.s, c.shHold, c.shPhase, shaped);
    var blocked := BlockedStream(g.s, c.dcX, c.dcY, crushed);
    Chain(band, shaped, crushed, blocked, TiltedStream(g.s, c.toneZ, blocked))
  }

  ghost function ChainOut(g: Rig, c: Channel, phases: seq<real>, xs: seq<real>): (r: seq<real>)
    requires g.Valid() && c.Valid() && |phases| == |xs|
    ensures |r| == |xs|
  {
    var q := ChainOf(g, c, xs);
    var wet := ChorusedStream(g, c.line, phases, q.toned);
    seq(|xs|, n requires 0 <= n < |xs| => Output(g.s, xs[n], q.band[n], Gained(wet[n], g.s.bandGain)))
  }

  /** The channel after n samples, each with its phase of the modulation. */
  ghost function ChannelAt(g: Rig, c: Channel, phases: seq<real>, xs: seq<real>, n: nat): (r: Channel)
    requires g.Valid() && c.Valid() && n <= |xs| == |phases|
    ensures r.Valid()
  {
    if n == 0 then c else MB.After(g, ChannelAt(g, c, phases, xs, n - 1), phases[n - 1], xs[n - 1])
  }

  /** What the stages remember after n samples, each of its own stream. */
  ghost function MemoriesOfChain(g: Rig, c: Channel, phases: seq<real>, xs: seq<real>, n: nat): Channel
    requires g.Valid() && c.Valid() && n <= |xs| == |phases|
  {
    var q := ChainOf(g, c, xs);
    var filters := FiltersAt(g, c.up, c.down, DrivenStream(g, q.band), n);
    Channel(BandsAt(g, c.bands, xs, n), filters.0, filters.1,
            Held(g.s, c.shHold, c.shPhase, q.shaped, n), HoldPhase(g.s, c.shPhase, n),
            Before(c.dcX, q.crushed, n), BlockedAt(g.s, c.dcX, c.dcY, q.crushed, n),
            ToneAt(g.s, c.toneZ, q.blocked, n), LineAt(g, c.line, phases, q.toned, n))
  }

  // ---- the loop is the chain ----

  ghost predicate Fits(g: Rig, c: Channel, phases: seq<real>, xs: seq<real>) {
    g.Valid() && c.Valid() && |phases| == |xs|
  }

  lemma StartOfChain(g: Rig, c: Channel, phases: seq<real>, xs: seq<real>)
    requires Fits(g, c, phases, xs)
    ensures MemoriesOfChain(g, c, phases, xs, 0) == c
  {
    hide ChainOf, Rig.Valid;
  }

  /** At sample n every stage makes of the stream before it, and of what it remembers, the stream after it. */
  lemma StagesAt(g: Rig, c: Channel, phases: seq<real>, xs: seq<real>, n: nat)
    requires Fits(g, c, phases, xs) && n < |xs|
    ensures var q, m := ChainOf(g, c, xs), MemoriesOfChain(g, c, phases, xs, n);
            && m.Valid()
            && q.band[n] == BandSignal(g, m.bands, xs[n])
            && q.shaped[n] == Distorted(g, m.up, m.down, Driven(g.s, q.band[n]))
            && q.crushed[n] == Crushed(g.s, m.shHold, m.shPhase, q.shaped[n])
            && q.blocked[n] == Blocked(g.s, m.dcX, m.dcY, q.crushed[n])
            && q.toned[n] == Tilted(g.s, ToneAfter(g.s, m.toneZ, q.blocked[n]), q.blocked[n])
  {
    hide BandSignal, BandsAt, CascadeStream, Driven, FiltersAt, Distorted, Held, HoldPhase, Crushed, Blocked, ToneAfter,
         Tilted, LineAt, InRange, Before, Shapers.Curves.Lawful, Trigonometry.Trig.Lawful;
    BandIsCascade(g, c.bands, xs, n);
  }

  /** The signals of sample n are those of the streams there. */
  lemma SignalsInChain(g: Rig, c: Channel, phases: seq<real>, xs: seq<real>, n: nat)
    requires Fits(g, c, phases, xs) && n < |xs|
    ensures MemoriesOfChain(g, c, phases, xs, n).Valid()
    ensures var q, s := ChainOf(g, c, xs), SignalsOf(g, MemoriesOfChain(g, c, phases, xs, n), xs[n]);
            s == Signals(q.band[n], Driven(g.s, q.band[n]), q.shaped[n], q.crushed[n], q.blocked[n], s.lp, q.toned[n])
  {
    StagesAt(g, c, phases, xs, n);
    hide BandSignal, Driven, Distorted, Crushed, Blocked, ToneAfter, Tilted, InRange, ChainOf, MemoriesOfChain,
         Shapers.Curves.Lawful, Trigonometry.Trig.Lawful;
  }

  lemma MemoriesStep(g: Rig, c: Channel, phases: seq<real>, xs: seq<real>, n: nat)
    requires Fits(g, c, phases, xs) && n < |xs|
    ensures MemoriesOfChain(g, c, phases, xs, n).Valid()
    ensures MemoriesOfChain(g, c, phases, xs, n + 1)
         == MB.After(g, MemoriesOfChain(g, c, phases, xs, n), phases[n], xs[n])
  {
    hide BandSignal, BandsAfter, UpNext, DownNext, HoldAfter, PhaseAfter, LineAfter, ChainOf, InRange, Blocked, Driven,
         Distorted, Crushed, ToneAfter, Tilted, Shapers.Curves.Lawful, Trigonometry.Trig.Lawful;
    StagesAt(g, c, phases, xs, n);
  }

  /** Sample by sample through all stages leaves the same memories as whole streams through one stage after
      the other. */
  lemma {:induction false} ChannelIsChain(g: Rig, c: Channel, phases: seq<real>, xs: seq<real>, n: nat)
    requires Fits(g, c, phases, xs) && n <= |xs|
    ensures ChannelAt(g, c, phases, xs, n) == MemoriesOfChain(g, c, phases, xs, n)
  {
    hide MemoriesOfChain, MB.After, Rig.Valid;
    if n == 0 {
      StartOfChain(g, c, phases, xs);
    } else {
      ChannelIsChain(g, c, phases, xs, n - 1);
      MemoriesStep(g, c, phases, xs, n - 1);
    }
  }

  /** And it puts out the same stream. */
  lemma ChainPutsOut(g: Rig, c: Channel, phases: seq<real>, xs: seq<real>, n: nat)
    requires Fits(g, c, phases, xs) && n < |xs|
    ensures MB.Out(g, ChannelAt(g, c, phases, xs, n), phases[n], xs[n]) == ChainOut(g, c, phases, xs)[n]
  {
    ChannelIsChain(g, c, phases, xs, n);
    SignalsInChain(g, c, phases, xs, n);
    hide ChannelAt, SignalsOf, ChainOf, LineAt, Chorused, Output, Gained, InRange, Rig.Valid;
  }

  // ---- oversampling over the stream ----

  /** Starting one sample later. */
  lemma {:induction false} FiltersLater(g: Rig, up: seq<Memory>, down: seq<Memory>, us: seq<real>, n: nat)
    requires g.Valid() && |up| == |down| == STAGE && n < |us|
    ensures FiltersAt(g, up, down, us, n + 1)
         == FiltersAt(g, UpNext(g, up, us[0]), DownNext(g, up, down, us[0]), us[1..], n)
  {
    hide UpNext, DownNext, Rig.Valid;
    if n != 0 {
      FiltersLater(g, up, down, us, n - 1);
    }
  }

  lemma DistortedFirst(g: Rig, up: seq<Memory>, down: seq<Memory>, us: seq<real>)
    requires g.Valid() && |up| == |down| == STAGE && us != []
    ensures DistortedStream(g, up, down, us)
         == [Distorted(g, up, down, us[0])]
              + DistortedStream(g, UpNext(g, up, us[0]), DownNext(g, up, down, us[0]), us[1..])
  {
    hide UpNext, DownNext, Distorted, Rig.Valid;
    forall n: nat | n < |us| - 1
      ensures DistortedAt(g, up, down, us, n + 1)
           == DistortedAt(g, UpNext(g, up, us[0]), DownNext(g, up, down, us[0]), us[1..], n)
    {
      FiltersLater(g, up, down, us, n);
    }
    hide FiltersAt;
  }

  lemma BlendedConcat(g: Rig, us: seq<real>, vs: seq<real>)
    requires g.cv.Lawful() && InRange(g.s)
    ensures BlendedAll(g, us + vs) == BlendedAll(g, us) + BlendedAll(g, vs)
  {
    hide Blended, InRange, Shapers.Curves.Lawful;
  }

  /** The stream is made of n whole blocks. */
  predicate Whole(g: Rig, ups: seq<real>, n: nat) { |ups| == n * g.osFactor }

  /** The shaper on every sample of n blocks, then the downsampling. */
  ghost function ShapedAndKept(g: Rig, down: seq<Memory>, ups: seq<real>, n: nat): seq<real>
    requires g.Valid() && |down| == STAGE && Whole(g, ups, n)
  {
    DownStream(g.os, down, g.osFactor, g.osGain, BlendedAll(g, ups), n)
  }

  lemma KeptFirst(g: Rig, down: seq<Memory>, u: seq<real>, v: seq<real>, n: nat)
    requires g.Valid() && |down| == STAGE && |u| == g.osFactor && Whole(g, v, n)
    ensures Whole(g, u + v, n + 1)
    ensures var block := BlendedAll(g, u);
            ShapedAndKept(g, down, u + v, n + 1)
              == [DownSample(g.os, down, g.osGain, block)]
                   + ShapedAndKept(g, Biquads.After(Sections(g.os), down, block), v, n)
  {
    BlendedConcat(g, u, v);
    FirstBlock(n + 1, g.osFactor);
    var us, vs := BlendedAll(g, u), BlendedAll(g, v);
    assert (us + vs)[..g.osFactor] == us && (us + vs)[g.osFactor..] == vs;
    hide DownSample, Biquads.After, Sections, BlendedAll, InRange, Shapers.Curves.Lawful;
  }

  /** One oversampled sample. */
  lemma OversampledOnce(g: Rig, up: seq<Memory>, down: seq<Memory>, u: real)
    requires g.Valid() && |up| == |down| == STAGE && 1 < g.osFactor
    ensures var block := BlendedAll(g, UpBlock(g.os, up, g.osFactor, g.osGain, u));
            && Distorted(g, up, down, u) == DownSample(g.os, down, g.osGain, block)
            && UpNext(g, up, u) == UpAfter(g.os, up, g.osFactor, u)
            && DownNext(g, up, down, u) == Biquads.After(Sections(g.os), down, block)
  {
    hide UpBlock, UpAfter, DownSample, Biquads.After, Sections, BlendedAll, InRange;
  }

  /** Oversampled, the stage is the upsampling of the whole stream, the shaper on every sample of it, and the
      downsampling of that. */
  lemma {:induction false} OversampledIsKept(g: Rig, up: seq<Memory>, down: seq<Memory>, us: seq<real>)
    requires g.Valid() && |up| == |down| == STAGE && 1 < g.osFactor
    ensures Whole(g, UpStream(g.os, up, g.osFactor, g.osGain, us), |us|)
    ensures DistortedStream(g, up, down, us)
         == ShapedAndKept(g, down, UpStream(g.os, up, g.osFactor, g.osGain, us), |us|)
    decreases |us|
  {
    hide UpBlock, UpAfter, DownSample, Biquads.After, Sections, BlendedAll, Distorted, UpNext, DownNext,
         DistortedStream, InRange, Shapers.Curves.Lawful, Whole, ShapedAndKept;
    if us == [] {
      NothingKept(g, up, down);
    } else {
      var up', down' := UpNext(g, up, us[0]), DownNext(g, up, down, us[0]);
      OversampledOnce(g, up, down, us[0]);
      DistortedFirst(g, up, down, us);
      OversampledIsKept(g, up', down', us[1..]);
      KeptFirst(g, down, UpBlock(g.os, up, g.osFactor, g.osGain, us[0]),
                UpStream(g.os, up', g.osFactor, g.osGain, us[1..]), |us| - 1);
    }
  }

  lemma NothingKept(g: Rig, up: seq<Memory>, down: seq<Memory>)
    requires g.Valid() && |up| == |down| == STAGE
    ensures Whole(g, [], 0) && UpStream(g.os, up, g.osFactor, g.osGain, []) == []
    ensures DistortedStream(g, up, down, []) == ShapedAndKept(g, down, [], 0) == []
  {
    hide InRange, Shapers.Curves.Lawful;
  }

  /** The same spelled out: of two cascades at the higher rate, with the shaper on every sample between them, the
      last sample of every block is kept; without oversampling the shaper stands alone. */
  lemma DistortionIsTwoCascades(g: Rig, up: seq<Memory>, down: seq<Memory>, us: seq<real>, n: nat)
    requires g.Valid() && |up| == |down| == STAGE && n < |us|
    ensures var high := Scaled(g.osGain, CascadeStream(Sections(g.os), up, StuffedFromFront(us, g.osFactor)));
            var kept := n * g.osFactor + g.osFactor - 1;
            && 0 <= kept < |high|
            && DistortedStream(g, up, down, us)[n]
                 == if g.osFactor == 1 then Blended(g, us[n])
                    else CascadeStream(Sections(g.os), down, BlendedAll(g, high))[kept] * g.osGain
  {
    hide CascadeStream, Sections, Blended, DownStream, UpStream, InRange, Distorted, FiltersAt, BlendedAll, Scaled,
         StuffedFromFront;
    BlockIndex(|us|, g.osFactor, n, g.osFactor - 1);
    if g.osFactor == 1 {
      AloneWithout(g, up, down, us, n);
    } else {
      UpStreamIsCascade(g.os, up, g.osFactor, g.osGain, us);
      OversampledIsKept(g, up, down, us);
      DownStreamDecimates(g.os, down, g.osFactor, g.osGain,
                          BlendedAll(g, UpStream(g.os, up, g.osFactor, g.osGain, us)), |us|, n);
    }
  }

  lemma AloneWithout(g: Rig, up: seq<Memory>, down: seq<Memory>, us: seq<real>, n: nat)
    requires g.Valid() && |up| == |down| == STAGE && n < |us| && g.osFactor == 1
    ensures DistortedStream(g, up, down, us)[n] == Blended(g, us[n])
  {
    hide FiltersAt, Blended, InRange;
  }

  // ---- both channels ----

  function LeftOf(xs: seq<(real, real)>): (r: seq<real>)
    ensures |r| == |xs|
  {
    seq(|xs|, n requires 0 <= n < |xs| => xs[n].0)
  }

  function RightOf(xs: seq<(real, real)>): (r: seq<real>)
    ensures |r| == |xs|
  {
    seq(|xs|, n requires 0 <= n < |xs| => xs[n].1)
  }

  /** The modulation's phase at every sample, ahead by so much. */
  ghost function Phases(g: Rig, st: Stereo, xs: seq<(real, real)>, ahead: real): (r: seq<real>)
    requires g.Valid() && st.Valid()
    ensures |r| == |xs|
  {
    seq(|xs|, n requires 0 <= n < |xs| => StateAt(g, st, xs, n).chPhase + ahead)
  }

  lemma {:induction false} StateOfChannels(g: Rig, st: Stereo, xs: seq<(real, real)>, n: nat)
    requires g.Valid() && st.Valid() && n <= |xs|
    ensures StateAt(g, st, xs, n).left == ChannelAt(g, st.left, Phases(g, st, xs, 0.0), LeftOf(xs), n)
    ensures StateAt(g, st, xs, n).right == ChannelAt(g, st.right, Phases(g, st, xs, g.s.chSpread), RightOf(xs), n)
  {
    hide MB.After, Rig.Valid, Channel.Valid, ChannelAt, StateAt, Phases, LeftOf, RightOf;
    StateOneMore(g, st, xs, n);
    ChannelOneMore(g, st.left, Phases(g, st, xs, 0.0), LeftOf(xs), n);
    ChannelOneMore(g, st.right, Phases(g, st, xs, g.s.chSpread), RightOf(xs), n);
    if n != 0 {
      StateOfChannels(g, st, xs, n - 1);
      FedAt(g, st, xs, n - 1);
    }
  }

  lemma ChannelOneMore(g: Rig, c: Channel, phases: seq<real>, xs: seq<real>, n: nat)
    requires Fits(g, c, phases, xs) && n <= |xs|
    ensures ChannelAt(g, c, phases, xs, 0) == c
    ensures 0 < n ==> ChannelAt(g, c, phases, xs, n)
                        == MB.After(g, ChannelAt(g, c, phases, xs, n - 1), phases[n - 1], xs[n - 1])
  {
    hide MB.After, Rig.Valid, Channel.Valid;
  }

  lemma FedAt(g: Rig, st: Stereo, xs: seq<(real, real)>, n: nat)
    requires g.Valid() && st.Valid() && n < |xs|
    ensures LeftOf(xs)[n] == xs[n].0 && RightOf(xs)[n] == xs[n].1
    ensures Phases(g, st, xs, 0.0)[n] == StateAt(g, st, xs, n).chPhase
    ensures Phases(g, st, xs, g.s.chSpread)[n] == StateAt(g, st, xs, n).chPhase + g.s.chSpread
  {
    hide StateAt, Rig.Valid, Stereo.Valid;
  }

  /** The loop over samples and channels puts out, on either side, what the chain of stages makes of that side's
      whole stream; only the modulation is common to both. */
  lemma LoopIsChain(g: Rig, st: Stereo, xs: seq<(real, real)>)
    requires g.Valid() && st.Valid()
    ensures LeftOf(Run(g, st, xs)) == ChainOut(g, st.left, Phases(g, st, xs, 0.0), LeftOf(xs))
    ensures RightOf(Run(g, st, xs)) == ChainOut(g, st.right, Phases(g, st, xs, g.s.chSpread), RightOf(xs))
  {
    hide MB.Out, StateAt, Run, Rig.Valid, Channel.Valid, ChainOut, ChannelAt;
    var left, right := Phases(g, st, xs, 0.0), Phases(g, st, xs, g.s.chSpread);
    forall n | 0 <= n < |xs|
      ensures Run(g, st, xs)[n].0 == ChainOut(g, st.left, left, LeftOf(xs))[n]
      ensures Run(g, st, xs)[n].1 == ChainOut(g, st.right, right, RightOf(xs))[n]
    {
      RunAt(g, st, xs, n);
      StateOfChannels(g, st, xs, n);
      ChainPutsOut(g, st.left, left, LeftOf(xs), n);
      ChainPutsOut(g, st.right, right, RightOf(xs), n);
    }
  }
}
