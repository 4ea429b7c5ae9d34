/**
 The bounds that one sample of `vst/src/engine/multibandDist.c` keeps once the shaper is engaged, so
 that the stage cannot run away, whatever the band filter hands it.
 */
module MultibandBounds {
  import opened Reals
  import opened Shapers
  import opened DelayLine
  import opened MultibandSettings
  import MB = MultibandSpec

  /** A bound on what the shaper can produce, for every model. */
  function Level(cv: Curves): (d: real)
    requires cv.Lawful()
    ensures 0.0 < d
  {
    SoftDefined(cv, 0.0);
    if 1.0 / cv.tanh(0.6) > 2.5 then 1.0 / cv.tanh(0.6) else 2.5
  }

  lemma BoundBelowLevel(cv: Curves, model: Model)
    requires cv.Lawful()
    ensures 0.0 <= Bound(cv, model) <= Level(cv)
  {
    SoftDefined(cv, 0.0);
  }

  /** No shaper exceeds d, whatever comes in. */
  ghost predicate Covers(cv: Curves, d: real)
    requires cv.Lawful()
  {
    forall model, u, shape :: 0.0 <= shape <= 1.0 ==> Abs(Shape(cv, model, u, shape)) <= d
  }

  lemma LevelCovers(cv: Curves)
    requires cv.Lawful()
    ensures Covers(cv, Level(cv))
  {
    hide Shape, Bound, Level, Curves.Lawful;
    forall model, u, shape | 0.0 <= shape <= 1.0
      ensures Abs(Shape(cv, model, u, shape)) <= Level(cv)
    {
      BoundBelowLevel(cv, model);
      ShapeBounded(cv, model, u, shape);
    }
  }

  /** The shaper is fully faded in. */
  ghost predicate Engaged(g: MB.Rig) {
    g.Valid() && g.s.shaperBlend == 1.0
  }

  /** The joint invariant of the hold, the DC blocker, the tilt pole and the feedback ring. What the
      blocker subtracts, dcX - dcY, is an average of earlier inputs, so it obeys their bound. */
  ghost predicate Bounded(d: real, c: MB.Channel) {
    && Abs(c.shHold) <= d && Abs(c.dcX) <= d && Abs(c.dcX - c.dcY) <= d
    && Abs(c.toneZ) <= 2.0 * d && AllWithin(c.line, 80.0 * d)
  }

  lemma FullBlend(u: real, f: real)
    ensures Mix(u, f, 1.0) == f
  {
  }

  lemma BlendedWithin(g: MB.Rig, d: real, u: real)
    requires Engaged(g) && Covers(g.cv, d)
    ensures Abs(MB.Blended(g, u)) <= d
  {
    hide Mix, Shape, InRange;
    InRangeShape(g.s);
    FullBlend(u, Shape(g.cv, g.s.model, u, g.s.shape));
  }

  /** Whatever the band filter hands it, the distortion stage gives at most e. */
  ghost predicate DistortsWithin(g: MB.Rig, c: MB.Channel, e: real)
    requires g.Valid() && c.Valid()
  {
    forall u :: Abs(MB.Distorted(g, c.up, c.down, u)) <= e
  }

  lemma InRangeShape(s: Settings)
    requires InRange(s)
    ensures 0.0 <= s.shape <= 1.0
  {
  }

  lemma QuantisedNear(s: Settings, d: real)
    requires 0.0 < s.bitStep <= 1.0
    ensures Abs(MB.Quantised(s, d) - d) <= 0.5
  {
    var q := s.bitStep;
    var n := d / q;
    var f := (n + 0.5).Floor as real - n;
    assert n * q == d;
    assert -0.5 <= f <= 0.5;
    assert MB.Quantised(s, d) - d == f * q by {
      assert (n + f) * q == n * q + f * q;
    }
    hide MB.Quantised;
    HalfStep(f, q);
  }

  lemma HalfStep(f: real, q: real)
    requires -0.5 <= f <= 0.5 && 0.0 < q <= 1.0
    ensures -0.5 <= f * q <= 0.5
  {
    ProductNonNegative(0.5 - f, q);
    ProductNonNegative(0.5 + f, q);
  }

  lemma CrushedBounded(s: Settings, level: real, shHold: real, shPhase: real, d: real)
    requires InRange(s) && Abs(shHold) <= level && Abs(d) <= level - 0.5
    ensures Abs(MB.Crushed(s, shHold, shPhase, d)) <= level
    ensures Abs(MB.HoldAfter(s, shHold, shPhase, d)) <= level
  {
    QuantisedNear(s, d);
    hide MB.Quantised, MB.HoldElapsed, InRange;
  }

  /** The blocker subtracts a weighted average of its last input and what it subtracted before, so what it
      subtracts obeys the bound of its inputs. */
  lemma BlockedBounded(s: Settings, level: real, dcX: real, dcY: real, d: real)
    requires InRange(s) && Abs(dcX) <= level && Abs(dcX - dcY) <= level && Abs(d) <= level
    ensures d - MB.Blocked(s, dcX, dcY, d) == Mix(dcX, dcX - dcY, s.dcR)
    ensures Abs(d - MB.Blocked(s, dcX, dcY, d)) <= level
    ensures Abs(MB.Blocked(s, dcX, dcY, d)) <= 2.0 * level
  {
    assert d - MB.Blocked(s, dcX, dcY, d) == Mix(dcX, dcX - dcY, s.dcR);
    var y := MB.Blocked(s, dcX, dcY, d);
    hide MB.Blocked, Mix;
    MixBounded(dcX, dcX - dcY, s.dcR, level);
    assert Abs(d - y) <= level;
    assert Abs(y) <= 2.0 * level;
  }

  lemma ToneBounded(s: Settings, level: real, toneZ: real, d: real)
    requires InRange(s) && Abs(toneZ) <= 2.0 * level && Abs(d) <= 2.0 * level
    ensures Abs(MB.ToneAfter(s, toneZ, d)) <= 2.0 * level
  {
    assert MB.ToneAfter(s, toneZ, d) == Mix(toneZ, d, s.toneA);
    hide MB.ToneAfter, Mix;
    MixBounded(toneZ, d, s.toneA, 2.0 * level);
  }

  lemma TiltedBounded(s: Settings, level: real, lp: real, d: real)
    requires InRange(s) && Abs(lp) <= 2.0 * level && Abs(d) <= 2.0 * level
    ensures Abs(MB.Tilted(s, lp, d)) <= 8.0 * level
  {
    var t := s.tilt;
    assert -1.0 <= t <= 1.0;
    hide InRange, Gained;
    GainedBounded(lp, 1.0 - t, 2.0 * level, 1.0 - t);
    GainedBounded(d - lp, 1.0 + t, 4.0 * level, 1.0 + t);
    TiltArithmetic(level, t);
  }

  lemma TiltArithmetic(level: real, t: real)
    requires 0.0 <= level && -1.0 <= t <= 1.0
    ensures Gained(2.0 * level, 1.0 - t) + Gained(4.0 * level, 1.0 + t) <= 8.0 * level
  {
    ProductNonNegative(level, 1.0 - t);
    assert Gained(2.0 * level, 1.0 - t) == 2.0 * level - 2.0 * (level * t);
    assert Gained(4.0 * level, 1.0 + t) == 4.0 * level + 4.0 * (level * t);
    assert level * (1.0 - t) == level - level * t;
  }

  lemma {:induction false} WetSumBounded(g: MB.Rig, line: seq<real>, phase: real, n: nat, m: real)
    requires 0 < g.s.chVoices && 0.0 <= m && AllWithin(line, m)
    ensures Abs(MB.WetSum(g, line, phase, n)) <= Gained(m, n as real)
  {
    hide Tap, MB.Delay, AllWithin, Gained;
    Multiples(m, n);
    if n != 0 {
      WetSumBounded(g, line, phase, n - 1, m);
      TapBounded(line, MB.Delay(g, phase, n - 1), m);
    }
  }

  lemma Multiples(m: real, n: nat)
    requires 0.0 <= m
    ensures if n == 0 then Gained(m, n as real) == 0.0 else Gained(m, n as real) == Gained(m, (n - 1) as real) + m
  {
  }

  lemma WetBounded(g: MB.Rig, line: seq<real>, phase: real, m: real)
    requires 0 < g.s.chVoices && 0.0 <= m && AllWithin(line, m)
    ensures Abs(MB.Wet(g, line, phase)) <= m
  {
    hide MB.WetSum, AllWithin, Gained;
    WetSumBounded(g, line, phase, g.s.chVoices, m);
    AverageBounded(MB.WetSum(g, line, phase, g.s.chVoices), g.s.chVoices as real, m);
  }

  lemma AverageBounded(sum: real, n: real, m: real)
    requires 0.0 < n && Abs(sum) <= Gained(m, n)
    ensures Abs(sum / n) <= m
  {
    assert (-m) * n == -(m * n);
    QuotientAtMost(sum, n, m);
    QuotientAtLeast(sum, n, -m);
  }

  /** Nine tenths of the ring's bound plus the input leaves the ring's bound. */
  lemma ChorusBounded(g: MB.Rig, line: seq<real>, phase: real, d: real, level: real)
    requires InRange(g.s) && 0.0 <= level && AllWithin(line, 80.0 * level) && Abs(d) <= 8.0 * level
    ensures AllWithin(MB.LineAfter(g, line, phase, d), 80.0 * level)
    ensures Abs(MB.Chorused(g, line, phase, d)) <= 80.0 * level
  {
    WetBounded(g, line, phase, 80.0 * level);
    var wet := MB.Wet(g, line, phase);
    hide MB.Wet, Mix, Gained;
    GainedBounded(wet, g.s.chFeedback, 80.0 * level, 0.9);
    NineTenths(level);
    MixBounded(d, wet, g.s.chMix, 80.0 * level);
  }

  lemma NineTenths(level: real)
    ensures Gained(80.0 * level, 0.9) == 72.0 * level
  {
  }

  /** What split routing takes out of the input before the processed band is put back. */
  function Leak(s: Settings, b: real): real {
    if s.routing == Split then Abs(b) else 0.0
  }

  lemma OutputBounded(s: Settings, x: real, b: real, d: real, m: real)
    requires InRange(s) && Abs(d) <= m
    ensures Abs(MB.Output(s, x, b, d)) <= Abs(x) + Leak(s, b) + m
  {
    hide Mix;
    if s.routing == Split {
      MixBounded(x, (x - b) + d, s.mix, Abs(x) + Abs(b) + m);
    } else {
      MixBounded(x, x + d, s.mix, Abs(x) + m);
    }
  }

  lemma BandGained(s: Settings, y: real, level: real)
    requires InRange(s) && Abs(y) <= 80.0 * level
    ensures Abs(Gained(y, s.bandGain)) <= 160.0 * level
  {
    GainedBounded(y, s.bandGain, 80.0 * level, 2.0);
    assert Gained(80.0 * level, 2.0) == 160.0 * level;
    hide Gained;
  }

  lemma SignalsBounded(g: MB.Rig, c: MB.Channel, d: real, x: real)
    requires g.Valid() && c.Valid() && Bounded(d, c) && DistortsWithin(g, c, d - 0.5)
    ensures var q := MB.SignalsOf(g, c, x);
            && Abs(q.shaped) <= d - 0.5 && Abs(q.crushed) <= d && Abs(q.crushed - q.blocked) <= d
            && Abs(q.lp) <= 2.0 * d && Abs(q.toned) <= 8.0 * d
  {
    hide InRange, MB.Distorted, MB.Crushed, MB.Blocked, MB.ToneAfter, MB.Tilted, MB.BandSignal, MB.Driven,
         Curves.Lawful;
    var q := MB.SignalsOf(g, c, x);
    assert Abs(MB.Distorted(g, c.up, c.down, q.driven)) <= d - 0.5;
    CrushedBounded(g.s, d, c.shHold, c.shPhase, q.shaped);
    BlockedBounded(g.s, d, c.dcX, c.dcY, q.crushed);
    ToneBounded(g.s, d, c.toneZ, q.blocked);
    TiltedBounded(g.s, d, q.lp, q.blocked);
  }

  /** If the distortion stage stays half a bit step below d, one sample keeps the invariant, and the
      output exceeds the input by at most a constant; with split routing also by what the band filter
      takes out. */
  lemma StepBounded(g: MB.Rig, c: MB.Channel, d: real, phase: real, x: real)
    requires g.Valid() && c.Valid() && Bounded(d, c) && DistortsWithin(g, c, d - 0.5)
    ensures Bounded(d, MB.After(g, c, phase, x))
    ensures Abs(MB.Out(g, c, phase, x)) <= Abs(x) + Leak(g.s, MB.SignalsOf(g, c, x).b) + 160.0 * d
  {
    hide Leak, Curves.Lawful, InRange, MB.SignalsOf, MB.LineAfter, MB.Chorused, MB.HoldAfter, AllWithin, Gained,
         MB.Output, MB.PhaseAfter, MB.BandsAfter;
    var q := MB.SignalsOf(g, c, x);
    MB.InRangeVoices(g.s);
    SignalsBounded(g, c, d, x);
    SignalsParts(g, c, x);
    CrushedBounded(g.s, d, c.shHold, c.shPhase, q.shaped);
    ChorusBounded(g, c.line, phase, q.toned, d);
    var y := MB.Chorused(g, c.line, phase, q.toned);
    BandGained(g.s, y, d);
    OutputBounded(g.s, x, q.b, Gained(y, g.s.bandGain), 160.0 * d);
  }

  lemma SignalsParts(g: MB.Rig, c: MB.Channel, x: real)
    requires g.Valid() && c.Valid()
    ensures MB.SignalsOf(g, c, x).crushed == MB.Crushed(g.s, c.shHold, c.shPhase, MB.SignalsOf(g, c, x).shaped)
  {
  }

  lemma InRangeBlend(s: Settings)
    requires InRange(s)
    ensures 0.0 <= s.shaperBlend <= 1.0
  {
  }
}
