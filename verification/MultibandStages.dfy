/**
 What the single stages of `vst/src/engine/multibandDist.c` do to a stream, independently of how they
 are computed: when it is skipped, how often the hold samples, what the DC blocker leaves of a
 constant, what a tap reads.
 */
module MultibandStages {
  import opened Reals
  import opened Shapers
  import opened MultibandSettings
  import opened MultibandSpec
  import opened Biquads
  import DelayLine

  lemma MixEnds(x: real, y: real)
    ensures Mix(x, y, 0.0) == x && Mix(x, y, 1.0) == y
  {
  }

  // ---- the dials ----

  /** The stage is skipped exactly when, in the dials' own terms, nothing could colour the band. */
  lemma TransparentIff(pw: Powers, hostFs: int, v: Dials)
    requires pw.Lawful()
    ensures Configure(pw, hostFs, v).transparent <==>
              || v.mixPct <= 0.0
              || (v.drivePct <= 0.0 && v.chorusMixPct <= 0.01 && v.routing != 1
                  && Abs(v.tonePct - 50.0) < 0.00005 && Abs(v.bandGainPct - 100.0) < 0.0001
                  && Abs(v.biasPct) < 0.0000002)
  {
    hide Rate, FitDelays, Powers.Lawful;
  }

  // ---- band select ----

  /** What the sections remember after the first n samples. */
  ghost function BandsAt(g: Rig, bands: seq<Memory>, xs: seq<real>, n: nat): (r: seq<Memory>)
    requires |g.sections| <= |bands| && n <= |xs|
    ensures |r| == |bands|
  {
    if n == 0 then bands else BandsAfter(g, BandsAt(g, bands, xs, n - 1), xs[n - 1])
  }

  lemma {:induction false} BandsAreCascade(g: Rig, bands: seq<Memory>, xs: seq<real>, n: nat)
    requires |g.sections| <= |bands| && n <= |xs|
    ensures var k := |g.sections|;
            BandsAt(g, bands, xs, n) == MemoriesAt(g.sections, bands[..k], xs, n) + bands[k..]
  {
    hide Advance;
    if n != 0 {
      BandsAreCascade(g, bands, xs, n - 1);
    }
  }

  /** The selected band of a stream is what the cascade of the sections in use makes of it; without sections
      it is the whole signal. */
  lemma BandIsCascade(g: Rig, bands: seq<Memory>, xs: seq<real>, n: nat)
    requires |g.sections| <= |bands| && n < |xs|
    ensures BandSignal(g, BandsAt(g, bands, xs, n), xs[n])
         == CascadeStream(g.sections, bands[..|g.sections|], xs)[n]
    ensures g.sections == [] ==> BandSignal(g, BandsAt(g, bands, xs, n), xs[n]) == xs[n]
  {
    BandsAreCascade(g, bands, xs, n);
    hide MemoriesAt, BandsAt;
  }

  // ---- drive and blend ----

  /** The bias is added before the gain, so the drive turns about the point where the band cancels it. */
  lemma DriveTurnsAboutBias(s: Settings, b: real)
    ensures Driven(s, -s.bias) == 0.0 && Driven(s, b) == Gained(b - -s.bias, s.drive)
  {
  }

  /** What the shaper changes about a sample is faded in by the blend. */
  lemma ShaperFadesIn(g: Rig, u: real)
    requires g.cv.Lawful() && InRange(g.s)
    ensures Blended(g, u) - u == Gained(Shape(g.cv, g.s.model, u, g.s.shape) - u, g.s.shaperBlend)
  {
    hide Shape, InRange, Curves.Lawful;
  }

  // ---- sample and hold ----

  /** The phase of the hold after n samples. */
  ghost function HoldPhase(s: Settings, phase: real, n: nat): real {
    if n == 0 then phase else PhaseAfter(s, HoldPhase(s, phase, n - 1))
  }

  /** How many of the first n samples refreshed the held value. */
  ghost function Refreshes(s: Settings, phase: real, n: nat): nat {
    if n == 0 then 0
    else Refreshes(s, phase, n - 1) + if HoldElapsed(s, HoldPhase(s, phase, n - 1)) then 1 else 0
  }

  /** No time is lost between refreshes, every one accounts for exactly the hold length; and from a
      phase inside the hold the number of refreshes is the elapsed time divided by it, rounded down.
      A hold length just shortened may leave the phase beyond it. */
  lemma {:induction false} HoldCadence(s: Settings, phase: real, n: nat)
    requires InRange(s) && s.model == Crush && 0.0 <= phase
    ensures HoldPhase(s, phase, n) + Gained(s.holdLen, Refreshes(s, phase, n) as real) == phase + n as real
    ensures 0.0 <= HoldPhase(s, phase, n)
    ensures phase < s.holdLen ==> HoldPhase(s, phase, n) < s.holdLen
  {
    if n == 0 {
      assert Gained(s.holdLen, 0.0) == 0.0;
    } else {
      HoldCadence(s, phase, n - 1);
      OneMore(s.holdLen, Refreshes(s, phase, n - 1));
      hide Gained;
    }
  }

  lemma OneMore(x: real, k: nat)
    ensures Gained(x, (k + 1) as real) == Gained(x, k as real) + x
  {
  }

  /** The held value after n samples. */
  ghost function Held(s: Settings, hold: real, phase: real, ds: seq<real>, n: nat): real
    requires s.bitStep != 0.0 && n <= |ds|
  {
    if n == 0 then hold
    else HoldAfter(s, Held(s, hold, phase, ds, n - 1), HoldPhase(s, phase, n - 1), ds[n - 1])
  }

  /** What leaves the stage is the quantised input of the last refresh, this sample's if it is one, and
      before the first what was held at the start; other models pass through. */
  lemma {:induction false} HoldsLastRefresh(s: Settings, hold: real, phase: real, ds: seq<real>, n: nat)
    returns (m: nat)
    requires s.bitStep != 0.0 && n < |ds|
    ensures var out := Crushed(s, Held(s, hold, phase, ds, n), HoldPhase(s, phase, n), ds[n]);
            if s.model != Crush then out == ds[n]
            else
              && out == Held(s, hold, phase, ds, n + 1)
              && m <= n + 1 && (forall i: nat :: m <= i <= n ==> !HoldElapsed(s, HoldPhase(s, phase, i)))
              && (m == 0 ==> out == hold)
              && (0 < m ==> HoldElapsed(s, HoldPhase(s, phase, m - 1)) && out == Quantised(s, ds[m - 1]))
  {
    hide Quantised, HoldElapsed, HoldPhase;
    m := 0;
    if s.model == Crush {
      if HoldElapsed(s, HoldPhase(s, phase, n)) {
        m := n + 1;
      } else if n != 0 {
        m := HoldsLastRefresh(s, hold, phase, ds, n - 1);
      }
    }
  }

  /** Quantising gives the multiple of the step nearest to the input, and leaves multiples alone. */
  lemma QuantisedIsNearest(s: Settings, d: real, k: int) returns (m: int)
    requires 0.0 < s.bitStep
    ensures Quantised(s, d) == Gained(m as real, s.bitStep) && -0.5 < m as real - d / s.bitStep <= 0.5
    ensures Quantised(s, Gained(k as real, s.bitStep)) == Gained(k as real, s.bitStep)
  {
    m := (d / s.bitStep + 0.5).Floor;
    MultipleOf(k, s.bitStep);
    hide Gained;
  }

  lemma MultipleOf(k: int, q: real)
    requires 0.0 < q
    ensures (Gained(k as real, q) / q + 0.5).Floor == k
  {
    assert Gained(k as real, q) / q == k as real;
  }

  // ---- DC removal ----

  /** The blocker's output n samples into a stretch of constant input. */
  ghost function BlockedConstant(s: Settings, dcY: real, d: real, n: nat): real {
    if n == 0 then dcY else Blocked(s, d, BlockedConstant(s, dcY, d, n - 1), d)
  }

  /** Of a constant the blocker leaves a geometrically vanishing rest, whatever the constant is. */
  lemma {:induction false} BlockerRemovesConstants(s: Settings, dcY: real, d: real, n: nat)
    ensures BlockedConstant(s, dcY, d, n) == Gained(dcY, Power(s.dcR, n))
  {
    if n != 0 {
      BlockerRemovesConstants(s, dcY, d, n - 1);
      var p := Power(s.dcR, n - 1);
      assert Power(s.dcR, n) == s.dcR * p;
      GainsCompose(dcY, p, s.dcR);
    } else {
      assert Gained(dcY, 1.0) == dcY;
    }
  }

  lemma GainsCompose(x: real, g: real, h: real)
    ensures Gained(Gained(x, g), h) == Gained(x, h * g)
  {
  }

  /** Of any constant, from any state, less than any positive rest is left after some time. */
  lemma BlockerSettles(s: Settings, dcY: real, eps: real) returns (from: nat)
    requires InRange(s) && 0.0 < eps
    ensures forall d: real, n: nat :: from <= n ==> Abs(BlockedConstant(s, dcY, d, n)) < eps
  {
    hide Power, Gained, BlockedConstant;
    assert Abs(s.dcR) < 1.0;
    from := PowersVanish(s.dcR, dcY, eps);
    forall d: real, n: nat | from <= n ensures Abs(BlockedConstant(s, dcY, d, n)) < eps {
      BlockerRemovesConstants(s, dcY, d, n);
    }
  }

  // ---- tilt ----

  /** What the tilt's pole holds after n samples of the constant d. */
  ghost function ToneOfConstant(s: Settings, toneZ: real, d: real, n: nat): real {
    if n == 0 then toneZ else ToneAfter(s, ToneOfConstant(s, toneZ, d, n - 1), d)
  }

  /** The pole closes the same fraction of its distance to a constant every sample. */
  lemma {:induction false} ToneApproaches(s: Settings, toneZ: real, d: real, n: nat)
    ensures d - ToneOfConstant(s, toneZ, d, n) == Gained(d - toneZ, Power(1.0 - s.toneA, n))
  {
    if n == 0 {
      assert Gained(d - toneZ, 1.0) == d - toneZ;
    } else {
      ToneApproaches(s, toneZ, d, n - 1);
      var p := Power(1.0 - s.toneA, n - 1);
      assert Power(1.0 - s.toneA, n) == (1.0 - s.toneA) * p;
      hide Power;
      GainsCompose(d - toneZ, p, 1.0 - s.toneA);
      PoleStep(s, ToneOfConstant(s, toneZ, d, n - 1), d);
    }
  }

  lemma PoleStep(s: Settings, z: real, d: real)
    ensures d - ToneAfter(s, z, d) == Gained(d - z, 1.0 - s.toneA)
  {
  }

  /** A constant leaves the tilt at one minus the tilt of its level, up to twice the tilt of what the pole has
      not caught up with; so the dial turns the lows down and up, and the highs, which the pole does not
      follow, the other way. */
  lemma TiltOfConstant(s: Settings, toneZ: real, d: real, n: nat)
    ensures Tilted(s, ToneOfConstant(s, toneZ, d, n), d)
         == Gained(d, 1.0 - s.tilt) + Gained(2.0 * Gained(d - toneZ, Power(1.0 - s.toneA, n)), s.tilt)
  {
    ToneApproaches(s, toneZ, d, n);
    hide ToneOfConstant, Power;
    TiltSplits(s, ToneOfConstant(s, toneZ, d, n), d);
  }

  lemma TiltSplits(s: Settings, lp: real, d: real)
    ensures Tilted(s, lp, d) == Gained(d, 1.0 - s.tilt) + Gained(2.0 * (d - lp), s.tilt)
  {
  }

  // ---- chorus ----

  /** A whole number of samples reads exactly that push; any other delay reads between two
      neighbouring pushes. */
  lemma TapReads(line: seq<real>, delay: real, k: nat)
    ensures delay == k as real ==> DelayLine.Tap(line, delay) == DelayLine.Pushed(line, |line| - k)
    ensures var i := (|line| as real - delay).Floor;
            var a, b := DelayLine.Pushed(line, i), DelayLine.Pushed(line, i + 1);
            && (a <= b ==> a <= DelayLine.Tap(line, delay) <= b) && (b <= a ==> b <= DelayLine.Tap(line, delay) <= a)
  {
    var when := |line| as real - delay;
    var i := when.Floor;
    var a, b := DelayLine.Pushed(line, i), DelayLine.Pushed(line, i + 1);
    DelayLine.InterpolatedIsMix(a, b, when - i as real);
    MixBetween(a, b, when - i as real);
    if delay == k as real {
      assert i == |line| - k && when - i as real == 0.0;
      MixEnds(a, b);
    }
    hide DelayLine.Interpolated, Mix;
  }
}
