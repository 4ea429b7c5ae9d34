/**
 What `MultibandDistSetParam` of `vst/src/engine/multibandDist.c` makes of each dial, in the units of the
 dial and of the stored value: the range of every dial is spread evenly over the range of its value.
 */
module DialLaws {
  import opened Reals
  import opened Shapers
  import opened MultibandSettings

  /** Where the dial stands between its ends, from 0 to 1. */
  function Position(x: real, lo: real, hi: real): real
    requires lo < hi
  {
    (Clamp(x, lo, hi) - lo) / (hi - lo)
  }

  // Mix(a, b, Position(x, lo, hi)) runs from a to b while x runs from lo to hi.

  lemma LevelDials(pw: Powers, hostFs: int, v: Dials)
    requires pw.Lawful()
    ensures var s := Configure(pw, hostFs, v);
            && s.drive == pw.ten(Mix(0.0, 1.5, Position(v.drivePct, 0.0, 100.0)))
            && s.shaperBlend == Position(v.drivePct, 0.0, 10.0)
            && s.bias == Mix(-0.5, 0.5, Position(v.biasPct, -100.0, 100.0))
            && s.shape == Position(v.shapePct, 0.0, 100.0)
            && s.tilt == Mix(-1.0, 1.0, Position(v.tonePct, 0.0, 100.0))
            && s.bandGain == Mix(0.0, 2.0, Position(v.bandGainPct, 0.0, 200.0))
            && s.mix == Position(v.mixPct, 0.0, 100.0)
  {
    hide FitDelays, Rate, Powers.Lawful;
    assert Clamp(v.drivePct, 0.0, 100.0) * 0.01 * 1.5 == Mix(0.0, 1.5, Position(v.drivePct, 0.0, 100.0));
  }

  lemma CrushDials(pw: Powers, hostFs: int, v: Dials)
    requires pw.Lawful()
    ensures var s := Configure(pw, hostFs, v);
            && Gained(s.bitStep, pw.two(Clamp(v.bits, 1.0, 16.0) - 1.0)) == 1.0
            && s.holdLen == Mix(1.0, 32.0, Position(v.downsamplePct, 0.0, 100.0))
  {
    StepsDefined(pw, Clamp(v.bits, 1.0, 16.0));
    hide FitDelays, Rate, Powers.Lawful;
  }

  lemma ChorusDials(pw: Powers, hostFs: int, v: Dials)
    requires pw.Lawful()
    ensures var s := Configure(pw, hostFs, v);
            && s.chFeedback == Mix(0.0, 0.9, Position(v.chorusFeedbackPct, 0.0, 90.0))
            && s.chSpread == Mix(0.0, 0.5, Position(v.chorusSpreadPct, 0.0, 100.0))
            && s.chMix == Position(v.chorusMixPct, 0.0, 100.0)
            && (1 <= v.chorusVoices <= 4 ==> s.chVoices == v.chorusVoices)
            && (v.chorusVoices < 1 ==> s.chVoices == 1) && (4 < v.chorusVoices ==> s.chVoices == 4)
  {
    hide FitDelays, Rate, Powers.Lawful;
  }

  /** The values that depend on the rate: turns per second, the blocker's 126 radians per second, the tilt's
      corner at 900 Hz; and a base delay of twelve milliseconds swept by the depth dial, of which the ring cuts
      off what it cannot hold, from the depth first. */
  lemma RateDials(pw: Powers, hostFs: int, v: Dials)
    requires pw.Lawful()
    ensures var s, fs := Configure(pw, hostFs, v), if hostFs < 8000 then 48000.0 else hostFs as real;
            && Gained(s.chInc, fs) == Clamp(v.chorusRateHz, 0.01, 10.0)
            && Gained(1.0 - s.dcR, fs) == 126.0
            && Gained(s.toneA, fs + 1800.0 * pw.pi) == 1800.0 * pw.pi
            && var base, depth := 12.0 * fs / 1000.0, Clamp(v.chorusDepthMs, 0.0, 25.0) * fs / 1000.0;
               if base + depth <= 8184.0 then s.chBase == base && s.chDepth == depth
               else s.chBase + s.chDepth == 8184.0 && s.chBase == if base <= 8184.0 then base else 8184.0
  {
    var fs := Rate(hostFs);
    assert fs == if hostFs < 8000 then 48000.0 else hostFs as real;
    RatesDefined(pw, hostFs);
    StepsDefined(pw, Clamp(v.bits, 1.0, 16.0));
    var tc := 2.0 * pw.pi * 900.0 / fs;
    CornerFraction(pw.pi, fs, tc);
    MillisecondsOf(Clamp(v.chorusDepthMs, 0.0, 25.0), fs);
    FitsFromDepth(0.012 * fs, Clamp(v.chorusDepthMs, 0.0, 25.0) * 0.001 * fs);
    TimesQuotient(Clamp(v.chorusRateHz, 0.01, 10.0), fs);
    TimesQuotient(126.0, fs);
    hide Rate, FitDelays, Powers.Lawful, Gained;
    assert 1.0 - (1.0 - 126.0 / fs) == 126.0 / fs;
  }

  lemma TimesQuotient(x: real, d: real)
    requires d != 0.0
    ensures Gained(x / d, d) == x
  {
  }

  lemma CornerFraction(pi: real, fs: real, tc: real)
    requires 3.0 < pi && 8000.0 <= fs && tc == 2.0 * pi * 900.0 / fs
    ensures 0.0 < 1.0 + tc && Gained(tc / (1.0 + tc), fs + 1800.0 * pi) == 1800.0 * pi
  {
    var c := 1800.0 * pi;
    assert tc * fs == c;
    QuotientAtLeast(2.0 * pi * 900.0, fs, 0.0);
    var a := tc / (1.0 + tc);
    assert a * (1.0 + tc) == tc;
    assert a * (fs + tc * fs) == (a * (1.0 + tc)) * fs;
  }

  lemma MillisecondsOf(ms: real, fs: real)
    ensures ms * 0.001 * fs == ms * fs / 1000.0 && 0.012 * fs == 12.0 * fs / 1000.0
  {
  }

  lemma FitsFromDepth(base: real, depth: real)
    requires 0.0 <= base && 0.0 <= depth
    ensures var (b, d) := FitDelays(base, depth);
            if base + depth <= 8184.0 then b == base && d == depth
            else b + d == 8184.0 && b == if base <= 8184.0 then base else 8184.0
  {
  }

  /** The two choices: only the number 1 asks for parallel routing, and the models are numbered in the order
      of their list, any other number meaning the first. */
  lemma Choices(pw: Powers, hostFs: int, v: Dials)
    requires pw.Lawful()
    ensures var s, models := Configure(pw, hostFs, v), [Soft, Hard, Tube, Overdrive, Fold, Fuzz, Rectify, Crush];
            && (s.routing == Parallel <==> v.routing == 1)
            && s.model == if 0 <= v.model < |models| then models[v.model] else Soft
  {
    hide FitDelays, Rate, Powers.Lawful;
  }
}
