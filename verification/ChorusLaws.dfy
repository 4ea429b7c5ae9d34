/**
 What the chorus of `vst/src/engine/multibandDist.c` does over time: how its delays move, what it echoes when
 they stand still, and how the right channel follows the left.
 */
module ChorusLaws {
  import opened Naturals
  import opened Reals
  import opened Trigonometry
  import opened DelayLine
  import opened MultibandSettings
  import opened MultibandSpec

  // ---- the modulation ----

  /** The modulation phase counts increments, less whole turns. */
  lemma {:induction false} PhaseCounts(g: Rig, st: Stereo, xs: seq<(real, real)>, n: nat) returns (turns: nat)
    requires g.Valid() && st.Valid() && n <= |xs| && 0.0 <= st.chPhase < 1.0
    ensures 0.0 <= StateAt(g, st, xs, n).chPhase < 1.0
    ensures StateAt(g, st, xs, n).chPhase == st.chPhase + Gained(g.s.chInc, n as real) - turns as real
  {
    hide After, Stereo.Valid;
    turns := 0;
    if n == 0 {
      assert Gained(g.s.chInc, 0.0) == 0.0;
    } else {
      turns := PhaseCounts(g, st, xs, n - 1);
      var p := StateAt(g, st, xs, n - 1).chPhase;
      OneMoreIncrement(g.s.chInc, n - 1);
      if p + g.s.chInc >= 1.0 {
        turns := turns + 1;
      }
      hide Gained;
    }
  }

  lemma OneMoreIncrement(x: real, n: nat)
    ensures Gained(x, (n + 1) as real) == Gained(x, n as real) + x
  {
  }

  lemma FractionOfTurns(p: real, k: int)
    ensures Fraction(p + k as real) == Fraction(p) && 0.0 <= Fraction(p) < 1.0
  {
    assert (p + k as real).Floor == p.Floor + k;
  }

  /** The modulation starts from nothing, is at its full height half a turn later, and its two halves mirror
      each other. */
  lemma LfoLaw(t: Trig, p: real)
    requires t.Lawful()
    ensures Lfo(t, 0.0) == 0.0 && Lfo(t, 0.5) == 1.0
    ensures Lfo(t, p + 0.5) == 1.0 - Lfo(t, p) && Lfo(t, -p) == Lfo(t, p)
  {
    t.CosineRange(0.0);
    assert Turn(t, 0.0) == 0.0 && Turn(t, 0.5) == t.pi;
    assert Turn(t, p + 0.5) == Turn(t, p) + t.pi && Turn(t, -p) == -Turn(t, p);
    assert t.AdditionAt(Turn(t, p), t.pi) && t.ParityAt(Turn(t, p));
    hide Turn;
  }

  /** The voices are spread evenly over the turn, and whole turns do not matter. */
  lemma VoicesSpread(g: Rig, phase: real, v: nat, k: int)
    requires 0 < g.s.chVoices
    ensures Delay(g, phase, v) == Delay(g, phase + v as real / g.s.chVoices as real, 0)
    ensures Delay(g, phase + k as real, v) == Delay(g, phase, v)
  {
    hide Lfo, Fraction, Gained;
    var share := v as real / g.s.chVoices as real;
    FractionOfTurns(phase + share, k);
    assert phase + k as real + share == phase + share + k as real;
    assert 0 as real / g.s.chVoices as real == 0.0;
    assert phase + share + 0.0 == phase + share;
  }

  /** The delay of a voice is the base where its turn begins and base and depth together in the middle. */
  lemma DelaySweep(g: Rig, phase: real)
    requires g.Valid() && 0 < g.s.chVoices
    ensures Fraction(phase) == 0.0 ==> Delay(g, phase, 0) == g.s.chBase
    ensures Fraction(phase) == 0.5 ==> Delay(g, phase, 0) == g.s.chBase + g.s.chDepth
  {
    LfoLaw(g.trig, 0.0);
    hide Lfo, Fraction, Trig.Lawful, InRange;
    assert VoicePhase(phase, 0, g.s.chVoices) == Fraction(phase) by {
      assert 0 as real / g.s.chVoices as real == 0.0;
      assert phase + 0.0 == phase;
    }
    GainEnds(g.s.chDepth);
    hide Gained;
  }

  lemma GainEnds(x: real)
    ensures Gained(x, 0.0) == 0.0 && Gained(x, 1.0) == x
  {
  }

  // ---- echoes ----

  /** With no depth all voices read the same push, and so does their average. */
  lemma StillWet(g: Rig, line: seq<real>, phase: real, d: nat)
    requires g.Valid() && 0 < g.s.chVoices && g.s.chDepth == 0.0 && g.s.chBase == d as real
    ensures Wet(g, line, phase) == Pushed(line, |line| - d)
  {
    hide WetSum, Tap, Trig.Lawful, InRange;
    var y := Pushed(line, |line| - d);
    StillSum(g, line, phase, d, g.s.chVoices);
    AverageOfSame(y, g.s.chVoices);
  }

  lemma {:induction false} StillSum(g: Rig, line: seq<real>, phase: real, d: nat, n: nat)
    requires g.Valid() && 0 < g.s.chVoices && g.s.chDepth == 0.0 && g.s.chBase == d as real
    ensures WetSum(g, line, phase, n) == Gained(Pushed(line, |line| - d), n as real)
  {
    hide Lfo, Trig.Lawful, InRange, Tap;
    var y := Pushed(line, |line| - d);
    if n == 0 {
      GainEnds(y);
    } else {
      StillSum(g, line, phase, d, n - 1);
      NoDepth(Lfo(g.trig, VoicePhase(phase, n - 1, g.s.chVoices)));
      WholeTap(line, d);
      OneMoreIncrement(y, n - 1);
      hide Gained;
    }
  }

  lemma NoDepth(lfo: real)
    ensures Gained(0.0, lfo) == 0.0
  {
  }

  lemma WholeTap(line: seq<real>, d: nat)
    ensures Tap(line, d as real) == Pushed(line, |line| - d)
  {
    assert (|line| as real - d as real).Floor == |line| - d;
  }

  lemma AverageOfSame(y: real, n: int)
    requires 0 < n
    ensures Gained(y, n as real) / n as real == y
  {
  }

  /** The line after the first n samples of a stream have gone into the chorus. */
  ghost function LineAt(g: Rig, line: seq<real>, phases: seq<real>, ds: seq<real>, n: nat): seq<real>
    requires 0 < g.s.chVoices && n <= |ds| == |phases|
  {
    if n == 0 then line else LineAfter(g, LineAt(g, line, phases, ds, n - 1), phases[n - 1], ds[n - 1])
  }

  lemma {:induction false} OnePushEach(g: Rig, phases: seq<real>, ds: seq<real>, n: nat)
    requires 0 < g.s.chVoices && g.chorusOn && n <= |ds| == |phases|
    ensures |LineAt(g, [], phases, ds, n)| == n
    ensures 0 < n ==> LineAt(g, [], phases, ds, n - 1) <= LineAt(g, [], phases, ds, n)
  {
    hide Wet, Gained;
    if n != 0 {
      OnePushEach(g, phases, ds, n - 1);
    }
  }

  /** With the delay standing still at d samples the ring is a comb: every push is the input plus the fed back
      push of d samples before, and that is what the mix hears. */
  lemma {:induction false} CombOfLine(g: Rig, phases: seq<real>, ds: seq<real>, d: nat, n: nat)
    requires g.Valid() && 0 < g.s.chVoices && g.chorusOn && n < |ds| == |phases|
    requires g.s.chDepth == 0.0 && g.s.chBase == d as real && 0 < d
    ensures var line, echo := LineAt(g, [], phases, ds, n + 1), Pushed(LineAt(g, [], phases, ds, n), n - d);
            && |line| == n + 1 && line[n] == ds[n] + Gained(echo, g.s.chFeedback)
            && Chorused(g, LineAt(g, [], phases, ds, n), phases[n], ds[n]) == Mix(ds[n], echo, g.s.chMix)
  {
    OnePushEach(g, phases, ds, n);
    OnePushEach(g, phases, ds, n + 1);
    StillWet(g, LineAt(g, [], phases, ds, n), phases[n], d);
    hide Wet, Mix, Gained, InRange;
  }

  /** A click comes back every d samples, each time smaller by the feedback. */
  lemma {:induction false} EchoesOfClick(g: Rig, phases: seq<real>, ds: seq<real>, d: nat, n: nat)
    requires g.Valid() && 0 < g.s.chVoices && g.chorusOn && n < |ds| == |phases|
    requires g.s.chDepth == 0.0 && g.s.chBase == d as real && 0 < d
    requires ds[0] == 1.0 && forall i :: 0 < i < |ds| ==> ds[i] == 0.0
    ensures |LineAt(g, [], phases, ds, n + 1)| == n + 1
    ensures LineAt(g, [], phases, ds, n + 1)[n] == if n % d == 0 then Power(g.s.chFeedback, n / d) else 0.0
    decreases n
  {
    hide LineAfter, LineAt, Wet, Gained, Mix, Rig.Valid, Power;
    CombOfLine(g, phases, ds, d, n);
    OnePushEach(g, phases, ds, n);
    if n < d {
      BeforeFirstEcho(n, d, g.s.chFeedback);
    } else {
      EchoesOfClick(g, phases, ds, d, n - d);
      PrefixOfLine(g, phases, ds, n - d + 1, n);
      EchoAgain(n, d, g.s.chFeedback);
    }
  }

  lemma BeforeFirstEcho(n: nat, d: nat, fb: real)
    requires n < d
    ensures n / d == 0 && n % d == n && Power(fb, 0) == 1.0 && Gained(0.0, fb) == 0.0
  {
  }

  lemma EchoAgain(n: nat, d: nat, fb: real)
    requires 0 < d <= n
    ensures (n - d) % d == n % d && n / d == (n - d) / d + 1
    ensures Gained(Power(fb, (n - d) / d), fb) == Power(fb, n / d) && Gained(0.0, fb) == 0.0
  {
    DivideAfter(n - d, d);
    var k := (n - d) / d;
    assert Power(fb, k + 1) == fb * Power(fb, k);
    hide Power;
  }

  lemma DivideAfter(m: nat, d: nat)
    requires 0 < d
    ensures (m + d) % d == m % d && (m + d) / d == m / d + 1
  {
    var q, r := m / d, m % d;
    assert m + d == d * (q + 1) + r;
    QuotientUnique(m + d, d, q + 1, r);
  }

  lemma {:induction false} PrefixOfLine(g: Rig, phases: seq<real>, ds: seq<real>, m: nat, n: nat)
    requires 0 < g.s.chVoices && g.chorusOn && m <= n <= |ds| == |phases|
    ensures LineAt(g, [], phases, ds, m) <= LineAt(g, [], phases, ds, n)
    decreases n - m
  {
    hide LineAt;
    if m < n {
      PrefixOfLine(g, phases, ds, m, n - 1);
      OnePushEach(g, phases, ds, n);
    }
  }

  // ---- the right channel ----

  lemma {:induction false} SumOfTurns(g: Rig, line: seq<real>, phase: real, k: int, n: nat)
    requires 0 < g.s.chVoices
    ensures WetSum(g, line, phase + k as real, n) == WetSum(g, line, phase, n)
  {
    hide Delay, Tap;
    if n != 0 {
      SumOfTurns(g, line, phase, k, n - 1);
      VoicesSpread(g, phase, n - 1, k);
    }
  }

  /** Whole turns of the modulation change nothing about a sample. */
  lemma SampleOfTurns(g: Rig, c: Channel, phase: real, x: real, k: int)
    requires g.Valid() && c.Valid()
    ensures Out(g, c, phase + k as real, x) == Out(g, c, phase, x)
    ensures After(g, c, phase + k as real, x) == After(g, c, phase, x)
  {
    InRangeVoices(g.s);
    SumOfTurns(g, c.line, phase, k, g.s.chVoices);
    hide WetSum, SignalsOf, Output, BandsAfter, UpNext, DownNext, HoldAfter, PhaseAfter, Gained, Mix, InRange;
  }

  /** One sample of two sides with the same state and input, whose phases differ by whole turns. */
  lemma SidesStep(g: Rig, e: Stereo, f: Stereo, x: (real, real), y: (real, real), k: int) returns (k': int)
    requires g.Valid() && e.Valid() && f.Valid() && y.0 == x.1
    requires f.left == e.right && f.chPhase == e.chPhase + g.s.chSpread + k as real
    ensures StereoAfter(g, f, y).left == StereoAfter(g, e, x).right
    ensures StereoAfter(g, f, y).chPhase == StereoAfter(g, e, x).chPhase + g.s.chSpread + k' as real
  {
    hide After, Rig.Valid, Channel.Valid, PhaseStep, Out;
    SampleOfTurns(g, e.right, e.chPhase + g.s.chSpread, x.1, k);
    k' := PhasesStep(g.s, e.chPhase, f.chPhase, k);
  }

  lemma PhasesStep(s: Settings, p: real, q: real, k: int) returns (k': int)
    requires q == p + s.chSpread + k as real
    ensures PhaseStep(s, q) == PhaseStep(s, p) + s.chSpread + k' as real
  {
    k' := k + (if p + s.chInc >= 1.0 then 1 else 0) - (if q + s.chInc >= 1.0 then 1 else 0);
  }

  /** The two sides stay alike over whole streams. */
  lemma {:induction false} SidesAlike(g: Rig, a: Stereo, b: Stereo, xs: seq<(real, real)>, ys: seq<(real, real)>,
                                      k: int, n: nat) returns (k': int)
    requires g.Valid() && a.Valid() && b.Valid() && |xs| == |ys| && n <= |xs|
    requires b.left == a.right && b.chPhase == a.chPhase + g.s.chSpread + k as real
    requires forall i :: 0 <= i < |xs| ==> ys[i].0 == xs[i].1
    ensures StateAt(g, b, ys, n).left == StateAt(g, a, xs, n).right
    ensures StateAt(g, b, ys, n).chPhase == StateAt(g, a, xs, n).chPhase + g.s.chSpread + k' as real
  {
    hide StereoAfter, StateAt, Rig.Valid, Channel.Valid, Stereo.Valid;
    StateOneMore(g, a, xs, n);
    StateOneMore(g, b, ys, n);
    k' := k;
    if n != 0 {
      k' := SidesAlike(g, a, b, xs, ys, k, n - 1);
      k' := SidesStep(g, StateAt(g, a, xs, n - 1), StateAt(g, b, ys, n - 1), xs[n - 1], ys[n - 1], k');
    }
  }

  /** The right channel is the left channel with its modulation ahead by the spread: fed the same stream from
      the same state, the left puts out what the right does, whatever whole turns lie between. */
  lemma RightIsLeftAhead(g: Rig, a: Stereo, b: Stereo, xs: seq<(real, real)>, ys: seq<(real, real)>, k: int)
    requires g.Valid() && a.Valid() && b.Valid() && |xs| == |ys|
    requires b.left == a.right && b.chPhase == a.chPhase + g.s.chSpread + k as real
    requires forall i :: 0 <= i < |xs| ==> ys[i].0 == xs[i].1
    ensures forall n :: 0 <= n < |xs| ==> Run(g, b, ys)[n].0 == Run(g, a, xs)[n].1
  {
    hide Out, StateAt, Run, Rig.Valid;
    forall n | 0 <= n < |xs| ensures Run(g, b, ys)[n].0 == Run(g, a, xs)[n].1 {
      RunAt(g, a, xs, n);
      RunAt(g, b, ys, n);
      var k' := SidesAlike(g, a, b, xs, ys, k, n);
      var e := StateAt(g, a, xs, n);
      SampleOfTurns(g, e.right, e.chPhase + g.s.chSpread, xs[n].1, k');
    }
  }
}
