/**
 What the voices of the chorus do together. They are spread evenly over one turn of the modulation, so what the
 sweeps of two or more of them move apart adds up to nothing: the average delay stands still.
 */
module ChorusVoices {
  import opened Reals
  import opened Trigonometry
  import opened DelayLine
  import opened MultibandSettings
  import opened MultibandSpec
  import opened ChorusLaws

  // ---- turns ----

  function Cosine(t: Trig, p: real): real { t.cos(Turn(t, p)) }

  function Sine(t: Trig, p: real): real { t.sin(Turn(t, p)) }

  lemma Rotated(t: Trig, p: real, q: real)
    requires t.Lawful()
    ensures Cosine(t, p + q) == Gained(Cosine(t, p), Cosine(t, q)) - Gained(Sine(t, p), Sine(t, q))
    ensures Sine(t, p + q) == Gained(Sine(t, p), Cosine(t, q)) + Gained(Cosine(t, p), Sine(t, q))
  {
    assert Turn(t, p + q) == Turn(t, p) + Turn(t, q);
    assert t.AdditionAt(Turn(t, p), Turn(t, q));
    hide Turn;
  }

  lemma WholeTurn(t: Trig)
    requires t.Lawful()
    ensures Cosine(t, 1.0) == 1.0 && Sine(t, 1.0) == 0.0 && Cosine(t, 0.0) == 1.0 && Sine(t, 0.0) == 0.0
    ensures forall p :: Cosine(t, -p) == Cosine(t, p) && Sine(t, -p) == -Sine(t, p)
  {
    t.CosineRange(0.0);
    assert Turn(t, 0.0) == 0.0 && Turn(t, 1.0) == t.pi + t.pi;
    assert t.AdditionAt(t.pi, t.pi);
    forall p ensures Cosine(t, -p) == Cosine(t, p) && Sine(t, -p) == -Sine(t, p) {
      assert Turn(t, -p) == -Turn(t, p);
      assert t.ParityAt(Turn(t, p));
      hide Turn;
    }
    hide Turn;
  }

  lemma {:induction false} ManyTurns(t: Trig, k: nat)
    requires t.Lawful()
    ensures Cosine(t, k as real) == 1.0 && Sine(t, k as real) == 0.0
  {
    WholeTurn(t);
    hide Cosine, Sine, Trig.Lawful;
    if k != 0 {
      ManyTurns(t, k - 1);
      Rotated(t, (k - 1) as real, 1.0);
      assert (k - 1) as real + 1.0 == k as real;
    }
  }

  /** Whole turns, forward or back, change nothing. */
  lemma TurnsDoNotMatter(t: Trig, p: real, k: int)
    requires t.Lawful()
    ensures Cosine(t, p + k as real) == Cosine(t, p) && Sine(t, p + k as real) == Sine(t, p)
  {
    WholeTurn(t);
    hide Cosine, Sine, Trig.Lawful;
    ManyTurns(t, if k < 0 then -k else k);
    assert k < 0 ==> -((-k) as real) == k as real;
    Rotated(t, p, k as real);
  }

  // ---- sums over voices ----

  function Share(v: nat, voices: nat): real
    requires 0 < voices
  {
    v as real / voices as real
  }

  ghost function CosineSum(t: Trig, p: real, voices: nat, n: nat): real
    requires 0 < voices
  {
    if n == 0 then 0.0 else CosineSum(t, p, voices, n - 1) + Cosine(t, p + Share(n - 1, voices))
  }

  ghost function SineSum(t: Trig, p: real, voices: nat, n: nat): real
    requires 0 < voices
  {
    if n == 0 then 0.0 else SineSum(t, p, voices, n - 1) + Sine(t, p + Share(n - 1, voices))
  }

  lemma NextShare(v: nat, voices: nat)
    requires 0 < voices
    ensures Share(v + 1, voices) == Share(v, voices) + Share(1, voices)
    ensures Share(0, voices) == 0.0 && Share(voices, voices) == 1.0
  {
    assert (v as real + 1.0) / voices as real == v as real / voices as real + 1.0 / voices as real;
  }

  /** Turning all voices on by one share drops the first and appends the next. */
  lemma {:induction false} SharesTelescope(t: Trig, p: real, voices: nat, n: nat)
    requires t.Lawful() && 0 < voices
    ensures var c, s := Cosine(t, Share(1, voices)) - 1.0, Sine(t, Share(1, voices));
            && Cosine(t, p + Share(n, voices)) - Cosine(t, p)
                 == Gained(CosineSum(t, p, voices, n), c) - Gained(SineSum(t, p, voices, n), s)
            && Sine(t, p + Share(n, voices)) - Sine(t, p)
                 == Gained(SineSum(t, p, voices, n), c) + Gained(CosineSum(t, p, voices, n), s)
  {
    hide Cosine, Sine, Trig.Lawful, Share;
    NextShare(n, voices);
    var c, s := Cosine(t, Share(1, voices)), Sine(t, Share(1, voices));
    if n == 0 {
      assert p + 0.0 == p;
      assert Gained(0.0, c - 1.0) == 0.0 && Gained(0.0, s) == 0.0;
    } else {
      SharesTelescope(t, p, voices, n - 1);
      NextShare(n - 1, voices);
      var q := p + Share(n - 1, voices);
      Rotated(t, q, Share(1, voices));
      assert p + Share(n, voices) == q + Share(1, voices);
      TelescopeStep(CosineSum(t, p, voices, n - 1), SineSum(t, p, voices, n - 1), Cosine(t, q), Sine(t, q), c, s);
      hide Gained;
    }
  }

  lemma TelescopeStep(u: real, v: real, x: real, y: real, c: real, s: real)
    ensures Gained(u + x, c - 1.0) - Gained(v + y, s)
         == Gained(u, c - 1.0) - Gained(v, s) + Gained(x, c) - Gained(y, s) - x
    ensures Gained(v + y, c - 1.0) + Gained(u + x, s)
         == Gained(v, c - 1.0) + Gained(u, s) + Gained(y, c) + Gained(x, s) - y
  {
  }

  lemma OnlyNothingStays(x: real, y: real, c: real, s: real)
    requires c != 0.0 && Gained(x, c) == Gained(y, s) && Gained(y, c) == -Gained(x, s)
    ensures x == 0.0
  {
    hide Gained;
    Squared(x, c);
    Squared(x, s);
    Swapped(y, s, c);
    GainedSum(x, Gained(c, c), Gained(s, s));
    NotZero(x, Gained(c, c), Gained(s, s));
  }

  lemma Swapped(y: real, s: real, c: real)
    ensures Gained(Gained(y, s), c) == Gained(Gained(y, c), s)
  {
  }

  lemma Squared(x: real, c: real)
    ensures 0.0 <= Gained(c, c) && (c != 0.0 ==> 0.0 < Gained(c, c))
    ensures Gained(x, Gained(c, c)) == Gained(Gained(x, c), c)
    ensures Gained(-Gained(x, c), c) == -Gained(x, Gained(c, c))
  {
    Opposite(c);
    if 0.0 < c {
      GainedPositive(c, c);
    } else if c < 0.0 {
      GainedPositive(-c, -c);
    }
  }

  lemma Opposite(c: real)
    ensures Gained(-c, -c) == Gained(c, c)
  {
  }

  lemma NotZero(x: real, p: real, q: real)
    requires 0.0 < p && 0.0 <= q
    ensures Gained(x, p + q) == 0.0 ==> x == 0.0
  {
  }

  /** Two or more voices, spread evenly, add up to nothing. Of the cosine this takes that one share of the turn
      is not a whole turn to it. */
  lemma SharesCancel(t: Trig, p: real, voices: nat)
    requires t.Lawful() && 0 < voices && Cosine(t, Share(1, voices)) != 1.0
    ensures CosineSum(t, p, voices, voices) == 0.0
  {
    SharesTelescope(t, p, voices, voices);
    TurnsDoNotMatter(t, p, 1);
    NextShare(0, voices);
    hide Cosine, Sine, Share, CosineSum, SineSum, Gained, Trig.Lawful;
    OnlyNothingStays(CosineSum(t, p, voices, voices), SineSum(t, p, voices, voices),
                     Cosine(t, Share(1, voices)) - 1.0, Sine(t, Share(1, voices)));
  }

  // ---- what the voices read ----

  /** The modulation of a voice, apart from whole turns. */
  lemma DelayOfVoice(g: Rig, phase: real, v: nat)
    requires g.Valid() && 0 < g.s.chVoices
    ensures 2.0 * Delay(g, phase, v)
         == 2.0 * g.s.chBase + g.s.chDepth
              - Gained(g.s.chDepth, Cosine(g.trig, phase + Share(v, g.s.chVoices)))
  {
    var p := phase + Share(v, g.s.chVoices);
    TurnsDoNotMatter(g.trig, p, -p.Floor);
    assert VoicePhase(phase, v, g.s.chVoices) == p + (-p.Floor) as real;
    hide Turn, VoicePhase, InRange, Shapers.Curves.Lawful, Trig.Lawful, Share;
    HalfUp(g.s.chDepth, Cosine(g.trig, p));
    hide Gained;
  }

  lemma HalfUp(depth: real, c: real)
    ensures 2.0 * Gained(depth, 0.5 - 0.5 * c) == depth - Gained(depth, c)
  {
  }

  /** The pushes a tap can reach lie on one ramp. */
  ghost predicate Ramp(line: seq<real>, a: real, b: real) {
    forall i: int {:trigger Pushed(line, i)} :: |line| - BUFLEN <= i < |line| ==> Pushed(line, i) == a + b * i as real
  }

  lemma {:induction false} SumOfRamp(g: Rig, line: seq<real>, phase: real, a: real, b: real, n: nat)
    requires g.Valid() && 0 < g.s.chVoices && Ramp(line, a, b)
    ensures var middle := a + Gained(b, |line| as real - g.s.chBase - g.s.chDepth / 2.0);
            2.0 * WetSum(g, line, phase, n)
              == 2.0 * Gained(middle, n as real)
                   + Gained(b, Gained(g.s.chDepth, CosineSum(g.trig, phase, g.s.chVoices, n)))
  {
    var middle := a + Gained(b, |line| as real - g.s.chBase - g.s.chDepth / 2.0);
    if n == 0 {
      assert Gained(middle, 0.0) == 0.0 && Gained(g.s.chDepth, 0.0) == 0.0 && Gained(b, 0.0) == 0.0;
    } else {
      SumOfRamp(g, line, phase, a, b, n - 1);
      VoiceOnRamp(g, line, phase, a, b, n - 1);
      OneMoreIncrement(middle, n - 1);
      SweepsAdd(b, g.s.chDepth, CosineSum(g.trig, phase, g.s.chVoices, n - 1),
                Cosine(g.trig, phase + Share(n - 1, g.s.chVoices)));
      hide Gained, InRange, Shapers.Curves.Lawful, Trig.Lawful, Tap, Delay, Cosine, Share, Ramp, Rig.Valid;
    }
  }

  lemma SweepsAdd(b: real, depth: real, x: real, y: real)
    ensures Gained(b, Gained(depth, x + y)) == Gained(b, Gained(depth, x)) + Gained(b, Gained(depth, y))
  {
    GainedSum(depth, x, y);
    GainedSum(b, Gained(depth, x), Gained(depth, y));
    hide Gained;
  }

  lemma VoiceOnRamp(g: Rig, line: seq<real>, phase: real, a: real, b: real, v: nat)
    requires g.Valid() && 0 < g.s.chVoices && Ramp(line, a, b)
    ensures var middle := a + Gained(b, |line| as real - g.s.chBase - g.s.chDepth / 2.0);
            var c := Cosine(g.trig, phase + Share(v, g.s.chVoices));
            2.0 * Tap(line, Delay(g, phase, v)) == 2.0 * middle + Gained(b, Gained(g.s.chDepth, c))
  {
    hide Delay, Cosine, Share, InRange, Shapers.Curves.Lawful, Trig.Lawful, Tap;
    var d := Delay(g, phase, v);
    DelayServable(g, phase, v);
    ReachOf(|line|, d);
    TapOfRamp(line, d, a, b);
    DelayOfVoice(g, phase, v);
    var e := Gained(g.s.chDepth, Cosine(g.trig, phase + Share(v, g.s.chVoices)));
    OnLine(a, b, |line| as real - d, |line| as real - g.s.chBase - g.s.chDepth / 2.0, e);
  }

  lemma ReachOf(n: nat, d: real)
    requires Servable(d)
    ensures n - BUFLEN <= (n as real - d).Floor && (n as real - d).Floor + 1 < n
  {
  }

  lemma OnLine(a: real, b: real, x: real, y: real, e: real)
    requires 2.0 * x == 2.0 * y + e
    ensures 2.0 * (a + b * x) == 2.0 * (a + Gained(b, y)) + Gained(b, e)
  {
    assert b * (2.0 * x) == b * (2.0 * y) + b * e;
  }

  /** Of a ramp, two or more voices together give what lies at the base and half the depth, at every moment of
      the modulation: their sweeps cancel each other. */
  lemma VoicesBalance(g: Rig, line: seq<real>, phase: real, a: real, b: real)
    requires g.Valid() && Ramp(line, a, b) && 0 < g.s.chVoices
    requires g.trig.cos(2.0 * g.trig.pi / g.s.chVoices as real) != 1.0
    ensures Wet(g, line, phase) == a + b * (|line| as real - g.s.chBase - g.s.chDepth / 2.0)
  {
    var k := g.s.chVoices;
    var middle := a + Gained(b, |line| as real - g.s.chBase - g.s.chDepth / 2.0);
    OneShare(g.trig, k);
    SharesCancel(g.trig, phase, k);
    SumOfRamp(g, line, phase, a, b, k);
    assert Gained(g.s.chDepth, 0.0) == 0.0 && Gained(b, 0.0) == 0.0;
    AverageOfSame(middle, k);
    hide Gained, InRange, Shapers.Curves.Lawful, Trig.Lawful, Cosine, Share, CosineSum, WetSum, Ramp;
  }

  lemma OneShare(t: Trig, voices: nat)
    requires 0 < voices
    ensures Cosine(t, Share(1, voices)) == t.cos(2.0 * t.pi / voices as real)
  {
    TurnOfPart(t, voices as real);
    hide Turn;
  }

  lemma TurnOfPart(t: Trig, d: real)
    requires d != 0.0
    ensures Turn(t, 1.0 / d) == 2.0 * t.pi / d
  {
    Divided(2.0 * t.pi, d);
  }

  lemma Divided(x: real, d: real)
    requires d != 0.0
    ensures x * (1.0 / d) == x / d
  {
  }
}
