/**
 The dynamic bass of `vst/src/DynamicBassDsp.h`: a ladder of one-pole filters that splits a signal
 into three bands, a second ladder on the lowest of them, and the mono path below 120 Hz.
 */
module DynamicBass {
  import opened Reals
  import opened Biquads

  /** One one-pole filter moving a fraction of the way to its input. */
  function Toward(z: real, target: real, angle: real): real { z + angle * (target - z) }

  /** The state of `Poles`. */
  datatype Ladder = Ladder(
    in0: real, in1: real, in2: real,
    x0: real, x1: real, x2: real, x3: real,
    y0: real, y1: real, y2: real, y3: real,
    out0: real, out1: real, out2: real)

  const QUIET := Ladder(0.0, 0.0, 0.0, 0.0, 0.0, 0.0, 0.0, 0.0, 0.0, 0.0, 0.0, 0.0, 0.0, 0.0)

  /** The two corner angles of one ladder. */
  datatype Angles = Angles(lower: real, upper: real)

  const PI: real := 3.14159265358979

  /** `setPoles`. */
  function AnglesFor(fs: real, lower: real, upper: real): Angles
    requires 0.0 < fs
  {
    Angles(lower * PI / fs, upper * PI / fs)
  }

  function Fed(p: Ladder, a: Angles, s: real): Ladder {
    var x0 := Toward(p.x0, s, a.lower);
    var x1 := Toward(p.x1, x0, a.lower);
    var x2 := Toward(p.x2, x1, a.lower);
    var x3 := Toward(p.x3, x2, a.lower);
    var y0 := Toward(p.y0, s, a.upper);
    var y1 := Toward(p.y1, y0, a.upper);
    var y2 := Toward(p.y2, y1, a.upper);
    var y3 := Toward(p.y3, y2, a.upper);
    Ladder(s, p.in0, p.in1, x0, x1, x2, x3, y0, y1, y2, y3, x3, p.in2 - y3, y3 - x3)
  }

  /** The three bands of a call add up to the oldest remembered input. */
  lemma BandsAddUp(p: Ladder, a: Angles, s: real)
    ensures var q := Fed(p, a, s); q.out0 + q.out1 + q.out2 == p.in2
  {
    hide Toward;
  }

  lemma LowBandIsOut(p: Ladder, a: Angles, s: real)
    ensures Fed(p, a, s).out0 == Fed(p, a, s).x3
  {
    hide Toward;
  }

  // ---- the wide path of one channel ----

  datatype Wide = Wide(x: Ladder, y: Ladder)

  datatype Gains = Gains(bass: real, sideX: real, sideY: real, ax: Angles, ay: Angles)

  function WideAfter(g: Gains, w: Wide, s: real): Wide {
    var x := Fed(w.x, g.ax, s);
    Wide(x, Fed(w.y, g.ay, Gained(x.out0, g.bass)))
  }

  /** What the channel's sample is replaced by, once both ladders have been fed. */
  function WideOut(g: Gains, w: Wide): real {
    w.x.out1 + w.y.out2 + g.sideX * w.y.out1 + g.sideY * w.y.out0 + w.x.out2
  }

  ghost function WideAt(g: Gains, w: Wide, ss: seq<real>, n: nat): Wide
    requires n <= |ss|
  {
    if n == 0 then w else WideAfter(g, WideAt(g, w, ss, n - 1), ss[n - 1])
  }

  /** The output stream of a channel. */
  ghost function WideStream(g: Gains, w: Wide, ss: seq<real>): (r: seq<real>)
    ensures |r| == |ss|
  {
    seq(|ss|, n requires 0 <= n < |ss| => WideOut(g, WideAt(g, w, ss, n + 1)))
  }

  /** The lowest band of the first ladder after n calls, silent before the start. */
  ghost function LowBand(g: Gains, ss: seq<real>, n: int): real
    requires n <= |ss|
  {
    if n <= 0 then 0.0 else WideAt(g, Wide(QUIET, QUIET), ss, n).x.out0
  }

  /** Both ladders remember exactly their last three inputs. */
  lemma {:induction false} LaddersRemember(g: Gains, ss: seq<real>, n: nat)
    requires n <= |ss|
    ensures var w := WideAt(g, Wide(QUIET, QUIET), ss, n);
            && w.x.in0 == At(ss, n - 1) && w.x.in1 == At(ss, n - 2) && w.x.in2 == At(ss, n - 3)
            && w.y.in0 == Gained(LowBand(g, ss, n), g.bass) && w.y.in1 == Gained(LowBand(g, ss, n - 1), g.bass)
            && w.y.in2 == Gained(LowBand(g, ss, n - 2), g.bass)
  {
    hide Toward;
    if n == 0 {
      assert Gained(0.0, g.bass) == 0.0;
    } else {
      hide Gained;
      LaddersRemember(g, ss, n - 1);
    }
  }

  lemma OutWithUnitSides(g: Gains, w: Wide)
    requires g.sideX == 1.0 && g.sideY == 1.0
    ensures WideOut(g, w) == (w.x.out1 + w.x.out2) + (w.y.out0 + w.y.out1 + w.y.out2)
  {
  }

  /** With both side gains at one the wide path is the input three calls earlier, less its low band,
      plus the amplified low band of three calls earlier. */
  lemma WideReconstructs(g: Gains, ss: seq<real>, n: nat)
    requires n < |ss| && g.sideX == 1.0 && g.sideY == 1.0
    ensures WideStream(g, Wide(QUIET, QUIET), ss)[n]
         == At(ss, n - 3) - LowBand(g, ss, n + 1) + Gained(LowBand(g, ss, n - 2), g.bass)
  {
    hide Toward, Fed, WideOut, Gained;
    var before, after := WideAt(g, Wide(QUIET, QUIET), ss, n), WideAt(g, Wide(QUIET, QUIET), ss, n + 1);
    LaddersRemember(g, ss, n);
    BandsAddUp(before.x, g.ax, ss[n]);
    BandsAddUp(before.y, g.ay, Gained(after.x.out0, g.bass));
    LowBandIsOut(before.x, g.ax, ss[n]);
    OutWithUnitSides(g, after);
  }

  // ---- which corners are safe ----

  /** The pole's error is not amplified from sample to sample. */
  predicate Damped(angle: real) { 0.0 <= angle < 2.0 }

  /** How far beyond the bound of its input a pole can get: past one it overshoots. */
  function Swing(angle: real): (k: real)
    requires Damped(angle)
    ensures 1.0 <= k
  {
    if angle <= 1.0 then 1.0
    else
      QuotientAtLeast(angle, 2.0 - angle, 1.0);
      angle / (2.0 - angle)
  }

  lemma TowardWithin(z: real, target: real, angle: real, m: real)
    requires Damped(angle) && Abs(z) <= Gained(m, Swing(angle)) && Abs(target) <= m
    ensures Abs(Toward(z, target, angle)) <= Gained(m, Swing(angle))
  {
    var k := Swing(angle);
    if angle <= 1.0 {
      assert Gained(m, k) == m;
      assert Toward(z, target, angle) == Mix(z, target, angle);
      hide Toward, Mix, Gained, Swing;
      MixBounded(z, target, angle, m);
    } else {
      assert k * (2.0 - angle) == angle;
      assert Toward(z, target, angle) == Gained(target, angle) - Gained(z, angle - 1.0);
      OvershootBalances(m, k, angle);
      hide Toward, Gained, Swing;
      GainedBounded(target, angle, m, angle);
      GainedBounded(z, angle - 1.0, Gained(m, k), angle - 1.0);
    }
  }

  lemma OvershootBalances(m: real, k: real, angle: real)
    requires k * (2.0 - angle) == angle
    ensures Gained(m, angle) + Gained(Gained(m, k), angle - 1.0) == Gained(m, k)
  {
    assert angle + k * (angle - 1.0) == k;
    assert m * angle + (m * k) * (angle - 1.0) == m * (angle + k * (angle - 1.0));
  }

  /** The bound after n poles of swing k. */
  function Level(m: real, k: real, n: nat): real {
    if n == 0 then m else Gained(Level(m, k, n - 1), k)
  }

  lemma {:induction false} LevelScales(m: real, k: real, n: nat)
    ensures Level(m, k, n) == Gained(m, Level(1.0, k, n))
  {
    if n != 0 {
      LevelScales(m, k, n - 1);
      var l := Level(1.0, k, n - 1);
      assert (m * l) * k == m * (l * k);
    }
  }

  lemma {:induction false} LevelGrows(m: real, k: real, n: nat)
    requires 0.0 <= m && 1.0 <= k
    ensures m <= Level(m, k, n) <= Level(m, k, n + 1)
  {
    if n != 0 {
      LevelGrows(m, k, n - 1);
    }
    var l := Level(m, k, n);
    assert Level(m, k, n + 1) == Gained(l, k);
    hide Level;
    ProductMonotone(l, 1.0, k);
  }

  predicate InputsWithin(p: Ladder, m: real) { Abs(p.in0) <= m && Abs(p.in1) <= m && Abs(p.in2) <= m }

  /** Each of the four poles at the lower corner is within the level it can reach. */
  predicate LowerWithin(p: Ladder, k: real, m: real) {
    && Abs(p.x0) <= Level(m, k, 1) && Abs(p.x1) <= Level(m, k, 2)
    && Abs(p.x2) <= Level(m, k, 3) && Abs(p.x3) <= Level(m, k, 4)
  }

  predicate UpperWithin(p: Ladder, k: real, m: real) {
    && Abs(p.y0) <= Level(m, k, 1) && Abs(p.y1) <= Level(m, k, 2)
    && Abs(p.y2) <= Level(m, k, 3) && Abs(p.y3) <= Level(m, k, 4)
  }

  lemma PoleLevel(z: real, target: real, angle: real, m: real, n: nat)
    requires Damped(angle) && Abs(target) <= Level(m, Swing(angle), n) && Abs(z) <= Level(m, Swing(angle), n + 1)
    ensures Abs(Toward(z, target, angle)) <= Level(m, Swing(angle), n + 1)
  {
    hide Toward, Swing, Damped;
    TowardWithin(z, target, angle, Level(m, Swing(angle), n));
  }

  lemma LowerFed(p: Ladder, a: Angles, s: real, m: real)
    requires Damped(a.lower) && LowerWithin(p, Swing(a.lower), m) && Abs(s) <= m
    ensures LowerWithin(Fed(p, a, s), Swing(a.lower), m)
  {
    hide Toward, Swing, Damped, Abs, Gained;
    var q := Fed(p, a, s);
    PoleLevel(p.x0, s, a.lower, m, 0);
    PoleLevel(p.x1, q.x0, a.lower, m, 1);
    PoleLevel(p.x2, q.x1, a.lower, m, 2);
    PoleLevel(p.x3, q.x2, a.lower, m, 3);
    hide Level;
  }

  lemma UpperFed(p: Ladder, a: Angles, s: real, m: real)
    requires Damped(a.upper) && UpperWithin(p, Swing(a.upper), m) && Abs(s) <= m
    ensures UpperWithin(Fed(p, a, s), Swing(a.upper), m)
  {
    hide Toward, Swing, Damped, Abs, Gained;
    var q := Fed(p, a, s);
    PoleLevel(p.y0, s, a.upper, m, 0);
    PoleLevel(p.y1, q.y0, a.upper, m, 1);
    PoleLevel(p.y2, q.y1, a.upper, m, 2);
    PoleLevel(p.y3, q.y2, a.upper, m, 3);
    hide Level;
  }

  lemma QuietWithin(k: real, m: real)
    requires 0.0 <= m && 1.0 <= k
    ensures InputsWithin(QUIET, m) && LowerWithin(QUIET, k, m) && UpperWithin(QUIET, k, m)
  {
    hide Level;
    LevelGrows(m, k, 1);
    LevelGrows(m, k, 2);
    LevelGrows(m, k, 3);
    LevelGrows(m, k, 4);
  }

  // ---- one ladder over all streams ----

  ghost function LadderAfter(a: Angles, ss: seq<real>): Ladder
    decreases |ss|
  {
    if ss == [] then QUIET else Fed(LadderAfter(a, ss[..|ss| - 1]), a, ss[|ss| - 1])
  }

  ghost function PoleAfter(angle: real, ss: seq<real>): real
    decreases |ss|
  {
    if ss == [] then 0.0 else Toward(PoleAfter(angle, ss[..|ss| - 1]), ss[|ss| - 1], angle)
  }

  /** Every remembered sample and every pole is within m. */
  predicate Within(p: Ladder, m: real) {
    && InputsWithin(p, m)
    && Abs(p.x0) <= m && Abs(p.x1) <= m && Abs(p.x2) <= m && Abs(p.x3) <= m
    && Abs(p.y0) <= m && Abs(p.y1) <= m && Abs(p.y2) <= m && Abs(p.y3) <= m
  }

  /** From rest, no stream takes the ladder beyond b times the stream's bound. */
  ghost predicate Steady(a: Angles, b: real) {
    forall ss: seq<real>, m: real :: 0.0 <= m && AllWithin(ss, m) ==> Within(LadderAfter(a, ss), Gained(m, b))
  }

  lemma {:induction false} LadderLevels(a: Angles, ss: seq<real>, m: real)
    requires Damped(a.lower) && Damped(a.upper) && 0.0 <= m && AllWithin(ss, m)
    ensures var p := LadderAfter(a, ss);
            InputsWithin(p, m) && LowerWithin(p, Swing(a.lower), m) && UpperWithin(p, Swing(a.upper), m)
    decreases |ss|
  {
    hide Swing, LowerWithin, UpperWithin, Damped, Abs;
    if ss == [] {
      QuietWithin(Swing(a.lower), m);
      QuietWithin(Swing(a.upper), m);
    } else {
      hide Toward;
      var front, s := ss[..|ss| - 1], ss[|ss| - 1];
      LadderLevels(a, front, m);
      LowerFed(LadderAfter(a, front), a, s, m);
      UpperFed(LadderAfter(a, front), a, s, m);
    }
  }

  /** The multiple of its input's bound that a damped ladder can reach. */
  function Reach(a: Angles): real
    requires Damped(a.lower) && Damped(a.upper)
  {
    Level(1.0, Swing(a.lower), 4) + Level(1.0, Swing(a.upper), 4)
  }

  lemma LevelsBelowReach(kl: real, ku: real, m: real, n: nat)
    requires 1.0 <= kl && 1.0 <= ku && 0.0 <= m && n <= 4
    ensures Level(m, kl, n) <= Gained(m, Level(1.0, kl, 4) + Level(1.0, ku, 4))
    ensures Level(m, ku, n) <= Gained(m, Level(1.0, kl, 4) + Level(1.0, ku, 4))
  {
    hide Level, Gained;
    LevelMonotone(m, kl, n);
    LevelMonotone(m, ku, n);
    LevelScales(m, kl, 4);
    LevelScales(m, ku, 4);
    LevelGrows(m, kl, 4);
    LevelGrows(m, ku, 4);
    GainedSum(m, Level(1.0, kl, 4), Level(1.0, ku, 4));
  }

  lemma {:induction false} LevelMonotone(m: real, k: real, n: nat)
    requires 1.0 <= k && 0.0 <= m && n <= 4
    ensures Level(m, k, n) <= Level(m, k, 4)
    decreases 4 - n
  {
    hide Level;
    if n < 4 {
      LevelGrows(m, k, n);
      LevelMonotone(m, k, n + 1);
    }
  }

  lemma DampedIsSteady(a: Angles)
    requires Damped(a.lower) && Damped(a.upper)
    ensures Steady(a, Reach(a))
  {
    forall ss: seq<real>, m: real | 0.0 <= m && AllWithin(ss, m)
      ensures Within(LadderAfter(a, ss), Gained(m, Reach(a)))
    {
      hide Swing, Level, Damped, AllWithin, LadderAfter, Abs, Gained;
      var kl, ku := Swing(a.lower), Swing(a.upper);
      LadderLevels(a, ss, m);
      LevelsBelowReach(kl, ku, m, 0);
      LevelsBelowReach(kl, ku, m, 1);
      LevelsBelowReach(kl, ku, m, 2);
      LevelsBelowReach(kl, ku, m, 3);
      LevelsBelowReach(kl, ku, m, 4);
      LevelZero(m, kl);
    }
  }

  lemma LevelZero(m: real, k: real)
    ensures Level(m, k, 0) == m
  {
  }

  lemma UnitLevel(m: real, n: nat)
    ensures Level(m, 1.0, n) == m
  {
    if n != 0 {
      UnitLevel(m, n - 1);
      assert Gained(m, 1.0) == m;
    }
  }

  /** With both angles in [0, 1] nothing overshoots: the whole ladder stays within its input's own bound. */
  lemma ModerateIsSteady(a: Angles)
    requires 0.0 <= a.lower <= 1.0 && 0.0 <= a.upper <= 1.0
    ensures Steady(a, 1.0)
  {
    forall ss: seq<real>, m: real | 0.0 <= m && AllWithin(ss, m)
      ensures Within(LadderAfter(a, ss), Gained(m, 1.0))
    {
      hide LadderAfter, Level, AllWithin, Abs;
      LadderLevels(a, ss, m);
      UnitLevel(m, 1);
      UnitLevel(m, 2);
      UnitLevel(m, 3);
      UnitLevel(m, 4);
    }
  }

  /** Outside the damped range a stream of ones and minus ones, each chosen to push the same way,
      drives the pole away by at least its angle with every sample. */
  lemma {:induction false} PoleEscapes(angle: real, n: nat) returns (ss: seq<real>)
    requires !Damped(angle)
    ensures |ss| == n && AllWithin(ss, 1.0)
    ensures Gained(Abs(angle), n as real) <= Abs(PoleAfter(angle, ss))
    decreases n
  {
    if n == 0 {
      ss := [];
      assert Gained(Abs(angle), 0.0) == 0.0;
    } else {
      var front := PoleEscapes(angle, n - 1);
      var z := PoleAfter(angle, front);
      var s := Push(z, angle);
      ss := front + [s];
      assert ss[..|ss| - 1] == front;
      hide Toward, PoleAfter, Gained, Damped;
      assert PoleAfter(angle, ss) == Toward(z, s, angle) by {
        PoleOneMore(angle, front, s);
      }
      Escapes(z, angle);
      OneMoreAngle(Abs(angle), n - 1);
    }
  }

  lemma PoleOneMore(angle: real, front: seq<real>, s: real)
    ensures PoleAfter(angle, front + [s]) == Toward(PoleAfter(angle, front), s, angle)
  {
    hide Toward;
    assert (front + [s])[..|front|] == front;
  }

  lemma OneMoreAngle(angle: real, n: nat)
    ensures Gained(angle, (n + 1) as real) == Gained(angle, n as real) + angle
  {
  }

  /** The input that pushes the pole further the way it is about to go. */
  function Push(z: real, angle: real): (s: real)
    ensures s == 1.0 || s == -1.0
  {
    if 0.0 <= z then -1.0 else 1.0
  }

  lemma Escapes(z: real, angle: real)
    requires !Damped(angle)
    ensures Abs(z) + Abs(angle) <= Abs(Toward(z, Push(z, angle), angle))
  {
    var p := angle * z;
    assert Toward(z, Push(z, angle), angle) == z + angle * Push(z, angle) - p;
    assert angle * 1.0 == angle && angle * -1.0 == -angle;
    SignedProduct(z, angle, p);
    hide Toward;
  }

  lemma SignedProduct(z: real, angle: real, p: real)
    requires !Damped(angle) && p == angle * z
    ensures angle < 0.0 ==> (if 0.0 <= z then p <= 0.0 else 0.0 <= p)
    ensures 2.0 <= angle ==> (if 0.0 <= z then 2.0 * z <= p else p <= 2.0 * z)
  {
    if angle < 0.0 {
      ProductNonNegative(-angle, Abs(z));
      assert -angle * Abs(z) == if 0.0 <= z then -p else p;
    } else {
      ProductNonNegative(angle - 2.0, Abs(z));
      assert (angle - 2.0) * Abs(z) == if 0.0 <= z then p - 2.0 * z else -(p - 2.0 * z);
    }
  }

  lemma {:induction false} FirstPoles(a: Angles, ss: seq<real>)
    ensures LadderAfter(a, ss).x0 == PoleAfter(a.lower, ss) && LadderAfter(a, ss).y0 == PoleAfter(a.upper, ss)
    decreases |ss|
  {
    hide Toward;
    if ss != [] {
      FirstPoles(a, ss[..|ss| - 1]);
    }
  }

  lemma UndampedNotSteady(a: Angles, b: real)
    requires !Damped(a.lower) || !Damped(a.upper)
    ensures !Steady(a, b)
  {
    var angle := if !Damped(a.lower) then a.lower else a.upper;
    var n := FirstAbove(b / Abs(angle));
    MoreThan(b, Abs(angle), n as real);
    var ss := PoleEscapes(angle, n);
    FirstPoles(a, ss);
    assert Gained(1.0, b) == b;
    hide Gained, LadderAfter, PoleAfter, Damped;
    assert b < Abs(PoleAfter(angle, ss));
    assert AllWithin(ss, 1.0) && !Within(LadderAfter(a, ss), Gained(1.0, b));
  }

  lemma MoreThan(b: real, angle: real, n: real)
    requires 0.0 < angle && b / angle < n
    ensures b < Gained(angle, n)
  {
    var q := b / angle;
    ProductNonNegative(n - q, angle);
    assert (n - q) * angle == n * angle - b;
  }

  /** A ladder stays within a multiple of its input, for all streams, exactly when both angles are in
      [0, 2). */
  lemma SteadyIffDamped(a: Angles)
    ensures (exists b :: Steady(a, b)) <==> Damped(a.lower) && Damped(a.upper)
  {
    hide Steady, Reach;
    if Damped(a.lower) && Damped(a.upper) {
      DampedIsSteady(a);
    } else {
      forall b ensures !Steady(a, b) {
        UndampedNotSteady(a, b);
      }
    }
  }

  /** In terms of the parameters: neither corner may be negative or reach 2 fs / pi. */
  lemma CornersSteadyIff(fs: real, lower: real, upper: real)
    requires 0.0 < fs
    ensures (exists b :: Steady(AnglesFor(fs, lower, upper), b))
       <==> 0.0 <= lower && lower * PI < 2.0 * fs && 0.0 <= upper && upper * PI < 2.0 * fs
  {
    hide Steady;
    SteadyIffDamped(AnglesFor(fs, lower, upper));
    CornerDamped(lower, fs);
    CornerDamped(upper, fs);
  }

  lemma CornerDamped(corner: real, fs: real)
    requires 0.0 < fs
    ensures Damped(corner * PI / fs) <==> 0.0 <= corner && corner * PI < 2.0 * fs
  {
    var x := corner * PI;
    QuotientAtMost(x, fs, 2.0);
    QuotientAtLeast(x, fs, 2.0);
    QuotientAtLeast(x, fs, 0.0);
    QuotientAtMost(x, fs, 0.0);
  }

  /** The default corners, 1000 and 6200 Hz, are not safe at the lowest rate the effect accepts. */
  lemma DefaultsUnsteadyAtLowestRate(b: real)
    ensures !Steady(AnglesFor(8000.0, 1000.0, 6200.0), b)
  {
    hide Steady;
    CornersSteadyIff(8000.0, 1000.0, 6200.0);
  }

  // ---- the wide path over all streams ----

  /** The angles that matter to the wide path. The upper corner of the first ladder is not among them:
      its poles are added to one band and taken from the next. */
  predicate Safe(g: Gains) { Damped(g.ax.lower) && Damped(g.ay.lower) && Damped(g.ay.upper) }

  /** The level of the first ladder's low band, and of what the second ladder is fed. */
  function LowLevel(g: Gains, m: real): real
    requires Safe(g)
  {
    Level(m, Swing(g.ax.lower), 4)
  }

  function BassLevel(g: Gains, m: real): real
    requires Safe(g)
  {
    Gained(LowLevel(g, m), Abs(g.bass))
  }

  ghost predicate WideWithin(g: Gains, w: Wide, m: real)
    requires Safe(g)
  {
    var h := BassLevel(g, m);
    && InputsWithin(w.x, m) && LowerWithin(w.x, Swing(g.ax.lower), m)
    && InputsWithin(w.y, h) && LowerWithin(w.y, Swing(g.ay.lower), h) && UpperWithin(w.y, Swing(g.ay.upper), h)
  }

  lemma BassLevelNonNegative(g: Gains, m: real)
    requires Safe(g) && 0.0 <= m
    ensures 0.0 <= LowLevel(g, m) && 0.0 <= BassLevel(g, m)
  {
    hide Level, Swing, Damped;
    LevelGrows(m, Swing(g.ax.lower), 4);
    ProductNonNegative(LowLevel(g, m), Abs(g.bass));
  }

  lemma QuietWideWithin(g: Gains, m: real)
    requires Safe(g) && 0.0 <= m
    ensures WideWithin(g, Wide(QUIET, QUIET), m)
  {
    hide BassLevel, LowerWithin, UpperWithin, InputsWithin, Swing, Damped;
    BassLevelNonNegative(g, m);
    QuietWithin(Swing(g.ax.lower), m);
    QuietWithin(Swing(g.ay.lower), BassLevel(g, m));
    QuietWithin(Swing(g.ay.upper), BassLevel(g, m));
  }

  lemma WideStepWithin(g: Gains, w: Wide, s: real, m: real)
    requires Safe(g) && WideWithin(g, w, m) && Abs(s) <= m
    ensures WideWithin(g, WideAfter(g, w, s), m)
  {
    hide Swing, Damped, Level, Toward, Abs, UpperWithin, Gained;
    var x := Fed(w.x, g.ax, s);
    LowerFed(w.x, g.ax, s, m);
    assert Abs(x.out0) <= LowLevel(g, m);
    GainedBounded(x.out0, g.bass, LowLevel(g, m), Abs(g.bass));
    LowerFed(w.y, g.ay, Gained(x.out0, g.bass), BassLevel(g, m));
    UpperFed(w.y, g.ay, Gained(x.out0, g.bass), BassLevel(g, m));
  }

  lemma {:induction false} WideStaysWithin(g: Gains, ss: seq<real>, n: nat, m: real)
    requires Safe(g) && n <= |ss| && 0.0 <= m && AllWithin(ss, m)
    ensures WideWithin(g, WideAt(g, Wide(QUIET, QUIET), ss, n), m)
  {
    hide WideWithin, WideAfter, Damped, Abs;
    if n == 0 {
      QuietWideWithin(g, m);
    } else {
      WideStaysWithin(g, ss, n - 1, m);
      WideStepWithin(g, WideAt(g, Wide(QUIET, QUIET), ss, n - 1), ss[n - 1], m);
    }
  }

  /** The bound on the output of the wide path: a fixed multiple of the bound on its input. */
  function WideBound(g: Gains, m: real): real
    requires Safe(g)
  {
    var h := BassLevel(g, m);
    var lower, upper := Level(h, Swing(g.ay.lower), 4), Level(h, Swing(g.ay.upper), 4);
    m + LowLevel(g, m) + (upper + lower) + Gained(h + upper, Abs(g.sideX)) + Gained(lower, Abs(g.sideY))
  }

  lemma OutOfBands(g: Gains, before: Wide, s: real)
    ensures var w := WideAfter(g, before, s);
            WideOut(g, w) == before.x.in2 - w.x.x3 + (w.y.y3 - w.y.x3)
                               + Gained(before.y.in2 - w.y.y3, g.sideX) + Gained(w.y.x3, g.sideY)
  {
    hide Toward;
    var w := WideAfter(g, before, s);
    assert w.y.out1 == before.y.in2 - w.y.y3 && w.y.out0 == w.y.x3 && w.y.out2 == w.y.y3 - w.y.x3;
    assert g.sideX * w.y.out1 == Gained(w.y.out1, g.sideX) && g.sideY * w.y.out0 == Gained(w.y.out0, g.sideY);
  }

  lemma WideOutWithin(g: Gains, before: Wide, s: real, m: real)
    requires Safe(g) && WideWithin(g, before, m) && WideWithin(g, WideAfter(g, before, s), m)
    ensures Abs(WideOut(g, WideAfter(g, before, s))) <= WideBound(g, m)
  {
    hide Gained, Level, Swing, Damped, Fed, WideAfter, WideOut, BassLevel;
    var w, h := WideAfter(g, before, s), BassLevel(g, m);
    var lower, upper := Level(h, Swing(g.ay.lower), 4), Level(h, Swing(g.ay.upper), 4);
    OutOfBands(g, before, s);
    GainedBounded(before.y.in2 - w.y.y3, g.sideX, h + upper, Abs(g.sideX));
    GainedBounded(w.y.x3, g.sideY, lower, Abs(g.sideY));
  }

  /** From rest, with damped poles, no stream within m gives an output beyond the bound. */
  lemma WideStreamBounded(g: Gains, ss: seq<real>, n: nat, m: real)
    requires Safe(g) && n < |ss| && 0.0 <= m && AllWithin(ss, m)
    ensures Abs(WideStream(g, Wide(QUIET, QUIET), ss)[n]) <= WideBound(g, m)
  {
    hide WideWithin, Safe, WideOut, WideBound, WideAfter;
    WideStaysWithin(g, ss, n, m);
    WideStaysWithin(g, ss, n + 1, m);
    WideOutWithin(g, WideAt(g, Wide(QUIET, QUIET), ss, n), ss[n], m);
  }

  // ---- the wide path as filters of streams ----

  /** A stream through one pole. */
  ghost function Poled(angle: real, ss: seq<real>): (r: seq<real>)
    ensures |r| == |ss|
  {
    seq(|ss|, i requires 0 <= i < |ss| => PoleAfter(angle, ss[..i + 1]))
  }

  /** A stream through k of them, one after the other. */
  ghost function Cascaded(angle: real, ss: seq<real>, k: nat): (r: seq<real>)
    ensures |r| == |ss|
  {
    if k == 0 then ss else Poled(angle, Cascaded(angle, ss, k - 1))
  }

  /** Where pole k of a chain stands once the stream has gone through it. */
  ghost function PoleAt(angle: real, ss: seq<real>, k: nat): real {
    PoleAfter(angle, Cascaded(angle, ss, k))
  }

  ghost function FourPoles(angle: real, ss: seq<real>): real {
    PoleAt(angle, ss, 3)
  }

  lemma {:induction false} CascadeOfFront(angle: real, ss: seq<real>, k: nat)
    requires ss != []
    ensures Cascaded(angle, ss, k)[..|ss| - 1] == Cascaded(angle, ss[..|ss| - 1], k)
    ensures Cascaded(angle, ss, k + 1)[|ss| - 1] == PoleAt(angle, ss, k)
  {
    hide PoleAfter;
    var last := |ss| - 1;
    if k != 0 {
      CascadeOfFront(angle, ss, k - 1);
      var u := Cascaded(angle, ss, k - 1);
      forall i | 0 <= i < last
        ensures Poled(angle, u)[i] == Poled(angle, u[..last])[i]
      {
        assert u[..last][..i + 1] == u[..i + 1];
      }
    }
    var v := Cascaded(angle, ss, k);
    assert v[..last + 1] == v;
  }

  /** Pole k of a chain moves toward where pole k - 1 has just gone. */
  lemma ChainStep(angle: real, ss: seq<real>, k: nat)
    requires ss != []
    ensures var front, last := ss[..|ss| - 1], |ss| - 1;
            PoleAt(angle, ss, k)
              == Toward(PoleAt(angle, front, k),
                        if k == 0 then ss[last] else PoleAt(angle, ss, k - 1), angle)
  {
    hide Toward, Poled;
    CascadeOfFront(angle, ss, k);
    if k != 0 {
      CascadeOfFront(angle, ss, k - 1);
    }
  }

  /** A ladder is eight poles: four in a row at the lower angle and four in a row at the upper one. */
  lemma {:induction false} LadderIsPoles(a: Angles, ss: seq<real>)
    ensures var p := LadderAfter(a, ss);
            && p.x0 == PoleAt(a.lower, ss, 0) && p.x1 == PoleAt(a.lower, ss, 1)
            && p.x2 == PoleAt(a.lower, ss, 2) && p.x3 == FourPoles(a.lower, ss)
            && p.y0 == PoleAt(a.upper, ss, 0) && p.y1 == PoleAt(a.upper, ss, 1)
            && p.y2 == PoleAt(a.upper, ss, 2) && p.y3 == FourPoles(a.upper, ss)
            && p.in0 == At(ss, |ss| - 1) && p.in1 == At(ss, |ss| - 2) && p.in2 == At(ss, |ss| - 3)
    decreases |ss|
  {
    if ss == [] {
      hide Toward;
      NoChain(a.lower);
      NoChain(a.upper);
    } else {
      hide Toward, PoleAt;
      LadderIsPoles(a, ss[..|ss| - 1]);
      ChainSteps(a.lower, ss);
      ChainSteps(a.upper, ss);
    }
  }

  lemma NoChain(angle: real)
    ensures forall k: nat :: PoleAt(angle, [], k) == 0.0
  {
    forall k: nat ensures PoleAt(angle, [], k) == 0.0 {
      assert Cascaded(angle, [], k) == [];
    }
  }

  lemma ChainSteps(angle: real, ss: seq<real>)
    requires ss != []
    ensures var front := ss[..|ss| - 1];
            && PoleAt(angle, ss, 0) == Toward(PoleAt(angle, front, 0), ss[|ss| - 1], angle)
            && PoleAt(angle, ss, 1) == Toward(PoleAt(angle, front, 1), PoleAt(angle, ss, 0), angle)
            && PoleAt(angle, ss, 2) == Toward(PoleAt(angle, front, 2), PoleAt(angle, ss, 1), angle)
            && FourPoles(angle, ss) == Toward(FourPoles(angle, front), PoleAt(angle, ss, 2), angle)
  {
    hide Toward, PoleAt;
    ChainStep(angle, ss, 0);
    ChainStep(angle, ss, 1);
    ChainStep(angle, ss, 2);
    ChainStep(angle, ss, 3);
  }

  /** What the second ladder is fed: the first one's four lower poles, amplified. */
  ghost function Bass(g: Gains, ss: seq<real>): (r: seq<real>)
    ensures |r| == |ss|
  {
    seq(|ss|, i requires 0 <= i < |ss| => Gained(FourPoles(g.ax.lower, ss[..i + 1]), g.bass))
  }

  lemma {:induction false} WideIsLadders(g: Gains, ss: seq<real>, n: nat)
    requires n <= |ss|
    ensures WideAt(g, Wide(QUIET, QUIET), ss, n)
         == Wide(LadderAfter(g.ax, ss[..n]), LadderAfter(g.ay, Bass(g, ss[..n])))
  {
    hide FourPoles, Fed, Gained;
    if n != 0 {
      WideIsLadders(g, ss, n - 1);
      var now := ss[..n];
      assert now[..n - 1] == ss[..n - 1];
      BassOfFront(g, now);
      LadderIsPoles(g.ax, now);
      LowOut(g.ax, now);
    }
  }

  lemma LowOut(a: Angles, ss: seq<real>)
    requires ss != []
    ensures LadderAfter(a, ss).out0 == LadderAfter(a, ss).x3
  {
    hide Toward;
    LowBandIsOut(LadderAfter(a, ss[..|ss| - 1]), a, ss[|ss| - 1]);
    hide Fed;
  }

  lemma BassOfFront(g: Gains, ss: seq<real>)
    requires ss != []
    ensures Bass(g, ss)[..|ss| - 1] == Bass(g, ss[..|ss| - 1])
    ensures Bass(g, ss)[|ss| - 1] == Gained(FourPoles(g.ax.lower, ss), g.bass)
  {
    hide FourPoles, Gained;
    var front := ss[..|ss| - 1];
    forall i | 0 <= i < |front| ensures Bass(g, ss)[i] == Bass(g, front)[i] {
      assert front[..i + 1] == ss[..i + 1];
    }
    assert ss[..|ss| - 1 + 1] == ss;
  }

  /** The wide path for any gains, as filters of streams: the input of three samples ago less its low band,
      then the amplified low band split again, what is above the second ladder's upper corner of it kept as
      far as its own gain says, what is below the lower one likewise, and what lies between as it is. */
  lemma WideSpelledOut(g: Gains, ss: seq<real>, n: nat)
    requires n < |ss|
    ensures var now := ss[..n + 1];
            var bass := Bass(g, now);
            var below, above := FourPoles(g.ay.lower, bass), FourPoles(g.ay.upper, bass);
            WideStream(g, Wide(QUIET, QUIET), ss)[n]
              == At(ss, n - 3) - FourPoles(g.ax.lower, now) + (above - below)
                   + Gained(At(bass, n - 3) - above, g.sideX) + Gained(below, g.sideY)
  {
    hide FourPoles, Fed, WideAfter, WideOut, Gained, WideAt, LadderAfter, Bass, Toward;
    var before, now := ss[..n], ss[..n + 1];
    var w := Wide(LadderAfter(g.ax, before), LadderAfter(g.ay, Bass(g, before)));
    WideIsLadders(g, ss, n);
    WideIsLadders(g, ss, n + 1);
    WideNext(g, Wide(QUIET, QUIET), ss, n);
    OutOfBands(g, w, ss[n]);
    LadderEnds(g.ax, before);
    LadderEnds(g.ax, now);
    LadderEnds(g.ay, Bass(g, before));
    LadderEnds(g.ay, Bass(g, now));
    assert now[..n] == before;
    BassOfFront(g, now);
  }

  lemma LadderEnds(a: Angles, ss: seq<real>)
    ensures var p := LadderAfter(a, ss);
            p.x3 == FourPoles(a.lower, ss) && p.y3 == FourPoles(a.upper, ss) && p.in2 == At(ss, |ss| - 3)
  {
    hide FourPoles, Cascaded, PoleAfter, LadderAfter;
    LadderIsPoles(a, ss);
  }

  // ---- the program ----

  class Poles {
    var in0: real
    var in1: real
    var in2: real
    var x0: real
    var x1: real
    var x2: real
    var x3: real
    var y0: real
    var y1: real
    var y2: real
    var y3: real
    var out0: real
    var out1: real
    var out2: real
    var angles: Angles

    function State(): Ladder
      reads this
    {
      Ladder(in0, in1, in2, x0, x1, x2, x3, y0, y1, y2, y3, out0, out1, out2)
    }

    constructor (angles: Angles)
      ensures State() == QUIET && this.angles == angles
    {
      in0, in1, in2 := 0.0, 0.0, 0.0;
      x0, x1, x2, x3, y0, y1, y2, y3 := 0.0, 0.0, 0.0, 0.0, 0.0, 0.0, 0.0, 0.0;
      out0, out1, out2 := 0.0, 0.0, 0.0;
      this.angles := angles;
    }

    /** The four poles at the lower corner, then the four at the upper one. */
    method FeedLower(s: real)
      modifies `x0, `x1, `x2, `x3
      ensures x0 == Toward(old(x0), s, angles.lower) && x1 == Toward(old(x1), x0, angles.lower)
      ensures x2 == Toward(old(x2), x1, angles.lower) && x3 == Toward(old(x3), x2, angles.lower)
    {
      hide Toward;
      x0 := Toward(x0, s, angles.lower);
      x1 := Toward(x1, x0, angles.lower);
      x2 := Toward(x2, x1, angles.lower);
      x3 := Toward(x3, x2, angles.lower);
    }

    method FeedUpper(s: real)
      modifies `y0, `y1, `y2, `y3
      ensures y0 == Toward(old(y0), s, angles.upper) && y1 == Toward(old(y1), y0, angles.upper)
      ensures y2 == Toward(old(y2), y1, angles.upper) && y3 == Toward(old(y3), y2, angles.upper)
    {
      hide Toward;
      y0 := Toward(y0, s, angles.upper);
      y1 := Toward(y1, y0, angles.upper);
      y2 := Toward(y2, y1, angles.upper);
      y3 := Toward(y3, y2, angles.upper);
    }

    /** `poles`. */
    method Feed(s: real)
      modifies this
      ensures State() == Fed(old(State()), angles, s) && angles == old(angles)
    {
      hide Toward;
      var oldest := in2;
      in2 := in1;
      in1 := in0;
      in0 := s;
      FeedLower(s);
      FeedUpper(s);
      out0 := x3;
      out1 := oldest - y3;
      out2 := y3 - x3;
    }
  }

  class DynamicBass {
    const xl: Poles
    const xr: Poles
    const yl: Poles
    const yr: Poles
    var bassGain: real
    var sideX: real
    var sideY: real
    var lowFreqX: real
    var lp: Coeffs
    var lpX1: real
    var lpX2: real
    var lpY1: real
    var lpY2: real

    ghost predicate Valid()
      reads xl, xr, yl, yr
    {
      && xl != xr && xl != yl && xl != yr && xr != yl && xr != yr && yl != yr
      && xl.angles == xr.angles && yl.angles == yr.angles
    }

    constructor (gains: Gains, lowFreqX: real, lp: Coeffs)
      ensures Valid() && fresh(xl) && fresh(xr) && fresh(yl) && fresh(yr)
      ensures Settings() == gains && this.lowFreqX == lowFreqX && this.lp == lp
      ensures Left() == Wide(QUIET, QUIET) && Right() == Wide(QUIET, QUIET) && Silent(Low())
    {
      xl := new Poles(gains.ax);
      xr := new Poles(gains.ax);
      yl := new Poles(gains.ay);
      yr := new Poles(gains.ay);
      bassGain, sideX, sideY := gains.bass, gains.sideX, gains.sideY;
      this.lowFreqX, this.lp := lowFreqX, lp;
      lpX1, lpX2, lpY1, lpY2 := 0.0, 0.0, 0.0, 0.0;
    }

    function Settings(): Gains
      reads this, xl, yl
    {
      Gains(bassGain, sideX, sideY, xl.angles, yl.angles)
    }

    function Left(): Wide
      reads xl, yl
    {
      Wide(xl.State(), yl.State())
    }

    function Right(): Wide
      reads xr, yr
    {
      Wide(xr.State(), yr.State())
    }

    function Low(): Memory
      reads this
    {
      Direct(lpX1, lpX2, lpY1, lpY2)
    }

    /** `lowpass`. */
    method Lowpass(s: real) returns (out: real)
      modifies `lpX1, `lpX2, `lpY1, `lpY2
      ensures out == Biquads.Out(lp, old(Low()), s) && Low() == Next(lp, old(Low()), s)
    {
      out := lp.b0 * s + lp.b1 * lpX1 + lp.b2 * lpX2 - lp.a1 * lpY1 - lp.a2 * lpY2;
      lpY2 := lpY1;
      lpY1 := out;
      lpX2 := lpX1;
      lpX1 := s;
    }

    /** The ladder branch for one channel. */
    method WideSample(x: Poles, y: Poles, s: real) returns (out: real)
      requires x != y && x.angles == xl.angles && y.angles == yl.angles
      modifies x, y
      ensures x.angles == old(x.angles) && y.angles == old(y.angles)
      ensures Wide(x.State(), y.State()) == WideAfter(old(Settings()), old(Wide(x.State(), y.State())), s)
      ensures out == WideOut(old(Settings()), Wide(x.State(), y.State()))
    {
      hide Fed, Gained;
      x.Feed(s);
      y.Feed(Gained(x.out0, bassGain));
      out := x.out1 + y.out2 + sideX * y.out1 + sideY * y.out0 + x.out2;
    }

    /** The wide branch of `processBlock`. */
    method ProcessWide(l: array<real>, r: array<real>, n: nat)
      requires Valid() && l != r && n <= l.Length && n <= r.Length
      modifies xl, xr, yl, yr, l, r
      ensures Valid() && Settings() == old(Settings())
      ensures l[..] == WideStream(Settings(), old(Left()), old(l[..n])) + old(l[n..])
      ensures r[..] == WideStream(Settings(), old(Right()), old(r[..n])) + old(r[n..])
      ensures Left() == WideAt(Settings(), old(Left()), old(l[..n]), n)
      ensures Right() == WideAt(Settings(), old(Right()), old(r[..n]), n)
    {
      hide WideAt, WideOut, WideAfter, Poles.State;
      ghost var g, wl, wr, ls, rs := Settings(), Left(), Right(), l[..n], r[..n];
      ghost var tl, tr := l[n..], r[n..];
      WideStart(g, wl, ls);
      WideStart(g, wr, rs);
      for i := 0 to n
        invariant Valid() && Settings() == g && l[n..] == tl && r[n..] == tr
        invariant Left() == WideAt(g, wl, ls, i) && Right() == WideAt(g, wr, rs, i)
        invariant l[..i] == WideStream(g, wl, ls)[..i] && r[..i] == WideStream(g, wr, rs)[..i]
        invariant l[i..n] == ls[i..] && r[i..n] == rs[i..]
      {
        WideNext(g, wl, ls, i);
        WideNext(g, wr, rs, i);
        assert l[i] == l[i..n][0] && r[i] == r[i..n][0];
        l[i] := WideSample(xl, yl, l[i]);
        r[i] := WideSample(xr, yr, r[i]);
      }
    }

    /** The mono branch: the same low-passed sum is added to both channels. */
    method ProcessMono(l: array<real>, r: array<real>, n: nat)
      requires l != r && n <= l.Length && n <= r.Length
      modifies `lpX1, `lpX2, `lpY1, `lpY2, l, r
      ensures var avg := Stream(lp, old(Low()), Summed(old(l[..n]), old(r[..n])));
              l[..] == Summed(old(l[..n]), avg) + old(l[n..]) && r[..] == Summed(old(r[..n]), avg) + old(r[n..])
      ensures Low() == MemoryAt(lp, old(Low()), Summed(old(l[..n]), old(r[..n])), n)
    {
      hide Biquads.Out, Next, MemoryAt, Summed, Stream;
      ghost var m, ls, rs := Low(), l[..n], r[..n];
      ghost var xs := Summed(ls, rs);
      ghost var avg := Stream(lp, m, xs);
      ghost var tl, tr := l[n..], r[n..];
      MemoryStart(lp, m, xs);
      for i := 0 to n
        invariant l[n..] == tl && r[n..] == tr && Low() == MemoryAt(lp, m, xs, i)
        invariant l[..i] == Summed(ls, avg)[..i] && r[..i] == Summed(rs, avg)[..i]
        invariant l[i..n] == ls[i..] && r[i..n] == rs[i..]
      {
        MemoryNext(lp, m, xs, i);
        SummedAt(ls, rs, i);
        SummedAt(ls, avg, i);
        SummedAt(rs, avg, i);
        assert l[i] == l[i..n][0] && r[i] == r[i..n][0];
        var low := Lowpass(l[i] + r[i]);
        l[i] := l[i] + low;
        r[i] := r[i] + low;
      }
    }

    /** `processBlock`. */
    method ProcessBlock(l: array<real>, r: array<real>, n: nat)
      requires Valid() && l != r && n <= l.Length && n <= r.Length
      modifies xl, xr, yl, yr, `lpX1, `lpX2, `lpY1, `lpY2, l, r
      ensures Valid() && Settings() == old(Settings())
      ensures lowFreqX > 120.0 ==>
                && l[..] == WideStream(Settings(), old(Left()), old(l[..n])) + old(l[n..])
                && r[..] == WideStream(Settings(), old(Right()), old(r[..n])) + old(r[n..])
                && Left() == WideAt(Settings(), old(Left()), old(l[..n]), n)
                && Right() == WideAt(Settings(), old(Right()), old(r[..n]), n) && Low() == old(Low())
      ensures lowFreqX <= 120.0 ==>
                var avg := Stream(lp, old(Low()), Summed(old(l[..n]), old(r[..n])));
                l[..] == Summed(old(l[..n]), avg) + old(l[n..]) && r[..] == Summed(old(r[..n]), avg) + old(r[n..])
      ensures lowFreqX <= 120.0 ==>
                && Low() == MemoryAt(lp, old(Low()), Summed(old(l[..n]), old(r[..n])), n)
                && Left() == old(Left()) && Right() == old(Right())
    {
      hide WideStream, Stream, Summed, MemoryAt, WideAt, Poles.State;
      if lowFreqX <= 120.0 {
        ProcessMono(l, r, n);
      } else {
        ProcessWide(l, r, n);
      }
    }
  }

  /** Two streams added sample by sample. */
  function Summed(us: seq<real>, vs: seq<real>): (r: seq<real>)
    requires |us| == |vs|
    ensures |r| == |us|
  {
    seq(|us|, i requires 0 <= i < |us| => us[i] + vs[i])
  }

  lemma SummedAt(us: seq<real>, vs: seq<real>, i: nat)
    requires |us| == |vs| && i < |us|
    ensures Summed(us, vs)[i] == us[i] + vs[i]
  {
  }

  /** The mono branch from silence: what both channels gain is the solution of the low-pass equation for the sum
      of the two, so their difference stays as it was. */
  lemma MonoAddsLowPass(c: Coeffs, m: Memory, ls: seq<real>, rs: seq<real>, mid: seq<real>, low: seq<real>)
    requires Silent(m) && |ls| == |rs| == |mid| && Solves(c, mid, low)
    requires forall i :: 0 <= i < |ls| ==> mid[i] == ls[i] + rs[i]
    ensures var avg := Stream(c, m, Summed(ls, rs));
            forall i :: 0 <= i < |ls| ==>
              && Summed(ls, avg)[i] == ls[i] + low[i] && Summed(rs, avg)[i] == rs[i] + low[i]
              && Summed(ls, avg)[i] - Summed(rs, avg)[i] == ls[i] - rs[i]
  {
    assert Summed(ls, rs) == mid;
    AllFormsAgree(c, m, mid, low);
    hide Stream, Solves;
  }

  lemma WideStart(g: Gains, w: Wide, ss: seq<real>)
    ensures WideAt(g, w, ss, 0) == w
  {
  }

  lemma WideNext(g: Gains, w: Wide, ss: seq<real>, i: nat)
    requires i < |ss|
    ensures WideAt(g, w, ss, i + 1) == WideAfter(g, WideAt(g, w, ss, i), ss[i])
    ensures WideStream(g, w, ss)[i] == WideOut(g, WideAt(g, w, ss, i + 1))
  {
    hide WideAfter, WideOut;
  }

  lemma MemoryStart(c: Coeffs, m: Memory, xs: seq<real>)
    ensures MemoryAt(c, m, xs, 0) == m
  {
  }

  lemma MemoryNext(c: Coeffs, m: Memory, xs: seq<real>, i: nat)
    requires i < |xs|
    ensures MemoryAt(c, m, xs, i + 1) == Next(c, MemoryAt(c, m, xs, i), xs[i])
    ensures Stream(c, m, xs)[i] == Biquads.Out(c, MemoryAt(c, m, xs, i), xs[i])
  {
    hide Biquads.Out, Next;
  }
}
