/**
 Which curve each of the eight models of `vst/src/engine/multibandDist.c` is, told by a law of its own
 rather than by its formula, and where the character dial takes it.
 */
module ShaperLaws {
  import opened Reals
  import opened Shapers

  // A dial that runs from a to b is Mix(a, b, shape).

  /** Soft and crush: the drive goes into a hyperbolic tangent whose gain runs from 0.6 to 4.6, divided by
      what full scale gives. */
  lemma SoftLaw(cv: Curves, model: Model, x: real, shape: real)
    requires cv.Lawful() && 0.0 <= shape <= 1.0 && (model == Soft || model == Crush)
    ensures var k := Mix(0.6, 4.6, shape);
            Gained(Shape(cv, model, x, shape), cv.tanh(k)) == cv.tanh(Gained(x, k))
  {
    var k := SoftGain(shape);
    assert k == Mix(0.6, 4.6, shape);
    SoftDefined(cv, shape);
    var t := cv.tanh(x * k);
    assert Shape(cv, model, x, shape) == t / cv.tanh(k);
    hide Shape, Curves.Lawful, SoftGain;
    QuotientTimes(t, cv.tanh(k));
  }

  lemma QuotientTimes(p: real, d: real)
    requires d != 0.0
    ensures Gained(p / d, d) == p
  {
  }

  /** Hard: the input itself as far as 0.98 less four tenths of the dial, the rail from 1.02 plus as much. */
  lemma HardLaw(cv: Curves, x: real, shape: real)
    requires cv.Lawful() && 0.0 <= shape <= 1.0
    ensures var y := Shape(cv, Hard, x, shape);
            && (y == x <==> Abs(x) <= 0.98 - 0.4 * shape)
            && (Abs(y) == 1.0 <==> 1.02 + 0.4 * shape <= Abs(x))
            && (0.0 <= x <==> 0.0 <= y)
  {
    hide Curves.Lawful;
    var knee, a := HardKnee(shape), Abs(x);
    var u := a - (1.0 - knee);
    if 0.0 < u < 2.0 * knee {
      BetweenLineAndRail(u, knee);
      var bent := Gained(u, u) / (4.0 * knee);
      assert HardShape(x, shape) == Sign(x) * (1.0 - knee + u - bent);
      hide HardShape;
    }
  }

  /** Inside the bend the curve has left its line and not yet reached its rail. */
  lemma BetweenLineAndRail(u: real, knee: real)
    requires 0.0 < u < 2.0 * knee && knee < 1.0
    ensures 0.0 < Gained(u, u) / (4.0 * knee) && 0.0 < u - Gained(u, u) / (4.0 * knee) < knee
  {
    hide Gained;
    var w := 2.0 * knee - u;
    LeavesLine(u, knee);
    MissesRail(w, knee);
    assert knee - w == u - knee && 2.0 * knee - w == u;
    QuotientBetween(Gained(u, u), 4.0 * knee, u, knee);
  }

  lemma LeavesLine(u: real, knee: real)
    requires 0.0 < u < 2.0 * knee
    ensures 0.0 < Gained(u, u) < Gained(u, 4.0 * knee)
  {
    hide Gained;
    GainedPositive(u, u);
    GainedPositive(u, 4.0 * knee - u);
    GainedSum(u, u, 4.0 * knee - u);
    assert u + (4.0 * knee - u) == 4.0 * knee;
  }

  lemma MissesRail(w: real, knee: real)
    requires 0.0 < w
    ensures Gained(knee - w, 4.0 * knee) < Gained(2.0 * knee - w, 2.0 * knee - w)
  {
    hide Gained;
    GainedPositive(w, w);
    SquareOfRest(w, knee);
  }

  lemma SquareOfRest(w: real, knee: real)
    ensures Gained(2.0 * knee - w, 2.0 * knee - w) == Gained(w, w) + Gained(knee - w, 4.0 * knee)
  {
  }

  lemma QuotientBetween(p: real, d: real, u: real, knee: real)
    requires 0.0 < d && 0.0 < p < Gained(u, d) && Gained(u - knee, d) < p
    ensures 0.0 < p / d < u && u - knee < p / d
  {
    QuotientAtLeast(p, d, 0.0);
    QuotientAtLeast(p, d, u - knee);
    QuotientAtMost(p, d, u);
  }

  /** Tube: the reciprocal of the output is that of the input plus a lean, which runs from 0.6 to 1.1 above
      zero and from 0.4 to 0.8 below; here multiplied out. */
  lemma TubeLaw(cv: Curves, x: real, shape: real)
    requires cv.Lawful() && 0.0 <= shape <= 1.0
    ensures var y := Shape(cv, Tube, x, shape);
            && (0.0 <= x ==> y + Gained(Gained(x, y), Mix(0.6, 1.1, shape)) == x)
            && (x < 0.0 ==> y - Gained(Gained(x, y), Mix(0.4, 0.8, shape)) == x)
  {
    var y := TubeShape(x, shape);
    var c := if 0.0 <= x then PositiveLean(shape) else -NegativeLean(shape);
    assert c == if 0.0 <= x then Mix(0.6, 1.1, shape) else -Mix(0.4, 0.8, shape);
    TubeDenominator(if 0.0 <= x then c else -c, if 0.0 <= x then x else -x);
    assert y == x / (1.0 + c * x);
    hide Shape, TubeShape, Mix, PositiveLean, NegativeLean, Curves.Lawful;
    TubeArithmetic(x, y, c);
  }

  lemma TubeArithmetic(x: real, y: real, c: real)
    requires 1.0 + c * x != 0.0 && y == x / (1.0 + c * x)
    ensures y + Gained(Gained(x, y), c) == x && y - Gained(Gained(x, y), -c) == x
  {
    var d := 1.0 + c * x;
    assert y * d == x;
    assert y * d == y + (x * y) * c;
  }

  /** Overdrive: the input times a gain from 0.6 to 2.0, doubled up to a third, on the rail from two thirds,
      and in between short of the rail by a square. */
  lemma OverdriveLaw(cv: Curves, x: real, shape: real)
    requires cv.Lawful() && 0.0 <= shape <= 1.0
    ensures var y, v := Shape(cv, Overdrive, x, shape), Gained(x, Mix(0.6, 2.0, shape));
            var a := Abs(v);
            && (a <= 1.0 / 3.0 ==> y == 2.0 * v)
            && (1.0 / 3.0 <= a <= 2.0 / 3.0 ==> 3.0 * (1.0 - Abs(y)) == (2.0 - 3.0 * a) * (2.0 - 3.0 * a))
            && (2.0 / 3.0 <= a ==> Abs(y) == 1.0)
            && (0.0 <= v <==> 0.0 <= y)
  {
    assert OverdriveGain(shape) == Mix(0.6, 2.0, shape);
    hide Mix, OverdriveGain, Curves.Lawful, Gained;
    var v := Gained(x, Mix(0.6, 2.0, shape));
    var a := Abs(v);
    var u := 2.0 - 3.0 * a;
    if 1.0 / 3.0 <= a <= 2.0 / 3.0 {
      SquareOfSmall(u);
    }
  }

  lemma SquareOfSmall(u: real)
    requires 0.0 <= u <= 1.0
    ensures 0.0 <= u * u <= 1.0
  {
    ProductOfSmall(u, u);
  }

  lemma ProductOfSmall(u: real, w: real)
    requires 0.0 <= u <= 1.0 && 0.0 <= w <= 1.0
    ensures 0.0 <= u * w <= 1.0
  {
    ProductNonNegative(u, w);
    ProductNonNegative(u, 1.0 - w);
  }

  /** Fold: the reflection at the rails of the input times one to four folds. */
  lemma FoldLaw(cv: Curves, x: real, shape: real)
    requires cv.Lawful() && 0.0 <= shape <= 1.0
    ensures Shape(cv, Fold, x, shape) == Reflected(Gained(x, Mix(1.0, 4.0, shape)))
  {
    assert Folds(shape) == Mix(1.0, 4.0, shape);
    hide Mix, Folds, Reduced, Curves.Lawful, Gained;
    ReducedIsReflected(Gained(x, Mix(1.0, 4.0, shape)));
  }

  /** Fuzz: above zero the distance to the rail decays exponentially at a rate from 2 to 10; below zero it is
      the mirror image at seven to nine tenths. */
  lemma FuzzLaw(cv: Curves, x: real, shape: real)
    requires cv.Lawful() && 0.0 <= shape <= 1.0 && 0.0 < x
    ensures 1.0 - Shape(cv, Fuzz, x, shape) == cv.exp(-Gained(x, Mix(2.0, 10.0, shape)))
    ensures Shape(cv, Fuzz, -x, shape) == -Gained(Shape(cv, Fuzz, x, shape), Mix(0.7, 0.9, shape))
    ensures Shape(cv, Fuzz, 0.0, shape) == 0.0
  {
    var k := 2.0 + shape * 8.0;
    assert k == Mix(2.0, 10.0, shape) && 0.7 + shape * 0.2 == Mix(0.7, 0.9, shape);
    assert -Abs(x) * k == -(x * k) && -Abs(-x) * k == -(x * k) && -Abs(0.0) * k == 0.0;
    var e := cv.exp(-(x * k));
    assert cv.exp(0.0) == 1.0;
    assert FuzzShape(cv, x, shape) == 1.0 - e;
    assert FuzzShape(cv, -x, shape) == (-1.0 * (1.0 - e)) * (0.7 + shape * 0.2);
    hide FuzzShape, Curves.Lawful, Mix;
    MirroredScale(1.0 - e, 0.7 + shape * 0.2);
  }

  lemma MirroredScale(y: real, g: real)
    ensures (-1.0 * y) * g == -Gained(y, g)
  {
  }

  /** Rectify, for an odd tangent: what is odd about the curve is the tangent, faded out over the dial, and
      what is even is its full-wave rectification, faded in. */
  lemma RectifyLaw(cv: Curves, x: real, shape: real)
    requires cv.Lawful() && 0.0 <= shape <= 1.0 && cv.tanh(-x) == -cv.tanh(x)
    ensures var y, z, t := Shape(cv, Rectify, x, shape), Shape(cv, Rectify, -x, shape), cv.tanh(x);
            y - z == Gained(2.0 * t, 1.0 - shape) && y + z == Gained(2.0 * (2.0 * Abs(t) - 1.0), shape)
  {
    var t := cv.tanh(x);
    assert Abs(-t) == Abs(t);
    assert Shape(cv, Rectify, x, shape) == Mix(t, Abs(t) * 2.0 - 1.0, shape);
    assert Shape(cv, Rectify, -x, shape) == Mix(-t, Abs(t) * 2.0 - 1.0, shape);
    hide Shape, Curves.Lawful;
  }
}
