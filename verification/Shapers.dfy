/**
 The eight waveshapers of `vst/src/engine/multibandDist.c`. Each is bounded whatever it is fed;
 the piecewise ones are joined without steps; the wavefolder equals the iterated reflection.
 */
module Shapers {
  import opened Reals

  datatype Model = Soft | Hard | Tube | Overdrive | Fold | Fuzz | Rectify | Crush

  /** The two library curves, of which only range, sign and monotonicity are used. */
  datatype Curves = Curves(tanh: real -> real, exp: real -> real) {

    ghost predicate Lawful() {
      && (forall x :: -1.0 < tanh(x) < 1.0)
      && (forall x, y :: x < y ==> tanh(x) < tanh(y))
      && tanh(0.0) == 0.0
      && (forall x :: 0.0 < exp(x))
      && (forall x, y :: x < y ==> exp(x) < exp(y))
      && exp(0.0) == 1.0
    }
  }

  function Sign(x: real): real { if x < 0.0 then -1.0 else 1.0 }

  function SoftGain(shape: real): real { 0.6 + shape * 4.0 }

  function SoftShape(cv: Curves, x: real, shape: real): real
    requires cv.tanh(SoftGain(shape)) != 0.0
  {
    cv.tanh(x * SoftGain(shape)) / cv.tanh(SoftGain(shape))
  }

  function HardKnee(shape: real): real { 0.02 + shape * 0.4 }

  function HardShape(x: real, shape: real): real
    requires 0.0 <= shape
  {
    var knee := HardKnee(shape);
    var t := 1.0 - knee;
    var a := Abs(x);
    if a <= t then x
    else if a >= t + 2.0 * knee then Sign(x) * (t + knee)
    else
      var u := a - t;
      Sign(x) * (t + u - (u * u) / (4.0 * knee))
  }

  function TubeShape(x: real, shape: real): real
    requires 0.0 <= shape <= 1.0
  {
    if x >= 0.0 then
      TubeDenominator(PositiveLean(shape), x);
      x / (1.0 + PositiveLean(shape) * x)
    else
      TubeDenominator(NegativeLean(shape), -x);
      x / (1.0 - NegativeLean(shape) * x)
  }

  function PositiveLean(shape: real): real { 0.6 + shape * 0.5 }

  function NegativeLean(shape: real): real { 0.4 + shape * 0.4 }

  lemma TubeDenominator(c: real, x: real)
    requires 0.0 <= c && 0.0 <= x
    ensures 1.0 <= 1.0 + c * x && 1.0 - c * -x == 1.0 + c * x
  {
    ProductNonNegative(c, x);
  }

  function OverdriveGain(shape: real): real { 0.6 + shape * 1.4 }

  function OverdriveShape(x: real, shape: real): real {
    var v := Gained(x, OverdriveGain(shape));
    var a := Abs(v);
    if a < 1.0 / 3.0 then 2.0 * v
    else if a < 2.0 / 3.0 then
      var u := 2.0 - 3.0 * a;
      Sign(v) * (3.0 - u * u) / 3.0
    else Sign(v)
  }

  function Folds(shape: real): real { 1.0 + shape * 3.0 }

  /** The reduction into one period of the triangle, and the reflection that is left. */
  function Reduced(y: real): real {
    var r := y - 4.0 * ((y + 2.0) * 0.25).Floor as real;
    if r > 1.0 then 2.0 - r else if r < -1.0 then -2.0 - r else r
  }

  function FoldShape(x: real, shape: real): real {
    Reduced(Gained(x, Folds(shape)))
  }

  function FuzzShape(cv: Curves, x: real, shape: real): real {
    var k := 2.0 + shape * 8.0;
    var y := Sign(x) * (1.0 - cv.exp(-Abs(x) * k));
    if x < 0.0 then y * (0.7 + shape * 0.2) else y
  }

  function RectifyShape(cv: Curves, x: real, shape: real): real {
    var t := cv.tanh(x);
    var r := Abs(t) * 2.0 - 1.0;
    Mix(t, r, shape)
  }

  /** `mbdShape`. */
  function Shape(cv: Curves, model: Model, x: real, shape: real): real
    requires cv.Lawful() && 0.0 <= shape <= 1.0
  {
    match model
    case Soft => SoftDefined(cv, shape); SoftShape(cv, x, shape)
    case Crush => SoftDefined(cv, shape); SoftShape(cv, x, shape)
    case Hard => HardShape(x, shape)
    case Tube => TubeShape(x, shape)
    case Overdrive => OverdriveShape(x, shape)
    case Fold => FoldShape(x, shape)
    case Fuzz => FuzzShape(cv, x, shape)
    case Rectify => RectifyShape(cv, x, shape)
  }

  lemma SoftDefined(cv: Curves, shape: real)
    requires cv.Lawful() && 0.0 <= shape
    ensures 0.0 < cv.tanh(0.6) <= cv.tanh(SoftGain(shape))
  {
    assert cv.tanh(0.0) < cv.tanh(0.6);
    assert SoftGain(shape) == 0.6 || cv.tanh(0.6) < cv.tanh(SoftGain(shape));
  }

  // ---- bounds ----

  /** A bound for each model that holds for every input and every shape. */
  function Bound(cv: Curves, model: Model): real
    requires cv.Lawful()
  {
    if model.Soft? || model.Crush? then SoftDefined(cv, 0.0); 1.0 / cv.tanh(0.6)
    else if model.Tube? then 2.5
    else 1.0
  }

  lemma QuotientBelow(p: real, q: real, d: real)
    requires -1.0 < p < 1.0 && 0.0 < q <= d
    ensures Abs(p / d) <= 1.0 / q
  {
    var m := 1.0 / q;
    QuotientAtLeast(1.0, q, 0.0);
    assert m * q == 1.0;
    ProductMonotone(m, q, d);
    QuotientAtMost(p, d, m);
    QuotientAtLeast(p, d, -m);
    assert -m * d == -(m * d);
  }

  lemma SoftBounded(cv: Curves, x: real, shape: real)
    requires cv.Lawful() && 0.0 <= shape
    ensures cv.tanh(SoftGain(shape)) != 0.0
    ensures Abs(SoftShape(cv, x, shape)) <= 1.0 / cv.tanh(0.6)
  {
    SoftDefined(cv, shape);
    QuotientBelow(cv.tanh(x * SoftGain(shape)), cv.tanh(0.6), cv.tanh(SoftGain(shape)));
  }

  /** Full scale in gives full scale out whatever the knob says. */
  lemma SoftNormalised(cv: Curves, x: real, shape: real)
    requires cv.Lawful() && 0.0 <= shape && -1.0 <= x <= 1.0
    requires forall y :: cv.tanh(-y) == -cv.tanh(y)
    ensures cv.tanh(SoftGain(shape)) != 0.0
    ensures -1.0 <= SoftShape(cv, x, shape) <= 1.0 && SoftShape(cv, 1.0, shape) == 1.0
  {
    SoftDefined(cv, shape);
    TanhWithin(cv, x * SoftGain(shape), SoftGain(shape), x);
    UnitGain(SoftGain(shape));
    hide SoftGain, Curves.Lawful;
    WithinItself(cv.tanh(x * SoftGain(shape)), cv.tanh(SoftGain(shape)));
  }

  lemma UnitGain(k: real)
    ensures 1.0 * k == k
  {
  }

  lemma WithinItself(p: real, d: real)
    requires 0.0 < d && -d <= p <= d
    ensures -1.0 <= p / d <= 1.0 && d / d == 1.0
  {
    QuotientAtMost(p, d, 1.0);
    QuotientAtLeast(p, d, -1.0);
  }

  lemma ScaledWithin(k: real, x: real)
    requires 0.0 <= k && -1.0 <= x <= 1.0
    ensures -k <= x * k <= k
  {
    ProductNonNegative(k, 1.0 - x);
    ProductNonNegative(k, 1.0 + x);
  }

  lemma TanhWithin(cv: Curves, z: real, k: real, x: real)
    requires cv.Lawful() && 0.0 <= k && -1.0 <= x <= 1.0 && z == x * k
    requires forall y :: cv.tanh(-y) == -cv.tanh(y)
    ensures -cv.tanh(k) <= cv.tanh(z) <= cv.tanh(k)
  {
    ScaledWithin(k, x);
    assert z == k || cv.tanh(z) < cv.tanh(k);
    assert z == -k || cv.tanh(-k) < cv.tanh(z);
  }

  /** The curve both halves of the tube are made of. */
  function Saturate(c: real, x: real): real
    requires 0.0 < c && 0.0 <= x
  {
    TubeDenominator(c, x);
    x / (1.0 + c * x)
  }

  lemma SaturateBounded(c: real, x: real)
    requires 0.0 < c && 0.0 <= x
    ensures 0.0 <= Saturate(c, x) < 1.0 / c
  {
    ProductNonNegative(c, x);
    var d, m := 1.0 + c * x, 1.0 / c;
    assert m * c == 1.0;
    assert m * d == m + (m * c) * x;
    QuotientAtLeast(1.0, c, 0.0);
    QuotientAtMost(x, d, m);
    QuotientAtLeast(x, d, 0.0);
  }

  /** The tube curve is one saturation above zero and a mirrored, harder one below. */
  lemma TubeIsSaturate(x: real, shape: real)
    requires 0.0 <= shape <= 1.0
    ensures 0.6 <= PositiveLean(shape) && 0.4 <= NegativeLean(shape)
    ensures TubeShape(x, shape)
         == if 0.0 <= x then Saturate(PositiveLean(shape), x) else -Saturate(NegativeLean(shape), -x)
  {
    if x < 0.0 {
      var q := NegativeLean(shape);
      TubeDenominator(q, -x);
      NegatedQuotient(x, 1.0 + q * -x);
    }
  }

  /** The tube curve stays inside its two asymptotes. */
  lemma TubeBounded(x: real, shape: real)
    requires 0.0 <= shape <= 1.0
    ensures 0.6 <= PositiveLean(shape) && 0.4 <= NegativeLean(shape)
    ensures -(1.0 / NegativeLean(shape)) < TubeShape(x, shape) < 1.0 / PositiveLean(shape)
  {
    hide TubeShape, Saturate, PositiveLean, NegativeLean;
    TubeIsSaturate(x, shape);
    var p, q := PositiveLean(shape), NegativeLean(shape);
    if 0.0 <= x {
      SaturateBounded(p, x);
      SaturateBounded(q, 0.0);
    } else {
      SaturateBounded(q, -x);
      SaturateBounded(p, 0.0);
    }
  }

  lemma TubeBoundedForAllShapes(x: real, shape: real)
    requires 0.0 <= shape <= 1.0
    ensures Abs(TubeShape(x, shape)) <= 2.5
  {
    hide TubeShape, PositiveLean, NegativeLean;
    TubeBounded(x, shape);
    QuotientAtMost(1.0, PositiveLean(shape), 2.5);
    QuotientAtMost(1.0, NegativeLean(shape), 2.5);
  }

  lemma FuzzBounded(cv: Curves, x: real, shape: real)
    requires cv.Lawful() && 0.0 <= shape <= 1.0
    ensures -1.0 < FuzzShape(cv, x, shape) < 1.0
  {
    var k := 2.0 + shape * 8.0;
    ProductNonNegative(Abs(x), k);
    assert -Abs(x) * k == -(Abs(x) * k);
    var e := cv.exp(-Abs(x) * k);
    assert -Abs(x) * k == 0.0 || e < cv.exp(0.0);
    assert 0.0 < e <= 1.0;
    if x < 0.0 {
      var y, g := Sign(x) * (1.0 - e), 0.7 + shape * 0.2;
      ProductNonNegative(1.0 - e, g);
      ProductMonotone(1.0 - e, g, 1.0);
      assert y * g == -((1.0 - e) * g);
    }
  }

  lemma RectifyBounded(cv: Curves, x: real, shape: real)
    requires cv.Lawful() && 0.0 <= shape <= 1.0
    ensures -1.0 <= RectifyShape(cv, x, shape) <= 1.0
  {
    var t := cv.tanh(x);
    hide Mix;
    MixBounded(t, Abs(t) * 2.0 - 1.0, shape, 1.0);
  }

  /** Every model, every input, every setting of the character knob. */
  lemma ShapeBounded(cv: Curves, model: Model, x: real, shape: real)
    requires cv.Lawful() && 0.0 <= shape <= 1.0
    ensures Abs(Shape(cv, model, x, shape)) <= Bound(cv, model)
  {
    hide SoftShape, HardShape, TubeShape, OverdriveShape, FoldShape, FuzzShape, RectifyShape;
    match model
    case Soft => SoftBounded(cv, x, shape);
    case Crush => SoftBounded(cv, x, shape);
    case Hard => HardBounded(x, shape);
    case Tube => TubeBoundedForAllShapes(x, shape);
    case Overdrive => OverdriveBounded(x, shape);
    case Fold => FoldBounded(x, shape);
    case Fuzz => FuzzBounded(cv, x, shape);
    case Rectify => RectifyBounded(cv, x, shape);
  }

  // ---- curves made of joined pieces ----

  function Clamp(x: real, lo: real, hi: real): real
    requires lo <= hi
  {
    if x < lo then lo else if x > hi then hi else x
  }

  /** A parabola that starts with slope s and is flat after the width w. */
  function Bend(u: real, s: real, w: real): real
    requires w != 0.0
  {
    s * u - s * (u * u) / (2.0 * w)
  }

  /** Straight with slope s up to t, bent over the width w, flat from there on. */
  function Joined(a: real, s: real, t: real, w: real): real
    requires 0.0 < w && 0.0 <= t
  {
    s * Clamp(a, 0.0, t) + Bend(Clamp(a - t, 0.0, w), s, w)
  }

  /** Over the bend the curve rises at least as slowly as its starting slope and never falls. */
  lemma BendRises(u: real, v: real, s: real, w: real)
    requires 0.0 <= u <= v <= w && 0.0 < w && 0.0 <= s
    ensures 0.0 <= Bend(v, s, w) - Bend(u, s, w) <= s * (v - u)
  {
    var f, d := (u + v) / (2.0 * w), v - u;
    assert f * (2.0 * w) == u + v;
    FractionInRange(u + v, 2.0 * w);
    var x, y := s * (u * u) / (2.0 * w), s * (v * v) / (2.0 * w);
    BendDifference(u, v, s, w, f);
    ProductNonNegative(s, d);
    ProductNonNegative(s * d, f);
    ProductMonotone(s * d, f, 1.0);
    assert y - x == (s * d) * f;
    assert s * v - s * u == s * d;
  }

  lemma FractionInRange(p: real, d: real)
    requires 0.0 <= p <= d && 0.0 < d
    ensures 0.0 <= p / d <= 1.0
  {
    QuotientAtMost(p, d, 1.0);
    QuotientAtLeast(p, d, 0.0);
  }

  lemma BendDifference(u: real, v: real, s: real, w: real, f: real)
    requires w != 0.0 && f * (2.0 * w) == u + v
    ensures s * (v * v) / (2.0 * w) - s * (u * u) / (2.0 * w) == (s * (v - u)) * f
  {
    var x, y := s * (u * u) / (2.0 * w), s * (v * v) / (2.0 * w);
    var k := 2.0 * w;
    assert x * k == s * (u * u) && y * k == s * (v * v);
    assert ((s * (v - u)) * f) * k == (s * (v - u)) * (u + v);
    assert (s * (v - u)) * (u + v) == s * (v * v) - s * (u * u);
    CancelFactor(y - x, (s * (v - u)) * f, k);
  }

  lemma CancelFactor(x: real, y: real, k: real)
    requires k != 0.0 && x * k == y * k
    ensures x == y
  {
    assert (x - y) * k == 0.0;
  }

  lemma RiseOfSum(s: real, c: real, u: real, d: real, bend: real)
    requires 0.0 <= s && 0.0 <= c && 0.0 <= u && c + u <= d && 0.0 <= bend <= s * u
    ensures 0.0 <= s * c + bend <= s * d
  {
    ProductNonNegative(s, c);
    ProductMonotone(s, c + u, d);
    Distribute(s, c, u);
  }

  lemma ClampsRise(a: real, b: real, t: real, w: real)
    requires 0.0 <= a <= b && 0.0 < w && 0.0 <= t
    ensures 0.0 <= Clamp(a, 0.0, t) <= Clamp(b, 0.0, t)
    ensures 0.0 <= Clamp(a - t, 0.0, w) <= Clamp(b - t, 0.0, w) <= w
    ensures (Clamp(b, 0.0, t) - Clamp(a, 0.0, t)) + (Clamp(b - t, 0.0, w) - Clamp(a - t, 0.0, w)) <= b - a
  {
  }

  /** The whole curve rises between any two points by at most s times their distance. */
  lemma JoinedRises(a: real, b: real, s: real, t: real, w: real)
    requires 0.0 <= a <= b && 0.0 < w && 0.0 <= t && 0.0 <= s
    ensures 0.0 <= Joined(b, s, t, w) - Joined(a, s, t, w) <= s * (b - a)
  {
    hide Bend, Clamp;
    ClampsRise(a, b, t, w);
    var ca, cb := Clamp(a, 0.0, t), Clamp(b, 0.0, t);
    var ua, ub := Clamp(a - t, 0.0, w), Clamp(b - t, 0.0, w);
    BendRises(ua, ub, s, w);
    RiseOfSum(s, cb - ca, ub - ua, b - a, Bend(ub, s, w) - Bend(ua, s, w));
    Distribute(s, cb - ca, ca);
  }

  /** Joined extended to negative inputs by point symmetry. */
  function Odd(x: real, s: real, t: real, w: real): real
    requires 0.0 < w && 0.0 <= t
  {
    if x < 0.0 then -Joined(-x, s, t, w) else Joined(x, s, t, w)
  }

  lemma JoinedAtZero(s: real, t: real, w: real)
    requires 0.0 < w && 0.0 <= t
    ensures Joined(0.0, s, t, w) == 0.0
  {
  }

  lemma OddRises(x: real, y: real, s: real, t: real, w: real)
    requires x <= y && 0.0 < w && 0.0 <= t && 0.0 <= s
    ensures 0.0 <= Odd(y, s, t, w) - Odd(x, s, t, w) <= s * (y - x)
  {
    hide Joined;
    if 0.0 <= x {
      JoinedRises(x, y, s, t, w);
    } else if y < 0.0 {
      JoinedRises(-y, -x, s, t, w);
      assert -x - -y == y - x;
    } else {
      OddRisesThroughZero(-x, y, s, t, w);
      assert -x + y == y - x;
    }
  }

  lemma OddRisesThroughZero(x: real, y: real, s: real, t: real, w: real)
    requires 0.0 <= x && 0.0 <= y && 0.0 < w && 0.0 <= t && 0.0 <= s
    ensures 0.0 <= Joined(y, s, t, w) + Joined(x, s, t, w) <= s * (x + y)
  {
    JoinedAtZero(s, t, w);
    hide Joined;
    JoinedRises(0.0, y, s, t, w);
    JoinedRises(0.0, x, s, t, w);
    Distribute(s, x, y);
    assert y - 0.0 == y && x - 0.0 == x;
  }

  /** Far out the curve sits on its rail. */
  lemma OddBounded(x: real, s: real, t: real, w: real)
    requires 0.0 < w && 0.0 <= t && 0.0 <= s
    ensures Abs(Odd(x, s, t, w)) <= s * t + s * w / 2.0
  {
    JoinedAtZero(s, t, w);
    var a, far := Abs(x), Abs(x) + t + w;
    JoinedRises(0.0, a, s, t, w);
    JoinedRises(a, far, s, t, w);
    RailValue(s, w);
  }

  lemma RailValue(s: real, w: real)
    requires w != 0.0
    ensures Bend(w, s, w) == s * w / 2.0
  {
    var q := s * (w * w) / (2.0 * w);
    assert q * (2.0 * w) == (s * w / 2.0) * (2.0 * w);
    CancelFactor(q, s * w / 2.0, 2.0 * w);
  }

  /** The bend leaves its straight part and reaches its rail tangentially: the distance to either
      line is quadratic in the distance to the join. */
  lemma BendIsTangent(u: real, v: real, s: real, w: real)
    requires w != 0.0
    ensures s * u - Bend(u, s, w) == s * (u * u) / (2.0 * w)
    ensures s * w / 2.0 - Bend(w - v, s, w) == s * (v * v) / (2.0 * w)
  {
    var k := 2.0 * w;
    var p, q := s * ((w - v) * (w - v)) / k, s * (v * v) / k;
    assert p * k == s * ((w - v) * (w - v)) && q * k == s * (v * v);
    assert (s * w / 2.0 - (s * (w - v) - p)) * k == q * k by {
      assert (s * w / 2.0) * k == s * (w * w);
      assert (s * (w - v)) * k == 2.0 * (s * (w * w)) - 2.0 * (s * (w * v));
      assert s * ((w - v) * (w - v)) == s * (w * w) - 2.0 * (s * (w * v)) + s * (v * v);
    }
    CancelFactor(s * w / 2.0 - (s * (w - v) - p), q, k);
  }

  // ---- the hard clipper ----

  /** The three branches of the hard clipper are one such curve, so they meet in value and slope. */
  lemma HardIsJoined(x: real, shape: real)
    requires 0.0 <= shape <= 1.0
    ensures HardShape(x, shape) == Odd(x, 1.0, 1.0 - HardKnee(shape), 2.0 * HardKnee(shape))
  {
    var k := HardKnee(shape);
    var a := Abs(x);
    RailValue(1.0, 2.0 * k);
    if 1.0 - k < a < 1.0 + k {
      var u := a - (1.0 - k);
      assert 1.0 * (u * u) == u * u;
    } else if a <= 1.0 - k {
      assert Bend(0.0, 1.0, 2.0 * k) == 0.0;
    }
  }

  lemma HardKneeInRange(shape: real)
    requires 0.0 <= shape <= 1.0
    ensures 0.0 < HardKnee(shape) < 1.0
  {
  }

  lemma HardBounded(x: real, shape: real)
    requires 0.0 <= shape <= 1.0
    ensures Abs(HardShape(x, shape)) <= 1.0
  {
    hide HardShape, Odd, HardKnee;
    HardKneeInRange(shape);
    HardIsJoined(x, shape);
    OddBounded(x, 1.0, 1.0 - HardKnee(shape), 2.0 * HardKnee(shape));
  }

  /** Monotone, and never steeper than the straight part. */
  lemma HardRises(x: real, y: real, shape: real)
    requires 0.0 <= shape <= 1.0 && x <= y
    ensures 0.0 <= HardShape(y, shape) - HardShape(x, shape) <= y - x
  {
    hide HardShape, Odd, HardKnee;
    HardKneeInRange(shape);
    HardIsJoined(x, shape);
    HardIsJoined(y, shape);
    OddRises(x, y, 1.0, 1.0 - HardKnee(shape), 2.0 * HardKnee(shape));
  }

  // ---- the overdrive ----

  lemma OverdriveIsJoined(x: real, shape: real)
    ensures OverdriveShape(x, shape) == Odd(Gained(x, OverdriveGain(shape)), 2.0, 1.0 / 3.0, 1.0 / 3.0)
  {
    hide OverdriveGain, Gained;
    var v := Gained(x, OverdriveGain(shape));
    var a := Abs(v);
    var third := 1.0 / 3.0;
    if third <= a < 2.0 / 3.0 {
      var w, u := a - third, 2.0 - 3.0 * a;
      assert u == 1.0 - 3.0 * w;
      assert u * u == 1.0 - 6.0 * w + 9.0 * (w * w);
    }
  }

  lemma OverdriveBounded(x: real, shape: real)
    ensures Abs(OverdriveShape(x, shape)) <= 1.0
  {
    hide OverdriveShape, Odd, OverdriveGain, Gained;
    OverdriveIsJoined(x, shape);
    OddBounded(Gained(x, OverdriveGain(shape)), 2.0, 1.0 / 3.0, 1.0 / 3.0);
  }

  lemma GainsNonNegative(shape: real)
    requires 0.0 <= shape
    ensures 0.0 <= OverdriveGain(shape) && 0.0 <= Folds(shape) && 0.0 <= SoftGain(shape)
  {
  }

  lemma OverdriveRises(x: real, y: real, shape: real)
    requires 0.0 <= shape && x <= y
    ensures 0.0 <= OverdriveShape(y, shape) - OverdriveShape(x, shape) <= 2.0 * Gained(y - x, OverdriveGain(shape))
  {
    hide OverdriveShape, Odd, OverdriveGain, Gained;
    var g := OverdriveGain(shape);
    GainsNonNegative(shape);
    GainedDifference(g, x, y);
    OverdriveIsJoined(x, shape);
    OverdriveIsJoined(y, shape);
    OddRises(Gained(x, g), Gained(y, g), 2.0, 1.0 / 3.0, 1.0 / 3.0);
  }

  // ---- the tube ----

  lemma SaturateRises(c: real, x: real, y: real)
    requires 0.0 < c && 0.0 <= x <= y
    ensures 0.0 <= Saturate(c, y) - Saturate(c, x) <= y - x
  {
    ProductNonNegative(c, x);
    ProductNonNegative(c, y);
    var d, e := 1.0 + c * x, 1.0 + c * y;
    var m, n := x / d, y / e;
    assert m * d == x && n * e == y;
    ProductNonNegative(d - 1.0, e - 1.0);
    var k := d * e;
    assert 1.0 <= k by {
      assert (d - 1.0) * (e - 1.0) == k - d - e + 1.0;
    }
    assert (n - m) * k == y - x by {
      assert n * k == (n * e) * d && m * k == (m * d) * e;
      assert y * d - x * e == y - x;
    }
    FactorNonNegative(n - m, k);
    ProductMonotone(n - m, 1.0, k);
  }

  lemma SaturateZero(c: real)
    requires 0.0 < c
    ensures Saturate(c, 0.0) == 0.0
  {
  }

  /** Monotone through zero, and never steeper than one. */
  lemma TubeRises(x: real, y: real, shape: real)
    requires 0.0 <= shape <= 1.0 && x <= y
    ensures 0.0 <= TubeShape(y, shape) - TubeShape(x, shape) <= y - x
  {
    hide TubeShape, Saturate, PositiveLean, NegativeLean;
    TubeIsSaturate(x, shape);
    TubeIsSaturate(y, shape);
    var p, q := PositiveLean(shape), NegativeLean(shape);
    if 0.0 <= x {
      SaturateRises(p, x, y);
    } else if y < 0.0 {
      SaturateRises(q, -y, -x);
    } else {
      SaturateZero(p);
      SaturateZero(q);
      SaturateRises(p, 0.0, y);
      SaturateRises(q, 0.0, -x);
    }
  }

  // ---- the wavefolder ----

  /** The reflection as its comment describes it: turn round at the rails until inside them. */
  function Reflected(y: real): (r: real)
    decreases Abs(y).Floor
  {
    if y > 1.0 then Reflected(2.0 - y) else if y < -1.0 then Reflected(-2.0 - y) else y
  }

  /** The triangle over one period. */
  function Triangle(r: real): real {
    if r > 1.0 then 2.0 - r else if r < -1.0 then -2.0 - r else r
  }

  lemma FloorUnique(x: real, q: int)
    requires q as real <= x < q as real + 1.0
    ensures x.Floor == q
  {
  }

  /** The reduction sees only the remainder. */
  lemma ReducedAt(y: real, q: int, r: real)
    requires y == 4.0 * q as real + r && -2.0 <= r < 2.0
    ensures Reduced(y) == Triangle(r)
  {
    FloorUnique((y + 2.0) * 0.25, q);
  }

  lemma Remainder(y: real) returns (q: int, r: real)
    ensures y == 4.0 * q as real + r && -2.0 <= r < 2.0 && Reduced(y) == Triangle(r)
  {
    q := ((y + 2.0) * 0.25).Floor;
    r := y - 4.0 * q as real;
    ReducedAt(y, q, r);
  }

  lemma ReflectionInvariant(y: real)
    ensures Reduced(2.0 - y) == Reduced(y) && Reduced(-2.0 - y) == Reduced(y)
  {
    var q, r := Remainder(y);
    hide Reduced;
    if r > 0.0 {
      ReducedAt(2.0 - y, -q, 2.0 - r);
      ReducedAt(-2.0 - y, -q - 1, 2.0 - r);
    } else {
      ReducedAt(2.0 - y, -q + 1, -2.0 - r);
      ReducedAt(-2.0 - y, -q, -2.0 - r);
    }
  }

  /** The closed form is the iterated reflection, for every input however far out. */
  lemma {:induction false} ReducedIsReflected(y: real)
    ensures Reduced(y) == Reflected(y)
    decreases Abs(y).Floor
  {
    ReflectionInvariant(y);
    if y > 1.0 {
      hide Reduced;
      ReducedIsReflected(2.0 - y);
    } else if y < -1.0 {
      hide Reduced;
      ReducedIsReflected(-2.0 - y);
    } else {
      ReducedAt(y, 0, y);
    }
  }

  lemma FoldBounded(x: real, shape: real)
    ensures -1.0 <= FoldShape(x, shape) <= 1.0
  {
    hide Folds;
    var q, r := Remainder(Gained(x, Folds(shape)));
  }

  /** The wavefolder treats both polarities alike. */
  lemma FoldOdd(x: real, shape: real)
    ensures FoldShape(-x, shape) == -FoldShape(x, shape)
  {
    var y := Gained(x, Folds(shape));
    assert Gained(-x, Folds(shape)) == -y;
    hide Folds, Gained;
    var q, r := Remainder(y);
    if r == -2.0 {
      ReducedAt(-y, -q + 1, -2.0);
    } else {
      ReducedAt(-y, -q, -r);
    }
  }

  /** Two more quarters of the wave, enough for any two points less than 2 apart. */
  lemma ReducedNear(y: real, q: int, r: real)
    requires y == 4.0 * q as real + r && -2.0 <= r < 4.0
    ensures Reduced(y) == if r < -1.0 then -2.0 - r else if r <= 1.0 then r else if r <= 3.0 then 2.0 - r else r - 4.0
  {
    if r < 2.0 {
      ReducedAt(y, q, r);
    } else {
      ReducedAt(y, q + 1, r - 4.0);
    }
  }

  lemma ReducedContracts(x: real, y: real)
    requires x <= y
    ensures Abs(Reduced(y) - Reduced(x)) <= y - x
  {
    var q, r := Remainder(x);
    var q', r' := Remainder(y);
    hide Reduced;
    if y - x < 2.0 {
      ReducedNear(x, q, r);
      ReducedNear(y, q, r + (y - x));
    }
  }

  /** Folding never stretches a difference by more than the number of folds. */
  lemma FoldLipschitz(x: real, y: real, shape: real)
    requires 0.0 <= shape && x <= y
    ensures Abs(FoldShape(y, shape) - FoldShape(x, shape)) <= Gained(y - x, Folds(shape))
  {
    hide Reduced, Folds, Gained;
    var f := Folds(shape);
    GainsNonNegative(shape);
    GainedDifference(f, x, y);
    ReducedContracts(Gained(x, f), Gained(y, f));
  }
}
