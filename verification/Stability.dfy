/**
 The oversampling filters of `vst/src/engine/digitalFilters.c` over all bounded streams: sections whose poles
 lie inside the unit circle make no stream larger than a fixed multiple of its bound. The argument needs no
 poles: an energy of a section's last two outputs is lost at a fixed rate over any two samples.
 */
module Stability {
  import opened Reals
  import opened Biquads
  import opened Oversampler

  /** The stability triangle: both roots of z^2 - a1 z - a2 are smaller than one in magnitude. */
  predicate Damped(l: Lowpass) {
    -1.0 < l.a2 && l.a1 < 1.0 - l.a2 && -l.a1 < 1.0 - l.a2
  }

  predicate AllDamped(os: seq<Lowpass>) {
    forall k :: 0 <= k < |os| ==> Damped(os[k])
  }

  // ---- the energy of a section's last two outputs ----

  function Square(x: real): (r: real)
    ensures 0.0 <= r
  {
    x * x
  }

  /** The two weights, positive inside the triangle. */
  function SumWeight(l: Lowpass): real { 1.0 - l.a2 - l.a1 }

  function DifferenceWeight(l: Lowpass): real { 1.0 - l.a2 + l.a1 }

  function Energy(l: Lowpass, y1: real, y2: real): real {
    Gained(Square(y1 + y2), SumWeight(l)) + Gained(Square(y1 - y2), DifferenceWeight(l))
  }

  /** The next output when nothing comes in. */
  function Coast(l: Lowpass, y1: real, y2: real): real { l.a1 * y1 + l.a2 * y2 }

  lemma EnergyExpanded(l: Lowpass, u: real, v: real)
    ensures Energy(l, u, v) == 2.0 * Gained(Square(u) + Square(v), 1.0 - l.a2) - 4.0 * Gained(l.a1 * u, v)
    ensures Energy(l, u, v) == 2.0 * Gained(Square(u) + Square(v), 1.0 - l.a2) - 4.0 * Gained(l.a1 * v, u)
  {
    var s, p := u * u + v * v, u * v;
    assert Square(u + v) == s + 2.0 * p && Square(u - v) == s - 2.0 * p;
    assert (l.a1 * u) * v == l.a1 * p && (l.a1 * v) * u == l.a1 * p;
    hide Square;
  }

  lemma CoastProducts(y0: real, y2: real, b: real)
    ensures Gained(y0 - b * y2, y0) == Square(y0) - Gained(Gained(y0, y2), b)
    ensures Gained(y0 - b * y2, y2) == Gained(y0, y2) - Gained(Square(y2), b)
    ensures Square(y0 - y2) == Square(y0) + Square(y2) - 2.0 * Gained(y0, y2)
  {
    var d := y0 * y2;
    assert (b * y2) * y0 == d * b;
  }

  lemma CoastArithmetic(y0: real, y1: real, y2: real, b: real)
    ensures 2.0 * Gained(Square(y0) + Square(y1), 1.0 - b) - 4.0 * Gained(y0 - b * y2, y0)
         == 2.0 * Gained(Square(y1) + Square(y2), 1.0 - b) - 4.0 * Gained(y0 - b * y2, y2)
              - 2.0 * Gained(Square(y0 - y2), 1.0 + b)
  {
    CoastProducts(y0, y2, b);
    CoastSums(Square(y0), Square(y1), Square(y2), Gained(y0, y2), b);
    hide Gained, Square;
  }

  lemma CoastSums(p: real, q: real, r: real, d: real, b: real)
    ensures 2.0 * Gained(p + q, 1.0 - b) - 4.0 * (p - Gained(d, b))
         == 2.0 * Gained(q + r, 1.0 - b) - 4.0 * (d - Gained(r, b)) - 2.0 * Gained(p + r - 2.0 * d, 1.0 + b)
  {
  }

  lemma CoastParts(l: Lowpass, y1: real, y2: real)
    ensures l.a1 * y1 == Coast(l, y1, y2) - l.a2 * y2
  {
  }

  /** One sample without input loses this much. */
  lemma CoastLoses(l: Lowpass, y1: real, y2: real)
    ensures var y0 := Coast(l, y1, y2);
            Energy(l, y0, y1) == Energy(l, y1, y2) - 2.0 * Gained(Square(y0 - y2), 1.0 + l.a2)
  {
    hide Energy, Square, Gained, Coast;
    var y0 := Coast(l, y1, y2);
    CoastParts(l, y1, y2);
    EnergyExpanded(l, y0, y1);
    EnergyExpanded(l, y1, y2);
    CoastArithmetic(y0, y1, y2, l.a2);
  }

  // ---- two samples without input lose a fixed share ----

  /** The smaller of the two weights. */
  function Margin(l: Lowpass): real {
    if SumWeight(l) <= DifferenceWeight(l) then SumWeight(l) else DifferenceWeight(l)
  }

  /** The share of the energy that is sure to be lost over two samples. */
  function Share(l: Lowpass): real { Gained(Margin(l), 1.0 + l.a2) / 9.0 }

  lemma ShareInRange(l: Lowpass)
    requires Damped(l)
    ensures 0.0 < Margin(l) && 0.0 < Share(l) < 0.5
  {
    hide Gained;
    var m := Margin(l);
    assert 0.0 < m <= 1.0 - l.a2;
    ShareBelow(m, l.a2);
  }

  lemma ShareBelow(m: real, b: real)
    requires 0.0 < m <= 1.0 - b && -1.0 < b
    ensures 0.0 < Gained(m, 1.0 + b) <= 1.0
  {
    var c := 1.0 + b;
    ProductNonNegative(m, c);
    ProductNonNegative(2.0 - c - m, c);
    assert (2.0 - c - m) * c == 2.0 * c - c * c - m * c;
    BelowOne(c);
  }

  lemma BelowOne(c: real)
    ensures 2.0 * c - c * c <= 1.0
  {
    ProductNonNegative(Abs(1.0 - c), Abs(1.0 - c));
    AbsProduct(1.0 - c, 1.0 - c);
  }

  function SumPart(l: Lowpass, y1: real, y2: real): real { SumWeight(l) * (y1 + y2) }

  function DifferencePart(l: Lowpass, y1: real, y2: real): real { DifferenceWeight(l) * (y1 - y2) }

  /** How the energy compares to the two differences a pair of samples makes. */
  lemma EnergyBelow(l: Lowpass, y1: real, y2: real)
    requires Damped(l)
    ensures Gained(Energy(l, y1, y2), Margin(l)) <= Square(SumPart(l, y1, y2)) + Square(DifferencePart(l, y1, y2))
  {
    WeightsPositive(l);
    hide Gained, Square, SumWeight, DifferenceWeight, Margin, Damped;
    var p, q := Gained(Square(y1 + y2), SumWeight(l)), Gained(Square(y1 - y2), DifferenceWeight(l));
    WeightedSquare(SumWeight(l), Margin(l), y1 + y2);
    WeightedSquare(DifferenceWeight(l), Margin(l), y1 - y2);
    SumGained(p, q, Margin(l));
  }

  lemma WeightsPositive(l: Lowpass)
    requires Damped(l)
    ensures 0.0 < Margin(l) <= SumWeight(l) && Margin(l) <= DifferenceWeight(l)
    ensures SumWeight(l) + DifferenceWeight(l) < 4.0
  {
  }

  lemma WeightedSquare(a: real, m: real, x: real)
    requires 0.0 < a && m <= a
    ensures Gained(Gained(Square(x), a), m) <= Square(a * x)
  {
    var r := Square(x) * a;
    ProductNonNegative(Square(x), a);
    ProductNonNegative(r, a - m);
    assert r * (a - m) == r * a - r * m;
    assert Square(a * x) == r * a;
  }

  /** The two differences are made of what two samples without input change. */
  lemma DifferencesOfTwoSamples(l: Lowpass, y1: real, y2: real)
    ensures var y0 := Coast(l, y1, y2);
            var f, h := y0 - y2, Coast(l, y0, y1) - y1;
            && SumPart(l, y1, y2) == Gained(f, l.a1) - h - f
            && DifferencePart(l, y1, y2) == Gained(f, l.a1) - h + f
  {
    var y0 := Coast(l, y1, y2);
    assert l.a1 * (y0 - y2) == l.a1 * y0 - l.a1 * y2;
    assert SumWeight(l) * (y1 + y2) == y1 + y2 - l.a2 * y1 - l.a2 * y2 - l.a1 * y1 - l.a1 * y2;
    assert DifferenceWeight(l) * (y1 - y2) == y1 - y2 - l.a2 * y1 + l.a2 * y2 + l.a1 * y1 - l.a1 * y2;
  }

  lemma DifferencesBelow(a: real, f: real, h: real)
    requires -2.0 < a < 2.0
    ensures Square(Gained(f, a) - h - f) + Square(Gained(f, a) - h + f) <= 18.0 * (Square(f) + Square(h))
  {
    var x := Gained(f, a);
    SquaresOfDifferences(x, h, f);
    ScaledSquare(a, f);
    hide Square;
  }

  lemma ScaledSquare(a: real, f: real)
    requires -2.0 < a < 2.0
    ensures Square(Gained(f, a)) <= 4.0 * Square(f)
  {
    SquareMonotone(a, 2.0);
    var b, c := a * a, f * f;
    assert (f * a) * (f * a) == b * c;
    ProductNonNegative(4.0 - b, c);
    assert (4.0 - b) * c == 4.0 * c - b * c;
  }

  lemma SquaresOfDifferences(x: real, h: real, f: real)
    ensures Square(x - h - f) + Square(x - h + f) <= 4.0 * Square(x) + 4.0 * Square(h) + 2.0 * Square(f)
  {
    assert Square(x - h - f) + Square(x - h + f) == 2.0 * Square(x - h) + 2.0 * Square(f);
    assert Square(x - h) + Square(x + h) == 2.0 * Square(x) + 2.0 * Square(h);
  }

  lemma SquareMonotone(x: real, m: real)
    requires Abs(x) <= m
    ensures Square(x) <= Square(m)
  {
    SquareGrows(Abs(x), m);
    assert Square(x) == Square(Abs(x));
  }

  lemma SquareGrows(b: real, m: real)
    requires 0.0 <= b <= m
    ensures Square(b) <= Square(m)
  {
    ProductNonNegative(m - b, m + b);
    assert (m - b) * (m + b) == m * m - b * b;
  }

  /** Over any two samples without input the energy shrinks by a fixed factor below one. */
  lemma TwoCoastsLose(l: Lowpass, y1: real, y2: real)
    requires Damped(l)
    ensures var y0 := Coast(l, y1, y2);
            Energy(l, Coast(l, y0, y1), y0) <= Gained(Energy(l, y1, y2), 1.0 - Share(l))
  {
    var y0 := Coast(l, y1, y2);
    var f, h := y0 - y2, Coast(l, y0, y1) - y1;
    var e, c := Energy(l, y1, y2), 1.0 + l.a2;
    assert 0.0 < c && -2.0 < l.a1 < 2.0;
    hide Coast, Energy, Square, Gained, Damped, Margin, SumPart, DifferencePart;
    CoastLoses(l, y1, y2);
    CoastLoses(l, y0, y1);
    EnergyBelow(l, y1, y2);
    DifferencesOfTwoSamples(l, y1, y2);
    DifferencesBelow(l.a1, f, h);
    LossArithmetic(e, Margin(l), c, Square(f), Square(h));
  }

  lemma LossArithmetic(e: real, m: real, c: real, f: real, h: real)
    requires 0.0 < c && Gained(e, m) <= 18.0 * (f + h)
    ensures e - 2.0 * Gained(f, c) - 2.0 * Gained(h, c) <= Gained(e, 1.0 - Gained(m, c) / 9.0)
  {
    ProductNonNegative(18.0 * (f + h) - e * m, c);
    assert (18.0 * (f + h) - e * m) * c == 18.0 * (f * c) + 18.0 * (h * c) - e * (m * c);
    assert e * (1.0 - (m * c) / 9.0) == e - (e * (m * c)) / 9.0;
  }

  // ---- two samples with input ----

  lemma SquareOfSum(x: real, y: real, e: real, t: real)
    requires 0.0 < e && 0.0 < t && e * t == 1.0
    ensures Square(x + y) <= Gained(Square(x), 1.0 + e) + Gained(Square(y), 1.0 + t)
  {
    var a, b, p := x * x, y * y, x * y;
    ProductNonNegative(t, Square(e * x - y));
    assert (e * x - y) * (e * x - y) == e * (e * a) - 2.0 * (e * p) + b;
    assert t * (e * (e * a) - 2.0 * (e * p) + b) == (e * t) * (e * a) - 2.0 * ((e * t) * p) + t * b;
  }

  lemma EnergyOfSum(l: Lowpass, u1: real, u2: real, w1: real, w2: real, e: real, t: real)
    requires Damped(l) && 0.0 < e && 0.0 < t && e * t == 1.0
    ensures Energy(l, u1 + w1, u2 + w2) <= Gained(Energy(l, u1, u2), 1.0 + e) + Gained(Energy(l, w1, w2), 1.0 + t)
  {
    WeightsPositive(l);
    hide Square, Gained, SumWeight, DifferenceWeight, Margin, Damped;
    var a, b := SumWeight(l), DifferenceWeight(l);
    SquareOfSum(u1 + u2, w1 + w2, e, t);
    SquareOfSum(u1 - u2, w1 - w2, e, t);
    assert (u1 + w1) + (u2 + w2) == (u1 + u2) + (w1 + w2) && (u1 + w1) - (u2 + w2) == (u1 - u2) + (w1 - w2);
    var p, q := Square((u1 + w1) + (u2 + w2)), Square((u1 + w1) - (u2 + w2));
    Weigh(p, Square(u1 + u2), Square(w1 + w2), e, t, a);
    Weigh(q, Square(u1 - u2), Square(w1 - w2), e, t, b);
    SumGained(Gained(Square(u1 + u2), a), Gained(Square(u1 - u2), b), 1.0 + e);
    SumGained(Gained(Square(w1 + w2), a), Gained(Square(w1 - w2), b), 1.0 + t);
  }

  lemma Weigh(p: real, u: real, w: real, e: real, t: real, a: real)
    requires 0.0 < a && p <= Gained(u, 1.0 + e) + Gained(w, 1.0 + t)
    ensures Gained(p, a) <= Gained(Gained(u, a), 1.0 + e) + Gained(Gained(w, a), 1.0 + t)
  {
    var x, y := u * (1.0 + e), w * (1.0 + t);
    ProductNonNegative(x + y - p, a);
    assert (x + y - p) * a == x * a + y * a - p * a;
    assert (u * a) * (1.0 + e) == x * a && (w * a) * (1.0 + t) == y * a;
  }

  /** What the inputs of two samples add, at most. */
  lemma EnergyOfInputs(l: Lowpass, v1: real, v2: real, v: real)
    requires Damped(l) && Abs(v1) <= v && Abs(v2) <= v
    ensures Energy(l, l.a1 * v1 + v2, v1) <= 64.0 * Square(v) && Energy(l, v1, 0.0) <= 64.0 * Square(v)
  {
    WeightsPositive(l);
    GainedBounded(v1, l.a1, v, 2.0);
    assert Gained(v1, l.a1) == l.a1 * v1 && Gained(v, 2.0) == 2.0 * v;
    var w := l.a1 * v1 + v2;
    assert Abs(w) <= 3.0 * v;
    hide Gained, Damped, SumWeight, DifferenceWeight, Margin, Square;
    assert Abs(w + v1) <= 4.0 * v && Abs(w - v1) <= 4.0 * v;
    WithinEnergy(l, w, v1, v);
    WithinEnergy(l, v1, 0.0, v);
  }

  lemma WithinEnergy(l: Lowpass, x: real, y: real, v: real)
    requires Damped(l) && Abs(x + y) <= 4.0 * v && Abs(x - y) <= 4.0 * v
    ensures Energy(l, x, y) <= 64.0 * Square(v)
  {
    WeightsPositive(l);
    hide Damped, SumWeight, DifferenceWeight, Margin;
    SquareMonotone(x + y, 4.0 * v);
    SquareMonotone(x - y, 4.0 * v);
    var s := 16.0 * Square(v);
    assert Square(4.0 * v) == s;
    hide Square;
    WeighBelow(Square(x + y), s, SumWeight(l));
    WeighBelow(Square(x - y), s, DifferenceWeight(l));
    WeighBelow2(s, SumWeight(l) + DifferenceWeight(l));
    GainedSum(s, SumWeight(l), DifferenceWeight(l));
    hide Gained;
  }

  lemma WeighBelow(p: real, s: real, a: real)
    requires 0.0 < a && p <= s
    ensures Gained(p, a) <= Gained(s, a)
  {
    ProductNonNegative(s - p, a);
    assert (s - p) * a == s * a - p * a;
  }

  lemma WeighBelow2(s: real, a: real)
    requires a < 4.0 && 0.0 <= s
    ensures Gained(s, a) <= 4.0 * s
  {
    ProductNonNegative(s, 4.0 - a);
    assert s * (4.0 - a) == 4.0 * s - s * a;
  }

  /** The multiple of the squared input bound that the energy never exceeds. */
  function Reach(l: Lowpass): (k: real)
    requires Damped(l)
    ensures 64.0 <= k
  {
    ShareInRange(l);
    ReachAtLeast(2.0 / Share(l), Share(l));
    64.0 * Gained(2.0 / Share(l), 1.0 + 2.0 / Share(l))
  }

  lemma ReachAtLeast(t: real, d: real)
    requires 0.0 < d < 0.5 && t == 2.0 / d
    ensures 4.0 <= t && 1.0 <= Gained(t, 1.0 + t)
  {
    QuotientAtLeast(2.0, d, 4.0);
    ProductNonNegative(t, t);
  }

  lemma ReachOfShare(l: Lowpass)
    requires Damped(l) && 0.0 < Share(l)
    ensures Reach(l) == 64.0 * Gained(2.0 / Share(l), 1.0 + 2.0 / Share(l))
    ensures 0.0 < 2.0 / Share(l) && (Share(l) / 2.0) * (2.0 / Share(l)) == 1.0
  {
    hide Gained, Share, Damped;
  }

  lemma InputsCoast(l: Lowpass, y0: real, y1: real, v: real)
    ensures Coast(l, y0 + v, y1) == Coast(l, y0, y1) + l.a1 * v
  {
  }

  /** Two samples with bounded input keep the energy within reach. */
  lemma TwoSamplesKeepReach(l: Lowpass, y1: real, y2: real, v1: real, v2: real, v: real)
    requires Damped(l) && Abs(v1) <= v && Abs(v2) <= v && Energy(l, y1, y2) <= Gained(Reach(l), Square(v))
    ensures var z := Coast(l, y1, y2) + v1;
            Energy(l, Coast(l, z, y1) + v2, z) <= Gained(Reach(l), Square(v))
  {
    hide Coast, Energy, Square, Gained, Damped, Share, Margin, Reach;
    ShareInRange(l);
    var y0, d := Coast(l, y1, y2), Share(l);
    var t, k := 2.0 / d, Reach(l);
    ReachOfShare(l);
    InputsCoast(l, y0, y1, v1);
    TwoCoastsLose(l, y1, y2);
    EnergyOfSum(l, Coast(l, y0, y1), y0, l.a1 * v1 + v2, v1, d / 2.0, t);
    EnergyOfInputs(l, v1, v2, v);
    ReachHolds(Energy(l, y1, y2), Energy(l, Coast(l, y0, y1), y0), Energy(l, l.a1 * v1 + v2, v1), d, t, k, Square(v));
  }

  lemma ReachHolds(e: real, e2: real, w: real, d: real, t: real, k: real, s: real)
    requires 0.0 < d < 0.5 && t == 2.0 / d && k == 64.0 * Gained(t, 1.0 + t) && 0.0 <= s
    requires e <= Gained(k, s) && e2 <= Gained(e, 1.0 - d) && w <= 64.0 * s
    ensures Gained(e2, 1.0 + d / 2.0) + Gained(w, 1.0 + t) <= Gained(k, s)
  {
    var x, c := k * s, 64.0 * s;
    assert t * d == 2.0;
    ReachAtLeast(t, d);
    hide Gained;
    WeighBelow(e, x, 1.0 - d);
    WeighBelow(e2, Gained(x, 1.0 - d), 1.0 + d / 2.0);
    WeighBelow(w, c, 1.0 + t);
    FixedPoint(x, c, d, t, k, s);
  }

  lemma FixedPoint(x: real, c: real, d: real, t: real, k: real, s: real)
    requires 0.0 < d < 0.5 && 4.0 <= t && t * d == 2.0 && k == 64.0 * Gained(t, 1.0 + t)
    requires 0.0 <= s && c == 64.0 * s && x == k * s
    ensures Gained(Gained(x, 1.0 - d), 1.0 + d / 2.0) + Gained(c, 1.0 + t) <= Gained(k, s)
  {
  }

  // ---- streams ----

  /** What a section's numerator makes of the input. */
  ghost function Drive(xs: seq<real>, n: nat): real
    requires n < |xs|
  {
    xs[n] + 2.0 * At(xs, n - 1) + At(xs, n - 2)
  }

  lemma DriveWithin(xs: seq<real>, m: real, n: nat)
    requires n < |xs| && 0.0 <= m && AllWithin(xs, m)
    ensures Abs(Drive(xs, n)) <= 4.0 * m
  {
  }

  lemma OutputIsDriven(l: Lowpass, xs: seq<real>, ys: seq<real>, n: nat)
    requires Solves(Section(l), xs, ys) && n < |xs|
    ensures ys[n] == Coast(l, At(ys, n - 1), At(ys, n - 2)) + Drive(xs, n)
  {
    assert SolvesAt(Section(l), xs, ys, n);
  }

  /** Along any bounded stream the energy stays within reach. */
  lemma {:induction false} EnergyAlongStream(l: Lowpass, xs: seq<real>, ys: seq<real>, m: real, n: nat)
    requires Damped(l) && Solves(Section(l), xs, ys) && 0.0 <= m && AllWithin(xs, m) && n <= |xs|
    ensures Energy(l, At(ys, n - 1), At(ys, n - 2)) <= Gained(Reach(l), Square(4.0 * m))
  {
    hide Energy, Coast, Reach, Damped, Solves, AllWithin, Drive, Square, Gained, Abs;
    SolutionLength(l, xs, ys);
    if n == 0 {
      NothingYet(l, 4.0 * m);
    } else if n == 1 {
      DriveWithin(xs, m, 0);
      OutputIsDriven(l, xs, ys, 0);
      CoastFromRest(l);
      EnergyOfInputs(l, Drive(xs, 0), Drive(xs, 0), 4.0 * m);
      InReach(Reach(l), Square(4.0 * m));
    } else {
      EnergyAlongStream(l, xs, ys, m, n - 2);
      DriveWithin(xs, m, n - 2);
      DriveWithin(xs, m, n - 1);
      OutputIsDriven(l, xs, ys, n - 2);
      OutputIsDriven(l, xs, ys, n - 1);
      TwoSamplesKeepReach(l, At(ys, n - 3), At(ys, n - 4), Drive(xs, n - 2), Drive(xs, n - 1), 4.0 * m);
    }
  }

  lemma SolutionLength(l: Lowpass, xs: seq<real>, ys: seq<real>)
    requires Solves(Section(l), xs, ys)
    ensures |ys| == |xs|
  {
  }

  lemma NothingYet(l: Lowpass, v: real)
    requires Damped(l)
    ensures Energy(l, 0.0, 0.0) <= Gained(Reach(l), Square(v))
  {
    hide Reach;
    assert Energy(l, 0.0, 0.0) == 0.0;
    InReach(Reach(l), Square(v));
    hide Gained, Square;
  }

  lemma CoastFromRest(l: Lowpass)
    ensures Coast(l, 0.0, 0.0) == 0.0
  {
  }

  lemma InReach(k: real, s: real)
    requires 64.0 <= k && 0.0 <= s
    ensures 0.0 <= 64.0 * s <= Gained(k, s)
  {
    ProductNonNegative(k - 64.0, s);
    assert (k - 64.0) * s == k * s - 64.0 * s;
  }

  /** The multiple of its input's bound that a damped section can reach. */
  function SectionGain(l: Lowpass): (k: real)
    requires Damped(l)
    ensures 1.0 <= k
  {
    WeightsPositive(l);
    QuotientAtLeast(Reach(l), 2.0 * Margin(l), 0.0);
    4.0 * (Reach(l) / (2.0 * Margin(l)) + 1.0)
  }

  lemma EnergyBoundsOutput(l: Lowpass, y1: real, y2: real)
    requires Damped(l)
    ensures 2.0 * Gained(Square(y1), Margin(l)) <= Energy(l, y1, y2)
  {
    WeightsPositive(l);
    hide Gained, SumWeight, DifferenceWeight, Margin, Damped;
    var p, q, m := Square(y1 + y2), Square(y1 - y2), Margin(l);
    assert p + q == 2.0 * Square(y1) + 2.0 * Square(y2);
    hide Square;
    HeavierWeight(p, m, SumWeight(l));
    HeavierWeight(q, m, DifferenceWeight(l));
    SumGained(p, q, m);
    WeighBelow(2.0 * Square(y1), p + q, m);
    SumGained(Square(y1), Square(y1), m);
  }

  lemma HeavierWeight(p: real, m: real, a: real)
    requires 0.0 <= p && m <= a
    ensures Gained(p, m) <= Gained(p, a)
  {
    ProductMonotone(p, m, a);
  }

  lemma RootBelow(y: real, w: real, k: real, v: real)
    requires 0.0 < w && 0.0 <= k && 0.0 <= v && 2.0 * Gained(Square(y), w) <= Gained(k, Square(v))
    ensures Abs(y) <= Gained(v, k / (2.0 * w) + 1.0)
  {
    var q := k / (2.0 * w);
    assert q * (2.0 * w) == k;
    QuotientAtLeast(k, 2.0 * w, 0.0);
    SquareWithin(y, w, q, v);
    RootOfSquare(Abs(y), v, q);
  }

  lemma SquareWithin(y: real, w: real, q: real, v: real)
    requires 0.0 < w && 2.0 * Gained(Square(y), w) <= Gained(q * (2.0 * w), Square(v))
    ensures Square(Abs(y)) <= Gained(q, Square(v))
  {
    assert Square(Abs(y)) == Square(y);
    hide Square, Gained;
    CancelWeight(Square(y), Square(v), q, w);
  }

  lemma CancelWeight(a: real, b: real, q: real, w: real)
    requires 0.0 < w && 2.0 * Gained(a, w) <= Gained(q * (2.0 * w), b)
    ensures a <= Gained(q, b)
  {
    var r := q * b;
    assert (q * (2.0 * w)) * b == 2.0 * (r * w);
    assert (r - a) * w == r * w - a * w;
    FactorNonNegative(r - a, w);
  }

  lemma RootOfSquare(y: real, v: real, q: real)
    requires 0.0 <= y && 0.0 <= v && 0.0 <= q && Square(y) <= Gained(q, Square(v))
    ensures y <= Gained(v, q + 1.0)
  {
    var b := Gained(v, q + 1.0);
    SquareOfRoot(v, q);
    hide Gained, Square;
    if b < y {
      SquareGrowsStrictly(b, y - b);
    }
  }

  lemma SquareGrowsStrictly(b: real, d: real)
    requires 0.0 <= b && 0.0 < d
    ensures Square(b) < Square(b + d)
  {
    GainedPositive(d, 2.0 * b + d);
    SquareGrowth(b, d);
    hide Square, Gained;
  }

  lemma SquareGrowth(b: real, d: real)
    ensures Square(b + d) == Square(b) + Gained(d, 2.0 * b + d)
  {
  }

  lemma SquareOfRoot(v: real, q: real)
    requires 0.0 <= v && 0.0 <= q
    ensures 0.0 <= Gained(v, q + 1.0) && Gained(q, Square(v)) <= Square(Gained(v, q + 1.0))
  {
    var c, r := Square(v), Square(q + 1.0);
    ProductNonNegative(v, q + 1.0);
    assert Square(Gained(v, q + 1.0)) == c * r;
    assert r == Square(q) + 2.0 * q + 1.0;
    hide Square;
    ProductNonNegative(c, r - q);
    assert c * (r - q) == c * r - q * c;
  }

  /** A damped section makes no stream larger than its gain allows. */
  lemma SectionWithin(l: Lowpass, xs: seq<real>, ys: seq<real>, m: real)
    requires Damped(l) && Solves(Section(l), xs, ys) && 0.0 <= m && AllWithin(xs, m)
    ensures AllWithin(ys, Gained(m, SectionGain(l)))
  {
    WeightsPositive(l);
    SolutionLength(l, xs, ys);
    hide Energy, Reach, Damped, Solves, Square, Gained, Margin, Abs;
    forall n: nat | n < |ys| ensures Abs(ys[n]) <= Gained(m, SectionGain(l)) {
      EnergyAlongStream(l, xs, ys, m, n + 1);
      EnergyBoundsOutput(l, ys[n], At(ys, n - 1));
      RootBelow(ys[n], Margin(l), Reach(l), 4.0 * m);
      FourTimes(m, Reach(l) / (2.0 * Margin(l)) + 1.0);
    }
  }

  lemma FourTimes(m: real, r: real)
    ensures Gained(4.0 * m, r) == Gained(m, 4.0 * r)
  {
  }

  // ---- the cascade ----

  /** A filter that has heard nothing. */
  ghost function QuietTool(): (ms: seq<Memory>)
    ensures |ms| == STAGE
  {
    seq(STAGE, _ => Direct(0.0, 0.0, 0.0, 0.0))
  }

  /** The filter design makes no stream larger than k times its bound. */
  ghost predicate Stable(os: seq<Lowpass>, gain: real, k: real)
    requires |os| == STAGE
  {
    forall us: seq<real>, m: real :: 0.0 <= m && AllWithin(us, m) ==>
      AllWithin(Scaled(gain, CascadeStream(Sections(os), QuietTool(), us)), Gained(m, k))
  }

  /** The gain of the first k sections together. */
  function CascadeGain(os: seq<Lowpass>, k: nat): (r: real)
    requires k <= |os| && AllDamped(os)
    ensures 1.0 <= r
  {
    if k == 0 then 1.0
    else
      ProductMonotone(CascadeGain(os, k - 1), 1.0, SectionGain(os[k - 1]));
      Gained(CascadeGain(os, k - 1), SectionGain(os[k - 1]))
  }

  lemma {:induction false} TapWithin(os: seq<Lowpass>, us: seq<real>, m: real, k: nat)
    requires |os| == STAGE && AllDamped(os) && k <= STAGE && 0.0 <= m && AllWithin(us, m)
    ensures AllWithin(Tap(Sections(os), QuietTool(), us, k), Gained(m, CascadeGain(os, k)))
  {
    hide Tap, Stream, Silent, Solves, Section, Damped, SectionGain, AllWithin, Gained;
    var cs, ms := Sections(os), QuietTool();
    TapIsSectionOfTap(cs, ms, us, if k == 0 then 0 else k - 1);
    if k == 0 {
      GainOfOne(m);
    } else {
      TapWithin(os, us, m, k - 1);
      var g := CascadeGain(os, k - 1);
      InReachOfGain(m, g);
      QuietIsSilent(k - 1);
      StreamSolves(cs[k - 1], ms[k - 1], Tap(cs, ms, us, k - 1));
      assert cs[k - 1] == Section(os[k - 1]);
      SectionWithin(os[k - 1], Tap(cs, ms, us, k - 1), Tap(cs, ms, us, k), Gained(m, g));
      GainsMultiply(m, g, SectionGain(os[k - 1]));
    }
  }

  lemma GainOfOne(m: real)
    ensures Gained(m, 1.0) == m
  {
  }

  lemma InReachOfGain(m: real, g: real)
    requires 0.0 <= m && 1.0 <= g
    ensures 0.0 <= Gained(m, g)
  {
    ProductNonNegative(m, g);
  }

  lemma QuietIsSilent(k: nat)
    requires k < STAGE
    ensures Silent(QuietTool()[k])
  {
  }

  lemma GainsMultiply(m: real, g: real, h: real)
    ensures Gained(Gained(m, g), h) == Gained(m, Gained(g, h))
  {
  }

  /** The gain of the whole filter over all streams, or one where it has none. */
  function FilterGain(os: seq<Lowpass>, gain: real): (k: real)
    requires |os| == STAGE
    ensures 1.0 <= k
  {
    if AllDamped(os) then
      AtLeastOne(CascadeGain(os, STAGE), Abs(gain));
      Gained(CascadeGain(os, STAGE), Abs(gain) + 1.0)
    else 1.0
  }

  /** Eight damped sections, whatever their coefficients and the gain behind them, have a finite gain. */
  lemma DampedIsStable(os: seq<Lowpass>, gain: real)
    requires |os| == STAGE && AllDamped(os)
    ensures Stable(os, gain, FilterGain(os, gain))
  {
    hide Damped, CascadeStream, AllWithin, Gained, SectionGain, CascadeGain;
    var g := CascadeGain(os, STAGE);
    forall us: seq<real>, m: real | 0.0 <= m && AllWithin(us, m)
      ensures AllWithin(Scaled(gain, CascadeStream(Sections(os), QuietTool(), us)), Gained(m, FilterGain(os, gain)))
    {
      TapWithin(os, us, m, STAGE);
      WholeCascade(os, us);
      InReachOfGain(m, g);
      ScaledWithin(gain, CascadeStream(Sections(os), QuietTool(), us), Gained(m, g));
      GainsMultiply(m, g, Abs(gain) + 1.0);
    }
  }

  lemma WholeCascade(os: seq<Lowpass>, us: seq<real>)
    requires |os| == STAGE
    ensures CascadeStream(Sections(os), QuietTool(), us) == Tap(Sections(os), QuietTool(), us, STAGE)
  {
  }

  lemma AtLeastOne(g: real, x: real)
    requires 1.0 <= g && 0.0 <= x
    ensures 1.0 <= Gained(g, x + 1.0)
  {
    ProductNonNegative(g, x);
  }

  lemma ScaledWithin(gain: real, ys: seq<real>, m: real)
    requires 0.0 <= m && AllWithin(ys, m)
    ensures AllWithin(Scaled(gain, ys), Gained(m, Abs(gain) + 1.0))
  {
    hide Gained;
    forall i | 0 <= i < |ys| ensures Abs(Gained(ys[i], gain)) <= Gained(m, Abs(gain) + 1.0) {
      GainedBounded(ys[i], gain, m, Abs(gain) + 1.0);
    }
  }
}
