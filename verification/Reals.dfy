/** Small facts about real arithmetic shared by the models. */
module Reals {

  function Abs(x: real): (r: real)
    ensures 0.0 <= r
  {
    if x < 0.0 then -x else x
  }

  /** No sample of the stream is larger than m. */
  ghost predicate AllWithin(xs: seq<real>, m: real) {
    forall i :: 0 <= i < |xs| ==> Abs(xs[i]) <= m
  }

  lemma ProductNonNegative(x: real, y: real)
    requires 0.0 <= x && 0.0 <= y
    ensures 0.0 <= x * y
    ensures 0.0 < x && 0.0 < y ==> 0.0 < x * y
  {
  }

  lemma AbsProduct(x: real, y: real)
    ensures Abs(x * y) == Abs(x) * Abs(y)
  {
    ProductNonNegative(Abs(x), Abs(y));
    assert x * y == Abs(x) * Abs(y) || x * y == -(Abs(x) * Abs(y)) by {
      assert (-x) * y == -(x * y) && x * (-y) == -(x * y) && (-x) * (-y) == x * y;
    }
  }

  lemma ProductMonotone(k: real, x: real, y: real)
    requires 0.0 <= k && x <= y
    ensures k * x <= k * y
  {
    ProductNonNegative(k, y - x);
    assert k * (y - x) == k * y - k * x;
  }

  lemma FactorNonNegative(k: real, d: real)
    requires 0.0 < d
    ensures 0.0 <= k * d ==> 0.0 <= k
    ensures 0.0 < k * d ==> 0.0 < k
  {
    if k < 0.0 {
      ProductNonNegative(-k, d);
      assert k * d == -(-k * d);
    }
  }

  lemma QuotientAtMost(x: real, d: real, hi: real)
    requires 0.0 < d
    ensures x <= hi * d ==> x / d <= hi
    ensures x < hi * d ==> x / d < hi
  {
    var n := x / d;
    assert n * d == x;
    assert (hi - n) * d == hi * d - x;
    FactorNonNegative(hi - n, d);
  }

  lemma QuotientAtLeast(x: real, d: real, lo: real)
    requires 0.0 < d
    ensures lo * d <= x ==> lo <= x / d
    ensures lo * d < x ==> lo < x / d
  {
    var n := x / d;
    assert n * d == x;
    assert (n - lo) * d == x - lo * d;
    FactorNonNegative(n - lo, d);
  }

  lemma NegatedQuotient(x: real, d: real)
    requires d != 0.0
    ensures -x / d == -(x / d)
  {
  }

  /** A sample times a gain. */
  function Gained(x: real, g: real): real { x * g }

  lemma GainedPositive(x: real, g: real)
    requires 0.0 < x && 0.0 < g
    ensures 0.0 < Gained(x, g)
  {
    ProductNonNegative(x, g);
  }

  lemma SumGained(x: real, y: real, g: real)
    ensures Gained(x + y, g) == Gained(x, g) + Gained(y, g)
  {
  }

  lemma GainedSum(x: real, g: real, h: real)
    ensures Gained(x, g + h) == Gained(x, g) + Gained(x, h)
  {
  }

  lemma GainedDifference(g: real, x: real, y: real)
    requires 0.0 <= g && x <= y
    ensures Gained(x, g) <= Gained(y, g) && Gained(y, g) - Gained(x, g) == Gained(y - x, g)
  {
    ProductNonNegative(g, y - x);
    assert (y - x) * g == y * g - x * g;
  }

  lemma GainedBounded(x: real, g: real, m: real, h: real)
    requires Abs(x) <= m && Abs(g) <= h
    ensures Abs(Gained(x, g)) <= Gained(m, h)
  {
    AbsProduct(x, g);
    ProductMonotone(Abs(x), Abs(g), h);
    ProductMonotone(h, Abs(x), m);
  }

  // ---- powers ----

  ghost function Power(x: real, n: nat): real {
    if n == 0 then 1.0 else x * Power(x, n - 1)
  }

  lemma {:induction false} AbsPower(a: real, n: nat)
    ensures Abs(Power(a, n)) == Power(Abs(a), n)
  {
    if n != 0 {
      AbsPower(a, n - 1);
      AbsProduct(a, Power(a, n - 1));
    }
  }

  function Linear(h: real, n: nat): real { 1.0 + n as real * h }

  /** Bernoulli's inequality, for the reciprocal: the n-th power is at most 1 over 1 + n (1 - r). */
  lemma {:induction false} PowerBelow(r: real, n: nat)
    requires 0.0 <= r < 1.0
    ensures 0.0 <= Power(r, n) && Power(r, n) * Linear(1.0 - r, n) <= 1.0
  {
    if n != 0 {
      PowerBelow(r, n - 1);
      ProductNonNegative(r, Power(r, n - 1));
      var p := Power(r, n - 1);
      assert Power(r, n) == r * p;
      hide Power;
      BernoulliStep(r, p, (n - 1) as real);
    }
  }

  lemma BernoulliStep(r: real, p: real, k: real)
    requires 0.0 <= r < 1.0 && 0.0 <= p && 0.0 <= k && p * (1.0 + k * (1.0 - r)) <= 1.0
    ensures (r * p) * (1.0 + (k + 1.0) * (1.0 - r)) <= 1.0
  {
    var h := 1.0 - r;
    var now, next := 1.0 + k * h, r * (1.0 + (k + 1.0) * h);
    assert now - next == (h * h) * (1.0 + k);
    ProductNonNegative(h, h);
    ProductNonNegative(h * h, 1.0 + k);
    ProductMonotone(p, next, now);
    assert (r * p) * (1.0 + (k + 1.0) * h) == p * next;
  }

  lemma PowerSmall(a: real, m: real, eps: real, n: nat)
    requires Abs(a) < 1.0 && 0.0 < eps && Abs(m) < eps * Linear(1.0 - Abs(a), n)
    ensures Abs(Gained(m, Power(a, n))) < eps
  {
    hide Power, Linear;
    PowerBelow(Abs(a), n);
    AbsPower(a, n);
    AbsProduct(m, Power(a, n));
    assert Gained(m, Power(a, n)) == m * Power(a, n);
    ReciprocalBelow(Abs(m), Power(Abs(a), n), Linear(1.0 - Abs(a), n), eps);
  }

  /** The powers of a number inside (-1, 1), times anything, fall below every positive bound for good. */
  lemma PowersVanish(a: real, m: real, eps: real) returns (from: nat)
    requires Abs(a) < 1.0 && 0.0 < eps
    ensures forall n: nat :: from <= n ==> Abs(Gained(m, Power(a, n))) < eps
  {
    hide Power, Abs, Gained;
    var h := 1.0 - Abs(a);
    ProductNonNegative(eps, h);
    from := FirstAbove(Abs(m) / (eps * h));
    forall n: nat | from <= n ensures Abs(Gained(m, Power(a, n))) < eps {
      EnoughSteps(Abs(m), eps, h, n);
      PowerSmall(a, m, eps, n);
    }
  }

  lemma FirstAbove(x: real) returns (n: nat)
    ensures x < n as real
  {
    n := if x < 0.0 then 0 else x.Floor + 1;
  }

  lemma EnoughSteps(m: real, eps: real, h: real, steps: nat)
    requires 0.0 < eps && 0.0 < h && 0.0 < eps * h && m / (eps * h) < steps as real
    ensures m < eps * Linear(h, steps)
  {
    var n := steps as real;
    var q := m / (eps * h);
    assert q * (eps * h) == m;
    ProductNonNegative(n - q, eps * h);
    assert (n - q) * (eps * h) == n * (eps * h) - m;
    assert eps * (1.0 + n * h) == eps + n * (eps * h);
  }

  lemma ReciprocalBelow(m: real, p: real, k: real, eps: real)
    requires 0.0 <= m && 0.0 <= p && p * k <= 1.0 && m < eps * k && 0.0 < eps
    ensures m * p < eps
  {
    if p > 0.0 {
      ProductNonNegative(eps * k - m, p);
      assert (eps * k - m) * p == eps * (p * k) - m * p;
      ProductMonotone(eps, p * k, 1.0);
    }
  }

  lemma Distribute(s: real, x: real, y: real)
    ensures s * (x + y) == s * x + s * y
  {
  }

  /** The blend the engine uses everywhere: mix 0 gives x, mix 1 gives y. */
  function Mix(x: real, y: real, mix: real): real {
    x * (1.0 - mix) + y * mix
  }

  /** A mix of two values lies between them. */
  lemma MixBetween(x: real, y: real, mix: real)
    requires 0.0 <= mix <= 1.0
    ensures x <= y ==> x <= Mix(x, y, mix) <= y
    ensures y <= x ==> y <= Mix(x, y, mix) <= x
  {
    var d := y - x;
    assert Mix(x, y, mix) == x + mix * d;
    if 0.0 <= d {
      ProductNonNegative(mix, d);
      ProductNonNegative(1.0 - mix, d);
      assert (1.0 - mix) * d == d - mix * d;
    } else {
      ProductNonNegative(mix, -d);
      ProductNonNegative(1.0 - mix, -d);
      assert mix * -d == -(mix * d) && (1.0 - mix) * -d == -d + mix * d;
    }
  }

  lemma MixBounded(x: real, y: real, mix: real, m: real)
    requires 0.0 <= mix <= 1.0 && Abs(x) <= m && Abs(y) <= m
    ensures Abs(Mix(x, y, mix)) <= m
  {
    hide Mix;
    MixBetween(x, y, mix);
  }
}
