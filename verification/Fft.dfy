/**
 The in-place radix-2 transform of `tools/reverb_harness.c`, proved against the plain discrete
 Fourier transform.
 */
module Fft {
  import opened BitReversal
  import opened Naturals
  import opened Trigonometry

  datatype Complex = Complex(re: real, im: real) {
    function Plus(y: Complex): Complex { Complex(re + y.re, im + y.im) }
    function Minus(y: Complex): Complex { Complex(re - y.re, im - y.im) }
    function Times(y: Complex): Complex { Complex(re * y.re - im * y.im, re * y.im + im * y.re) }
  }

  const ZERO := Complex(0.0, 0.0)
  const ONE := Complex(1.0, 0.0)

  lemma TimesAssociative(x: Complex, y: Complex, z: Complex)
    ensures x.Times(y).Times(z) == x.Times(y.Times(z))
  {
  }

  lemma TimesDistributes(x: Complex, y: Complex, w: Complex)
    ensures x.Plus(y).Times(w) == x.Times(w).Plus(y.Times(w))
    ensures w.Times(x.Plus(y)) == w.Times(x).Plus(w.Times(y))
    ensures x.Times(w) == w.Times(x)
  {
  }

  // ---- twiddle factors ----

  /** The angle a * k of the butterfly loop, with a = -2 pi / len. */
  function Angle(t: Trig, len: nat, k: nat): real
    requires 0 < len
  {
    (-2.0 * t.pi / len as real) * k as real
  }

  function OnCircle(t: Trig, angle: real): Complex {
    Complex(t.cos(angle), t.sin(angle))
  }

  /** exp(-2 pi i k / len), computed as the butterfly loop does. */
  function Twiddle(t: Trig, len: nat, k: nat): Complex
    requires 0 < len
  {
    OnCircle(t, Angle(t, len, k))
  }

  lemma AnglesAdd(t: Trig, x: real, y: real, z: real)
    requires t.Lawful() && z == x + y
    ensures OnCircle(t, z) == OnCircle(t, x).Times(OnCircle(t, y))
  {
    assert t.AdditionAt(x, y);
  }

  lemma TwiddleAdds(t: Trig, len: nat, i: nat, j: nat)
    requires t.Lawful() && 0 < len
    ensures Twiddle(t, len, i + j) == Twiddle(t, len, i).Times(Twiddle(t, len, j))
  {
    AnglesAdd(t, Angle(t, len, i), Angle(t, len, j), Angle(t, len, i + j));
  }

  lemma TwiddleZero(t: Trig, len: nat)
    requires t.Lawful() && 0 < len
    ensures Twiddle(t, len, 0) == ONE
  {
    t.CosineRange(0.0);
    assert Angle(t, len, 0) == 0.0;
  }

  lemma HalfAngle(p: real, len: real, h: real)
    requires len == 2.0 * h && 0.0 < h
    ensures (-2.0 * p / len) * h == -p
  {
    assert -2.0 * p / len == -p / h by {
      assert (-p / h) * len == -2.0 * p by {
        assert (-p / h) * h == -p;
      }
    }
  }

  lemma OppositePoint(t: Trig, angle: real)
    requires t.Lawful() && angle == -t.pi
    ensures OnCircle(t, angle) == Complex(-1.0, 0.0)
  {
    assert t.ParityAt(t.pi);
  }

  lemma TwiddleHalf(t: Trig, len: nat)
    requires t.Lawful() && 0 < len && len % 2 == 0
    ensures Twiddle(t, len, len / 2) == Complex(-1.0, 0.0)
  {
    HalfAngle(t.pi, len as real, (len / 2) as real);
    OppositePoint(t, Angle(t, len, len / 2));
  }

  lemma DoubleAngle(p: real, len: real, k: real)
    requires 0.0 < len
    ensures (-2.0 * p / (2.0 * len)) * (2.0 * k) == (-2.0 * p / len) * k
  {
    var a, b := -2.0 * p / (2.0 * len), -2.0 * p / len;
    assert 2.0 * a == b by {
      assert (2.0 * a) * len == a * (2.0 * len);
    }
    assert a * (2.0 * k) == (2.0 * a) * k;
  }

  lemma SamePoint(t: Trig, x: real, y: real)
    requires x == y
    ensures OnCircle(t, x) == OnCircle(t, y)
  {
  }

  lemma TwiddleDoubles(t: Trig, len: nat, k: nat)
    requires 0 < len
    ensures Twiddle(t, 2 * len, 2 * k) == Twiddle(t, len, k)
  {
    DoubleAngle(t.pi, len as real, k as real);
    SamePoint(t, Angle(t, 2 * len, 2 * k), Angle(t, len, k));
  }

  /** A full turn changes nothing: the twiddle factor is periodic in k. */
  lemma TwiddlePeriod(t: Trig, len: nat, k: nat)
    requires t.Lawful() && 0 < len
    ensures Twiddle(t, len, k + len) == Twiddle(t, len, k)
    ensures len % 2 == 0 ==> Twiddle(t, len, k + len / 2) == ZERO.Minus(Twiddle(t, len, k))
  {
    TwiddleDoubles(t, len, k + len);
    TwiddleDoubles(t, len, k);
    TwiddleHalf(t, 2 * len);
    TwiddleAdds(t, 2 * len, 2 * k, len);
    TwiddleAdds(t, 2 * len, 2 * k + len, len);
    if len % 2 == 0 {
      TwiddleHalf(t, len);
      TwiddleAdds(t, len, k, len / 2);
    }
  }

  lemma {:induction false} TwiddleTurns(t: Trig, len: nat, k: nat, turns: nat)
    requires t.Lawful() && 0 < len
    ensures 0 <= len * turns
    ensures Twiddle(t, len, k + len * turns) == Twiddle(t, len, k)
  {
    if turns != 0 {
      TwiddleTurns(t, len, k, turns - 1);
      assert len * turns == len * (turns - 1) + len;
      TwiddlePeriod(t, len, k + len * (turns - 1));
    } else {
      assert len * turns == 0;
    }
  }

  // ---- the plain transform ----

  /** The first m terms of sum over j of x[j] * w(|x|, j * k). */
  ghost function PartialDft(x: seq<Complex>, t: Trig, k: nat, m: nat): Complex
    requires m <= |x|
  {
    if m == 0 then ZERO
    else PartialDft(x, t, k, m - 1).Plus(x[m - 1].Times(Twiddle(t, |x|, (m - 1) * k)))
  }

  ghost function Dft(x: seq<Complex>, t: Trig, k: nat): Complex {
    PartialDft(x, t, k, |x|)
  }

  /** The transform has period |x| in k. */
  lemma {:induction false} PartialDftPeriod(x: seq<Complex>, t: Trig, k: nat, m: nat)
    requires t.Lawful() && m <= |x|
    ensures PartialDft(x, t, k + |x|, m) == PartialDft(x, t, k, m)
  {
    if m != 0 {
      PartialDftPeriod(x, t, k, m - 1);
      assert (m - 1) * (k + |x|) == (m - 1) * k + |x| * (m - 1);
      TwiddleTurns(t, |x|, (m - 1) * k, m - 1);
    }
  }

  ghost function Evens(x: seq<Complex>): (r: seq<Complex>)
    ensures |r| == |x| / 2
  {
    seq(|x| / 2, i requires 0 <= i < |x| / 2 => x[2 * i])
  }

  ghost function Odds(x: seq<Complex>): (r: seq<Complex>)
    ensures |r| == |x| / 2
  {
    seq(|x| / 2, i requires 0 <= i < |x| / 2 => x[2 * i + 1])
  }

  /** One more pair of terms, rearranged into an even part and a twiddled odd part. */
  lemma PairOfTerms(e: Complex, o: Complex, w: Complex, xe: Complex, we: Complex, xo: Complex, wo: Complex)
    requires wo == w.Times(we)
    ensures e.Plus(w.Times(o)).Plus(xe.Times(we)).Plus(xo.Times(wo))
         == e.Plus(xe.Times(we)).Plus(w.Times(o.Plus(xo.Times(we))))
  {
    TimesDistributes(o, xo.Times(we), w);
    TimesAssociative(w, xo, we);
    TimesAssociative(xo, w, we);
    TimesDistributes(w, w, xo);
  }

  lemma {:induction false} SplitPartial(x: seq<Complex>, t: Trig, k: nat, m: nat)
    requires t.Lawful() && 0 < |x| && |x| % 2 == 0 && 2 * m <= |x|
    ensures PartialDft(x, t, k, 2 * m)
         == PartialDft(Evens(x), t, k, m).Plus(Twiddle(t, |x|, k).Times(PartialDft(Odds(x), t, k, m)))
  {
    if m == 0 {
      hide Twiddle, Trig.Lawful;
      assert PartialDft(x, t, k, 0) == ZERO;
    } else {
      SplitPartial(x, t, k, m - 1);
      SplitStep(x, t, k, m - 1);
    }
  }

  lemma SplitStep(x: seq<Complex>, t: Trig, k: nat, j: nat)
    requires t.Lawful() && 0 < |x| && |x| % 2 == 0 && 2 * j + 2 <= |x|
    requires PartialDft(x, t, k, 2 * j)
          == PartialDft(Evens(x), t, k, j).Plus(Twiddle(t, |x|, k).Times(PartialDft(Odds(x), t, k, j)))
    ensures PartialDft(x, t, k, 2 * (j + 1))
         == PartialDft(Evens(x), t, k, j + 1).Plus(Twiddle(t, |x|, k).Times(PartialDft(Odds(x), t, k, j + 1)))
  {
    hide Twiddle, Complex.Times, Complex.Plus, Trig.Lawful, PartialDft;
    var n := |x|;
    PairTwiddles(t, n, j, k);
    var w, we := Twiddle(t, n, k), Twiddle(t, n / 2, j * k);
    PairOfTerms(PartialDft(Evens(x), t, k, j), PartialDft(Odds(x), t, k, j),
                w, x[2 * j], we, x[2 * j + 1], Twiddle(t, n, (2 * j + 1) * k));
    PartialTwoMore(x, t, k, j);
    PartialOneMore(Evens(x), t, k, j);
    PartialOneMore(Odds(x), t, k, j);
  }

  lemma PartialOneMore(x: seq<Complex>, t: Trig, k: nat, j: nat)
    requires j < |x|
    ensures 0 <= j * k
    ensures PartialDft(x, t, k, j + 1) == PartialDft(x, t, k, j).Plus(x[j].Times(Twiddle(t, |x|, j * k)))
  {
    hide Twiddle, Complex.Times, Complex.Plus;
  }

  lemma PairTwiddles(t: Trig, n: nat, j: nat, k: nat)
    requires t.Lawful() && 0 < n && n % 2 == 0
    ensures 0 <= j * k && 0 <= (2 * j) * k && 0 <= (2 * j + 1) * k
    ensures Twiddle(t, n, (2 * j) * k) == Twiddle(t, n / 2, j * k)
    ensures Twiddle(t, n, (2 * j + 1) * k) == Twiddle(t, n, k).Times(Twiddle(t, n / 2, j * k))
  {
    hide Twiddle, Complex.Times, Trig.Lawful;
    assert (2 * j) * k == 2 * (j * k);
    assert (2 * j + 1) * k == k + (2 * j) * k;
    TwiddleDoubles(t, n / 2, j * k);
    TwiddleAdds(t, n, k, (2 * j) * k);
  }

  lemma PartialTwoMore(x: seq<Complex>, t: Trig, k: nat, j: nat)
    requires 2 * j + 2 <= |x|
    ensures 0 <= (2 * j) * k && 0 <= (2 * j + 1) * k
    ensures PartialDft(x, t, k, 2 * j + 2)
         == PartialDft(x, t, k, 2 * j).Plus(x[2 * j].Times(Twiddle(t, |x|, (2 * j) * k)))
              .Plus(x[2 * j + 1].Times(Twiddle(t, |x|, (2 * j + 1) * k)))
  {
    assert PartialDft(x, t, k, 2 * j + 1)
        == PartialDft(x, t, k, 2 * j).Plus(x[2 * j].Times(Twiddle(t, |x|, (2 * j) * k)));
  }

  lemma MinusProduct(e: Complex, w: Complex, o: Complex)
    ensures e.Plus(ZERO.Minus(w).Times(o)) == e.Minus(w.Times(o))
  {
  }

  /** Decimation in time: the two halves of a transform from the transforms of evens and odds. */
  lemma DecimationInTime(x: seq<Complex>, t: Trig, k: nat)
    requires t.Lawful() && |x| % 2 == 0 && k < |x| / 2
    ensures var low, high := Dft(Evens(x), t, k), Twiddle(t, |x|, k).Times(Dft(Odds(x), t, k));
            Dft(x, t, k) == low.Plus(high) && Dft(x, t, k + |x| / 2) == low.Minus(high)
  {
    hide Twiddle, Trig.Lawful, PartialDft, Evens, Odds;
    var h := |x| / 2;
    SplitPartial(x, t, k, h);
    SplitPartial(x, t, k + h, h);
    PartialDftPeriod(Evens(x), t, k, h);
    PartialDftPeriod(Odds(x), t, k, h);
    TwiddlePeriod(t, |x|, k);
    MinusProduct(Dft(Evens(x), t, k), Twiddle(t, |x|, k), Dft(Odds(x), t, k));
  }

  ghost function Spectrum(x: seq<Complex>, t: Trig): (r: seq<Complex>)
    ensures |r| == |x|
  {
    seq(|x|, k requires 0 <= k < |x| => Dft(x, t, k))
  }

  // ---- the transform as sums of cosines and sines ----

  /** 2 pi j k / n. */
  function Turns(t: Trig, n: nat, j: nat, k: nat): real
    requires 0 < n
  {
    2.0 * t.pi * (j * k) as real / n as real
  }

  /** The first m terms of the real part of the transform at k, written out. */
  ghost function RealPart(re: seq<real>, im: seq<real>, t: Trig, k: nat, m: nat): real
    requires m <= |re| == |im|
  {
    if m == 0 then 0.0
    else
      var a := Turns(t, |re|, m - 1, k);
      RealPart(re, im, t, k, m - 1) + re[m - 1] * t.cos(a) + im[m - 1] * t.sin(a)
  }

  ghost function ImaginaryPart(re: seq<real>, im: seq<real>, t: Trig, k: nat, m: nat): real
    requires m <= |re| == |im|
  {
    if m == 0 then 0.0
    else
      var a := Turns(t, |re|, m - 1, k);
      ImaginaryPart(re, im, t, k, m - 1) + im[m - 1] * t.cos(a) - re[m - 1] * t.sin(a)
  }

  lemma AngleTurnsBack(t: Trig, n: nat, j: nat, k: nat)
    requires 0 < n
    ensures 0 <= j * k && Angle(t, n, j * k) == -Turns(t, n, j, k)
  {
    NegatedTurn(t.pi, n as real, (j * k) as real);
  }

  lemma NegatedTurn(p: real, n: real, m: real)
    requires 0.0 < n
    ensures (-2.0 * p / n) * m == -(2.0 * p * m / n)
  {
    var a, b := -2.0 * p / n, 2.0 * p * m / n;
    assert a * n == -2.0 * p && b * n == 2.0 * p * m;
    assert (a * m + b) * n == 0.0 by {
      assert (a * m) * n == (a * n) * m;
    }
  }

  /** The complex sum is the two real ones: cosines of forward angles, and sines that turn clockwise. */
  lemma {:induction false} DftInParts(re: seq<real>, im: seq<real>, t: Trig, k: nat, m: nat)
    requires t.Lawful() && m <= |re| == |im|
    ensures PartialDft(Zip(re, im), t, k, m) == Complex(RealPart(re, im, t, k, m), ImaginaryPart(re, im, t, k, m))
  {
    hide Trig.Lawful, Turns, Twiddle, RealPart, ImaginaryPart, PartialDft, Complex.Times;
    NoTerms(re, im, t, k);
    if m != 0 {
      DftInParts(re, im, t, k, m - 1);
      PartialOneMore(Zip(re, im), t, k, m - 1);
      TwiddleTurnsBack(t, |re|, m - 1, k);
      TermInParts(t, re[m - 1], im[m - 1], Turns(t, |re|, m - 1, k));
      PartsOneMore(re, im, t, k, m);
    }
  }

  lemma NoTerms(re: seq<real>, im: seq<real>, t: Trig, k: nat)
    requires |re| == |im|
    ensures PartialDft(Zip(re, im), t, k, 0) == ZERO
    ensures RealPart(re, im, t, k, 0) == 0.0 && ImaginaryPart(re, im, t, k, 0) == 0.0
  {
  }

  lemma PartsOneMore(re: seq<real>, im: seq<real>, t: Trig, k: nat, m: nat)
    requires 0 < m <= |re| == |im|
    ensures var a := Turns(t, |re|, m - 1, k);
            && RealPart(re, im, t, k, m)
                 == RealPart(re, im, t, k, m - 1) + (re[m - 1] * t.cos(a) + im[m - 1] * t.sin(a))
            && ImaginaryPart(re, im, t, k, m)
                 == ImaginaryPart(re, im, t, k, m - 1) + (im[m - 1] * t.cos(a) - re[m - 1] * t.sin(a))
  {
    hide Turns;
  }

  lemma TwiddleTurnsBack(t: Trig, n: nat, j: nat, k: nat)
    requires 0 < n
    ensures 0 <= j * k && Twiddle(t, n, j * k) == OnCircle(t, -Turns(t, n, j, k))
  {
    hide Angle, Turns;
    AngleTurnsBack(t, n, j, k);
    SamePoint(t, Angle(t, n, j * k), -Turns(t, n, j, k));
  }

  lemma TermInParts(t: Trig, re: real, im: real, a: real)
    requires t.Lawful()
    ensures Complex(re, im).Times(OnCircle(t, -a))
         == Complex(re * t.cos(a) + im * t.sin(a), im * t.cos(a) - re * t.sin(a))
  {
    assert t.ParityAt(a);
  }

  // ---- the passes ----

  /** What one butterfly pass of span `len` leaves at index p. */
  ghost function ButterflyAt(s: seq<Complex>, t: Trig, len: nat, p: nat): Complex
    requires 0 < len && len % 2 == 0 && |s| % len == 0 && p < |s|
  {
    var h, r := len / 2, p % len;
    InsideBlock(|s|, len, p);
    if r < h then s[p].Plus(Twiddle(t, len, r).Times(s[p + h]))
    else s[p - h].Minus(Twiddle(t, len, r - h).Times(s[p]))
  }

  lemma InsideBlock(n: nat, len: nat, p: nat)
    requires 0 < len && n % len == 0 && p < n
    ensures p - p % len + len <= n && 0 <= p - p % len
  {
    var q, m := p / len, n / len;
    assert p == len * q + p % len && n == len * m;
    if m <= q {
      MultipleMonotone(len, m, q);
      assert false;
    }
    MultipleMonotone(len, q + 1, m);
    MultipleMonotone(len, q, q);
  }

  ghost function Pass(s: seq<Complex>, t: Trig, len: nat): (r: seq<Complex>)
    requires 0 < len && len % 2 == 0 && |s| % len == 0
    ensures |r| == |s|
  {
    seq(|s|, p requires 0 <= p < |s| => ButterflyAt(s, t, len, p))
  }

  /** The array after the pass of span `len`: blocks of that length, each the spectrum of one
      decimated subsequence, the subsequences in bit-reversed order. */
  ghost function Stage(x: seq<Complex>, t: Trig, b: nat, c: nat): (r: seq<Complex>)
    requires |x| == Pow2(b)
    ensures |r| == |x|
    decreases b
  {
    if b <= c then Spectrum(x, t) else Stage(Evens(x), t, b - 1, c) + Stage(Odds(x), t, b - 1, c)
  }

  lemma {:induction false} Pow2Divides(b: nat, c: nat)
    requires c <= b
    ensures Pow2(b) % Pow2(c) == 0 && Pow2(c) <= Pow2(b)
  {
    if c < b {
      Pow2Divides(b - 1, c);
      var d, m := Pow2(c), Pow2(b - 1) / Pow2(c);
      assert Pow2(b - 1) == d * m;
      assert Pow2(b) == d * (2 * m) + 0;
      QuotientUnique(Pow2(b), d, 2 * m, 0);
    }
  }

  lemma ShiftedRemainder(p: nat, len: nat, h: nat)
    requires 0 < len && h % len == 0
    ensures (p + h) % len == p % len
  {
    var q, m := p / len, h / len;
    assert p + h == len * (q + m) + p % len;
    QuotientUnique(p + h, len, q + m, p % len);
  }

  /** A pass works block by block, so it distributes over a cut between blocks. */
  lemma PassOfConcat(u: seq<Complex>, v: seq<Complex>, t: Trig, len: nat)
    requires 0 < len && len % 2 == 0 && |u| % len == 0 && |v| % len == 0
    ensures |u + v| % len == 0
    ensures Pass(u + v, t, len) == Pass(u, t, len) + Pass(v, t, len)
  {
    ShiftedRemainder(|v|, len, |u|);
    forall p | 0 <= p < |u + v|
      ensures Pass(u + v, t, len)[p] == (Pass(u, t, len) + Pass(v, t, len))[p]
    {
      if p < |u| {
        InsideBlock(|u|, len, p);
      } else {
        InsideBlock(|v|, len, p - |u|);
        ShiftedRemainder(p - |u|, len, |u|);
      }
    }
  }

  /** At the last span the pass is decimation in time itself. */
  lemma LastPass(x: seq<Complex>, t: Trig)
    requires t.Lawful() && 0 < |x| && |x| % 2 == 0 && |x| % |x| == 0
    ensures Pass(Spectrum(Evens(x), t) + Spectrum(Odds(x), t), t, |x|) == Spectrum(x, t)
  {
    hide Twiddle, Trig.Lawful, PartialDft, Dft, Evens, Odds, Complex.Plus, Complex.Minus, Complex.Times;
    var s, n, h := Spectrum(Evens(x), t) + Spectrum(Odds(x), t), |x|, |x| / 2;
    forall p | 0 <= p < n ensures ButterflyAt(s, t, n, p) == Dft(x, t, p) {
      QuotientUnique(p, n, 0, p);
      DecimationInTime(x, t, if p < h then p else p - h);
    }
  }

  /** Every pass turns all spectra of length len / 2 into spectra of length len. */
  lemma {:induction false} PassAdvancesStage(x: seq<Complex>, t: Trig, b: nat, c: nat)
    requires t.Lawful() && |x| == Pow2(b) && c < b
    ensures Pow2(c + 1) % 2 == 0 && |x| % Pow2(c + 1) == 0
    ensures Pass(Stage(x, t, b, c), t, Pow2(c + 1)) == Stage(x, t, b, c + 1)
    decreases b
  {
    hide Twiddle, Trig.Lawful, Spectrum, Evens, Odds, Pass;
    Pow2Divides(b, c + 1);
    if c + 1 == b {
      QuotientUnique(|x|, |x|, 1, 0);
      LastPass(x, t);
    } else {
      PassAdvancesStage(Evens(x), t, b - 1, c);
      PassAdvancesStage(Odds(x), t, b - 1, c);
      PassOfConcat(Stage(Evens(x), t, b - 1, c), Stage(Odds(x), t, b - 1, c), t, Pow2(c + 1));
    }
  }

  lemma SingletonSpectrum(x: seq<Complex>, t: Trig)
    requires t.Lawful() && |x| == 1
    ensures Spectrum(x, t) == x
  {
    TwiddleZero(t, 1);
    assert PartialDft(x, t, 0, 0) == ZERO;
    assert Dft(x, t, 0) == ZERO.Plus(x[0].Times(ONE));
  }

  /** Bit reversal sorts the even-indexed elements before the odd-indexed ones, recursively. */
  lemma ReversedHalves(x: seq<Complex>, b: nat)
    requires 0 < b && |x| == Pow2(b)
    ensures BitReversed(x, b) == BitReversed(Evens(x), b - 1) + BitReversed(Odds(x), b - 1)
  {
    assert |x| == 2 * Pow2(b - 1);
    hide Rev, Pow2;
    forall i | 0 <= i < |x|
      ensures BitReversed(x, b)[i] == (BitReversed(Evens(x), b - 1) + BitReversed(Odds(x), b - 1))[i]
    {
      RevFromTop(i, b);
    }
  }

  /** Bit reversal sets up the spectra of length one. */
  lemma {:induction false} BitReversalIsStageZero(x: seq<Complex>, t: Trig, b: nat)
    requires t.Lawful() && |x| == Pow2(b)
    ensures BitReversed(x, b) == Stage(x, t, b, 0)
    decreases b
  {
    hide Trig.Lawful, Spectrum, Evens, Odds;
    if b == 0 {
      SingletonSpectrum(x, t);
      RevOfZero(0);
    } else {
      hide BitReversed;
      BitReversalIsStageZero(Evens(x), t, b - 1);
      BitReversalIsStageZero(Odds(x), t, b - 1);
      ReversedHalves(x, b);
    }
  }

  // ---- the in-place program ----

  ghost function Zip(re: seq<real>, im: seq<real>): (r: seq<Complex>)
    requires |re| == |im|
    ensures |r| == |re|
  {
    seq(|re|, p requires 0 <= p < |re| => Complex(re[p], im[p]))
  }

  /** Index p has been overwritten once blocks before i, and k butterflies of block i, are done. */
  predicate Reached(p: nat, i: nat, k: nat, h: nat) {
    p < i || i <= p < i + k || i + h <= p < i + h + k
  }

  ghost predicate MidPass(now: seq<Complex>, was: seq<Complex>, t: Trig, len: nat, i: nat, k: nat) {
    && 0 < len && len % 2 == 0 && |was| % len == 0 && |now| == |was|
    && forall p :: 0 <= p < |now| ==>
         now[p] == if Reached(p, i, k, len / 2) then ButterflyAt(was, t, len, p) else was[p]
  }

  lemma OffsetInBlock(i: nat, len: nat, r: nat)
    requires 0 < len && i % len == 0 && r < len
    ensures (i + r) % len == r
  {
    QuotientUnique(r, len, 0, r);
    ShiftedRemainder(r, len, i);
  }

  /** One butterfly: the twiddle product, then the difference and the sum. */
  method Butterfly(re: array<real>, im: array<real>, p: nat, q: nat, w: Complex)
    requires re != im && re.Length == im.Length && p < q < re.Length
    modifies re, im
    ensures var was := old(Zip(re[..], im[..]));
            Zip(re[..], im[..]) == was[q := was[p].Minus(w.Times(was[q]))][p := was[p].Plus(w.Times(was[q]))]
  {
    ghost var x, y := Complex(re[p], im[p]), Complex(re[q], im[q]);
    var xr := re[q] * w.re - im[q] * w.im;
    var xi := re[q] * w.im + im[q] * w.re;
    assert w.Times(y) == Complex(xr, xi);
    hide Complex.Times;
    re[q] := re[p] - xr;
    im[q] := im[p] - xi;
    re[p] := re[p] + xr;
    im[p] := im[p] + xi;
  }

  lemma MidPassStep(before: seq<Complex>, after: seq<Complex>, was: seq<Complex>, t: Trig, len: nat, i: nat, k: nat)
    requires MidPass(before, was, t, len, i, k)
    requires i % len == 0 && i + len <= |was| && k < len / 2
    requires (i + k) % len == k && (i + k + len / 2) % len == k + len / 2
    requires var p, q, x := i + k, i + k + len / 2, Twiddle(t, len, k).Times(before[i + k + len / 2]);
             after == before[q := before[p].Minus(x)][p := before[p].Plus(x)]
    ensures MidPass(after, was, t, len, i, k + 1)
  {
  }

  lemma MidPassNextBlock(now: seq<Complex>, was: seq<Complex>, t: Trig, len: nat, i: nat)
    requires MidPass(now, was, t, len, i, len / 2)
    ensures MidPass(now, was, t, len, i + len, 0)
  {
    hide ButterflyAt;
  }

  lemma MidPassDone(now: seq<Complex>, was: seq<Complex>, t: Trig, len: nat, i: nat)
    requires MidPass(now, was, t, len, i, 0) && |was| <= i
    ensures now == Pass(was, t, len)
  {
    hide ButterflyAt;
  }

  method PassInPlace(re: array<real>, im: array<real>, t: Trig, len: nat)
    requires re != im && re.Length == im.Length
    requires 0 < len && len % 2 == 0 && re.Length % len == 0
    modifies re, im
    ensures Zip(re[..], im[..]) == Pass(old(Zip(re[..], im[..])), t, len)
  {
    ghost var was := Zip(re[..], im[..]);
    var i: nat := 0;
    assert MidPass(was, was, t, len, 0, 0);
    hide ButterflyAt, MidPass, Twiddle, Complex.Times, Pass;
    while i < re.Length
      invariant i % len == 0
      invariant MidPass(Zip(re[..], im[..]), was, t, len, i, 0)
    {
      InsideBlock(re.Length, len, i);
      for k := 0 to len / 2
        invariant MidPass(Zip(re[..], im[..]), was, t, len, i, k)
      {
        ghost var before := Zip(re[..], im[..]);
        var p: nat := i + k;
        Butterfly(re, im, p, p + len / 2, Twiddle(t, len, k));
        OffsetInBlock(i, len, k);
        OffsetInBlock(i, len, k + len / 2);
        MidPassStep(before, Zip(re[..], im[..]), was, t, len, i, k);
      }
      MidPassNextBlock(Zip(re[..], im[..]), was, t, len, i);
      QuotientUnique(len, len, 1, 0);
      ShiftedRemainder(i, len, len);
      i := i + len;
    }
    MidPassDone(Zip(re[..], im[..]), was, t, len, i);
  }

  method ReverseInPlace(re: array<real>, im: array<real>, n: nat, ghost b: nat)
    requires re != im && re.Length == im.Length == n == Pow2(b)
    modifies re, im
    ensures Zip(re[..], im[..]) == BitReversed(old(Zip(re[..], im[..])), b)
  {
    hide Rev, Pow2;
    BitReverse(re, im, n, b);
  }

  lemma SpectrumInParts(re: seq<real>, im: seq<real>, re': seq<real>, im': seq<real>, t: Trig)
    requires t.Lawful() && |re| == |im| == |re'| == |im'| && Zip(re', im') == Spectrum(Zip(re, im), t)
    ensures forall k :: 0 <= k < |re| ==>
              re'[k] == RealPart(re, im, t, k, |re|) && im'[k] == ImaginaryPart(re, im, t, k, |re|)
  {
    hide PartialDft, RealPart, ImaginaryPart, Trig.Lawful;
    forall k | 0 <= k < |re|
      ensures re'[k] == RealPart(re, im, t, k, |re|) && im'[k] == ImaginaryPart(re, im, t, k, |re|)
    {
      DftInParts(re, im, t, k, |re|);
      assert Zip(re', im')[k] == Complex(re'[k], im'[k]);
      assert Spectrum(Zip(re, im), t)[k] == PartialDft(Zip(re, im), t, k, |re|);
    }
  }

  /** The two loops of `fft`. */
  method TransformSpectrum(re: array<real>, im: array<real>, n: nat, t: Trig, ghost b: nat)
    requires t.Lawful() && re != im && re.Length == im.Length == n == Pow2(b)
    modifies re, im
    ensures Zip(re[..], im[..]) == Spectrum(old(Zip(re[..], im[..])), t)
  {
    ghost var x := Zip(re[..], im[..]);
    ReverseInPlace(re, im, n, b);
    BitReversalIsStageZero(x, t, b);
    hide Zip, BitReversed;
    var len: nat := 2;
    ghost var c: nat := 0;
    while len <= n
      invariant c <= b && len == Pow2(c + 1)
      invariant Zip(re[..], im[..]) == Stage(x, t, b, c)
      decreases b - c
    {
      if c == b {
        assert false;
      }
      hide Stage, Pass, Trig.Lawful;
      PassAdvancesStage(x, t, b, c);
      PassInPlace(re, im, t, len);
      c := c + 1;
      len := len * 2;
    }
    if c < b {
      Pow2Divides(b, c + 1);
      assert false;
    }
  }

  /** `fft`: for every power-of-two length, index k ends up holding the transform at k, the sum over j of
      the inputs times exp(-2 pi i j k / n), here in its real and its imaginary part. */
  method Transform(re: array<real>, im: array<real>, n: nat, t: Trig, ghost b: nat)
    requires t.Lawful() && re != im && re.Length == im.Length == n == Pow2(b)
    modifies re, im
    ensures Zip(re[..], im[..]) == Spectrum(old(Zip(re[..], im[..])), t)
    ensures forall k :: 0 <= k < n ==> re[k] == RealPart(old(re[..]), old(im[..]), t, k, n)
    ensures forall k :: 0 <= k < n ==> im[k] == ImaginaryPart(old(re[..]), old(im[..]), t, k, n)
  {
    TransformSpectrum(re, im, n, t, b);
    SpectrumInParts(old(re[..]), old(im[..]), re[..], im[..], t);
    assert forall k :: 0 <= k < n ==> re[k] == re[..][k] && im[k] == im[..][k];
  }
}
