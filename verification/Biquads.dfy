/**
 Second-order sections. The repository runs them in two arrangements, transposed
 (`multibandDist.c`, `binaural_harness.c`) and direct (`BassExciterDsp.h`, `DynamicBassDsp.h`,
 and, with shared histories, `digitalFilters.c`). Both are proved to solve the same difference
 equation, alone and in cascades of any length.
 */
module Biquads {

  datatype Coeffs = Coeffs(b0: real, b1: real, b2: real, a1: real, a2: real)

  /** What a section remembers between samples. */
  datatype Memory =
    | Transposed(z1: real, z2: real)
    | Direct(x1: real, x2: real, y1: real, y2: real)

  function Out(c: Coeffs, m: Memory, x: real): real {
    match m
    case Transposed(z1, _) => c.b0 * x + z1
    case Direct(x1, x2, y1, y2) => c.b0 * x + c.b1 * x1 + c.b2 * x2 - c.a1 * y1 - c.a2 * y2
  }

  function Next(c: Coeffs, m: Memory, x: real): Memory {
    var y := Out(c, m, x);
    match m
    case Transposed(_, z2) => Transposed(c.b1 * x - c.a1 * y + z2, c.b2 * x - c.a2 * y)
    case Direct(x1, _, y1, _) => Direct(x, x1, y, y1)
  }

  ghost predicate AllTransposed(ms: seq<Memory>) {
    forall k :: 0 <= k < |ms| ==> ms[k].Transposed?
  }

  predicate Silent(m: Memory) {
    m == Transposed(0.0, 0.0) || m == Direct(0.0, 0.0, 0.0, 0.0)
  }

  // ---- one section ----

  /** The memory after the first n samples of the stream. */
  ghost function MemoryAt(c: Coeffs, m: Memory, xs: seq<real>, n: nat): Memory
    requires n <= |xs|
  {
    if n == 0 then m else Next(c, MemoryAt(c, m, xs, n - 1), xs[n - 1])
  }

  ghost function Stream(c: Coeffs, m: Memory, xs: seq<real>): (ys: seq<real>)
    ensures |ys| == |xs|
  {
    seq(|xs|, n requires 0 <= n < |xs| => Out(c, MemoryAt(c, m, xs, n), xs[n]))
  }

  function At(s: seq<real>, i: int): real {
    if 0 <= i < |s| then s[i] else 0.0
  }

  ghost predicate SolvesAt(c: Coeffs, xs: seq<real>, ys: seq<real>, n: int)
    requires 0 <= n < |xs| && |xs| == |ys|
  {
    ys[n] == c.b0 * xs[n] + c.b1 * At(xs, n - 1) + c.b2 * At(xs, n - 2)
           - c.a1 * At(ys, n - 1) - c.a2 * At(ys, n - 2)
  }

  /** y[n] = b0 x[n] + b1 x[n-1] + b2 x[n-2] - a1 y[n-1] - a2 y[n-2], silence before the start. */
  ghost predicate Solves(c: Coeffs, xs: seq<real>, ys: seq<real>) {
    |xs| == |ys| && forall n :: 0 <= n < |xs| ==> SolvesAt(c, xs, ys, n)
  }

  /** The memory stands for these last two inputs and outputs. */
  ghost predicate Remembers(c: Coeffs, m: Memory, x1: real, x2: real, y1: real, y2: real) {
    match m
    case Transposed(z1, z2) =>
      z1 == c.b1 * x1 + c.b2 * x2 - c.a1 * y1 - c.a2 * y2 && z2 == c.b2 * x1 - c.a2 * y1
    case Direct(_, _, _, _) => m == Direct(x1, x2, y1, y2)
  }

  lemma RemembersStep(c: Coeffs, m: Memory, x1: real, x2: real, y1: real, y2: real, x: real)
    requires Remembers(c, m, x1, x2, y1, y2)
    ensures Out(c, m, x) == c.b0 * x + c.b1 * x1 + c.b2 * x2 - c.a1 * y1 - c.a2 * y2
    ensures Remembers(c, Next(c, m, x), x, x1, Out(c, m, x), y1)
  {
  }

  lemma SilentRemembers(c: Coeffs, m: Memory)
    requires Silent(m)
    ensures Remembers(c, m, 0.0, 0.0, 0.0, 0.0)
  {
  }

  lemma StreamAt(c: Coeffs, m: Memory, xs: seq<real>, n: nat)
    requires n < |xs|
    ensures Stream(c, m, xs)[n] == Out(c, MemoryAt(c, m, xs, n), xs[n])
  {
  }

  lemma {:induction false} MemoryIsHistory(c: Coeffs, m: Memory, xs: seq<real>, ys: seq<real>, n: nat)
    requires Silent(m) && n <= |xs| && ys == Stream(c, m, xs)
    ensures Remembers(c, MemoryAt(c, m, xs, n), At(xs, n - 1), At(xs, n - 2), At(ys, n - 1), At(ys, n - 2))
  {
    if n == 0 {
      SilentRemembers(c, m);
    } else {
      hide Remembers, Out, Next, Silent, Stream;
      MemoryIsHistory(c, m, xs, ys, n - 1);
      var before := MemoryAt(c, m, xs, n - 1);
      StreamAt(c, m, xs, n - 1);
      RemembersStep(c, before, At(xs, n - 2), At(xs, n - 3), At(ys, n - 2), At(ys, n - 3), xs[n - 1]);
    }
  }

  /** From silence, either arrangement solves the difference equation. */
  lemma StreamSolves(c: Coeffs, m: Memory, xs: seq<real>)
    requires Silent(m)
    ensures Solves(c, xs, Stream(c, m, xs))
  {
    hide Remembers, Out, Next, Silent;
    var ys := Stream(c, m, xs);
    forall n | 0 <= n < |xs| ensures SolvesAt(c, xs, ys, n) {
      MemoryIsHistory(c, m, xs, ys, n);
      RemembersStep(c, MemoryAt(c, m, xs, n), At(xs, n - 1), At(xs, n - 2), At(ys, n - 1), At(ys, n - 2), xs[n]);
    }
  }

  lemma {:induction false} SolutionUniqueUpTo(c: Coeffs, xs: seq<real>, ys: seq<real>, zs: seq<real>, n: nat)
    requires Solves(c, xs, ys) && Solves(c, xs, zs) && n <= |xs|
    ensures ys[..n] == zs[..n]
  {
    if n != 0 {
      SolutionUniqueUpTo(c, xs, ys, zs, n - 1);
      assert SolvesAt(c, xs, ys, n - 1) && SolvesAt(c, xs, zs, n - 1);
      forall i | 0 <= i < n - 1 ensures ys[i] == zs[i] {
        assert ys[..n - 1][i] == zs[..n - 1][i];
      }
      assert At(ys, n - 2) == At(zs, n - 2) && At(ys, n - 3) == At(zs, n - 3);
      assert ys[n - 1] == zs[n - 1];
    }
  }

  /** The difference equation has one solution, so all silent sections agree on every stream. */
  lemma AllFormsAgree(c: Coeffs, m: Memory, xs: seq<real>, ys: seq<real>)
    requires Silent(m)
    ensures Solves(c, xs, ys) <==> ys == Stream(c, m, xs)
  {
    StreamSolves(c, m, xs);
    if Solves(c, xs, ys) {
      SolutionUniqueUpTo(c, xs, ys, Stream(c, m, xs), |xs|);
      assert ys[..|xs|] == ys && Stream(c, m, xs)[..|xs|] == Stream(c, m, xs);
    }
  }

  // ---- cascades ----

  /** The signal after the first k sections, all fed within one sample. */
  function Through(cs: seq<Coeffs>, ms: seq<Memory>, x: real, k: nat): real
    requires |cs| == |ms| && k <= |cs|
  {
    if k == 0 then x else Out(cs[k - 1], ms[k - 1], Through(cs, ms, x, k - 1))
  }

  function Advance(cs: seq<Coeffs>, ms: seq<Memory>, x: real): (r: seq<Memory>)
    requires |cs| == |ms|
    ensures |r| == |ms|
  {
    seq(|cs|, k requires 0 <= k < |cs| => Next(cs[k], ms[k], Through(cs, ms, x, k)))
  }

  ghost function MemoriesAt(cs: seq<Coeffs>, ms: seq<Memory>, xs: seq<real>, n: nat): (r: seq<Memory>)
    requires |cs| == |ms| && n <= |xs|
    ensures |r| == |ms|
  {
    if n == 0 then ms else Advance(cs, MemoriesAt(cs, ms, xs, n - 1), xs[n - 1])
  }

  /** The stream between section k - 1 and section k. */
  ghost function Tap(cs: seq<Coeffs>, ms: seq<Memory>, xs: seq<real>, k: nat): (ys: seq<real>)
    requires |cs| == |ms| && k <= |cs|
    ensures |ys| == |xs|
  {
    seq(|xs|, n requires 0 <= n < |xs| => Through(cs, MemoriesAt(cs, ms, xs, n), xs[n], k))
  }

  ghost function CascadeStream(cs: seq<Coeffs>, ms: seq<Memory>, xs: seq<real>): (ys: seq<real>)
    requires |cs| == |ms|
    ensures |ys| == |xs|
  {
    Tap(cs, ms, xs, |cs|)
  }

  lemma MemoriesStep(cs: seq<Coeffs>, ms: seq<Memory>, xs: seq<real>, k: nat, n: nat)
    requires |cs| == |ms| && k < |cs| && 0 < n <= |xs|
    ensures MemoriesAt(cs, ms, xs, n)[k] == Next(cs[k], MemoriesAt(cs, ms, xs, n - 1)[k], Tap(cs, ms, xs, k)[n - 1])
  {
    hide Next, Out, Through;
    var before := MemoriesAt(cs, ms, xs, n - 1);
    assert MemoriesAt(cs, ms, xs, n) == Advance(cs, before, xs[n - 1]);
  }

  lemma {:induction false} SectionRunsAlone(cs: seq<Coeffs>, ms: seq<Memory>, xs: seq<real>, k: nat, n: nat)
    requires |cs| == |ms| && k < |cs| && n <= |xs|
    ensures MemoriesAt(cs, ms, xs, n)[k] == MemoryAt(cs[k], ms[k], Tap(cs, ms, xs, k), n)
  {
    hide Next, Out, Through, Tap, Advance;
    if n != 0 {
      SectionRunsAlone(cs, ms, xs, k, n - 1);
      MemoriesStep(cs, ms, xs, k, n);
    }
  }

  /** Running all sections sample by sample is running them one after the other, stream by stream. */
  lemma TapIsSectionOfTap(cs: seq<Coeffs>, ms: seq<Memory>, xs: seq<real>, k: nat)
    requires |cs| == |ms| && k < |cs|
    ensures Tap(cs, ms, xs, 0) == xs
    ensures Tap(cs, ms, xs, k + 1) == Stream(cs[k], ms[k], Tap(cs, ms, xs, k))
  {
    forall n | 0 <= n < |xs|
      ensures Tap(cs, ms, xs, k + 1)[n] == Stream(cs[k], ms[k], Tap(cs, ms, xs, k))[n]
    {
      SectionRunsAlone(cs, ms, xs, k, n);
    }
  }

  /** ys is xs filtered by each difference equation in turn. */
  ghost predicate SolvesChain(cs: seq<Coeffs>, xs: seq<real>, ys: seq<real>)
    decreases |cs|
  {
    if cs == [] then ys == xs
    else exists mid :: SolvesChain(Front(cs), xs, mid) && Solves(Last(cs), mid, ys)
  }

  function Front(cs: seq<Coeffs>): seq<Coeffs>
    requires cs != []
  {
    cs[..|cs| - 1]
  }

  function Last(cs: seq<Coeffs>): Coeffs
    requires cs != []
  {
    cs[|cs| - 1]
  }

  lemma {:induction false} TapSolvesChain(cs: seq<Coeffs>, ms: seq<Memory>, xs: seq<real>, k: nat)
    requires |cs| == |ms| && k <= |cs| && forall i :: 0 <= i < |ms| ==> Silent(ms[i])
    ensures SolvesChain(cs[..k], xs, Tap(cs, ms, xs, k))
  {
    if k == 0 {
      assert Tap(cs, ms, xs, 0) == xs;
    } else {
      hide Solves, Silent, Stream, Tap;
      TapSolvesChain(cs, ms, xs, k - 1);
      TapIsSectionOfTap(cs, ms, xs, k - 1);
      var mid := Tap(cs, ms, xs, k - 1);
      StreamSolves(cs[k - 1], ms[k - 1], mid);
      assert Front(cs[..k]) == cs[..k - 1];
      assert SolvesChain(Front(cs[..k]), xs, mid) && Solves(Last(cs[..k]), mid, Tap(cs, ms, xs, k));
    }
  }

  lemma {:induction false} ChainUnique(cs: seq<Coeffs>, xs: seq<real>, ys: seq<real>, zs: seq<real>)
    requires SolvesChain(cs, xs, ys) && SolvesChain(cs, xs, zs)
    ensures ys == zs
    decreases |cs|
  {
    if cs != [] {
      hide Solves;
      var u :| SolvesChain(Front(cs), xs, u) && Solves(Last(cs), u, ys);
      var v :| SolvesChain(Front(cs), xs, v) && Solves(Last(cs), v, zs);
      ChainUnique(Front(cs), xs, u, v);
      AllFormsAgree(Last(cs), Direct(0.0, 0.0, 0.0, 0.0), u, ys);
      AllFormsAgree(Last(cs), Direct(0.0, 0.0, 0.0, 0.0), u, zs);
    }
  }

  /** A silent cascade, whatever the arrangement of each section, is the chain of its difference
      equations and nothing else. */
  lemma CascadeSolvesChain(cs: seq<Coeffs>, ms: seq<Memory>, xs: seq<real>, ys: seq<real>)
    requires |cs| == |ms| && forall i :: 0 <= i < |ms| ==> Silent(ms[i])
    ensures SolvesChain(cs, xs, ys) <==> ys == CascadeStream(cs, ms, xs)
  {
    hide SolvesChain, Silent;
    TapSolvesChain(cs, ms, xs, |cs|);
    assert cs[..|cs|] == cs;
    if SolvesChain(cs, xs, ys) {
      ChainUnique(cs, xs, ys, CascadeStream(cs, ms, xs));
    }
  }

  // ---- cutting a stream in two ----

  /** What the cascade remembers after the whole stream. */
  ghost function After(cs: seq<Coeffs>, ms: seq<Memory>, xs: seq<real>): (r: seq<Memory>)
    requires |cs| == |ms|
    ensures |r| == |ms|
  {
    MemoriesAt(cs, ms, xs, |xs|)
  }

  lemma {:induction false} MemoriesOfPrefix(cs: seq<Coeffs>, ms: seq<Memory>, us: seq<real>, vs: seq<real>, n: nat)
    requires |cs| == |ms| && n <= |us|
    ensures MemoriesAt(cs, ms, us + vs, n) == MemoriesAt(cs, ms, us, n)
  {
    hide Advance;
    if n != 0 {
      MemoriesOfPrefix(cs, ms, us, vs, n - 1);
    }
  }

  lemma {:induction false} MemoriesOfConcat(cs: seq<Coeffs>, ms: seq<Memory>, us: seq<real>, vs: seq<real>, n: nat)
    requires |cs| == |ms| && n <= |vs|
    ensures MemoriesAt(cs, ms, us + vs, |us| + n) == MemoriesAt(cs, After(cs, ms, us), vs, n)
  {
    hide Advance;
    if n == 0 {
      MemoriesOfPrefix(cs, ms, us, vs, |us|);
    } else {
      MemoriesOfConcat(cs, ms, us, vs, n - 1);
    }
  }

  /** Filtering two streams one after the other is filtering their concatenation. */
  lemma CascadeOfConcat(cs: seq<Coeffs>, ms: seq<Memory>, us: seq<real>, vs: seq<real>)
    requires |cs| == |ms|
    ensures CascadeStream(cs, ms, us + vs) == CascadeStream(cs, ms, us) + CascadeStream(cs, After(cs, ms, us), vs)
    ensures After(cs, ms, us + vs) == After(cs, After(cs, ms, us), vs)
  {
    hide MemoriesAt, After, Through;
    forall n | 0 <= n < |us + vs|
      ensures Tap(cs, ms, us + vs, |cs|)[n] == (Tap(cs, ms, us, |cs|) + Tap(cs, After(cs, ms, us), vs, |cs|))[n]
    {
      if n < |us| {
        MemoriesOfPrefix(cs, ms, us, vs, n);
      } else {
        MemoriesOfConcat(cs, ms, us, vs, n - |us|);
      }
    }
    AfterConcat(cs, ms, us, vs);
  }

  lemma AfterConcat(cs: seq<Coeffs>, ms: seq<Memory>, us: seq<real>, vs: seq<real>)
    requires |cs| == |ms|
    ensures After(cs, ms, us + vs) == After(cs, After(cs, ms, us), vs)
  {
    hide MemoriesAt, Advance;
    assert |us + vs| == |us| + |vs|;
    MemoriesOfConcat(cs, ms, us, vs, |vs|);
  }

  /** A stream of one sample. */
  lemma CascadeOfOne(cs: seq<Coeffs>, ms: seq<Memory>, x: real)
    requires |cs| == |ms|
    ensures CascadeStream(cs, ms, [x]) == [Through(cs, ms, x, |cs|)]
    ensures After(cs, ms, [x]) == Advance(cs, ms, x)
  {
    hide Through, Advance;
    assert MemoriesAt(cs, ms, [x], 0) == ms;
    assert MemoriesAt(cs, ms, [x], 1) == Advance(cs, ms, [x][0]);
  }

  // ---- the two programs for one section ----

  /** `Bq` of `tools/binaural_harness.c`: the transposed arrangement. */
  class TransposedSection {
    var c: Coeffs
    var z1: real
    var z2: real

    function State(): Memory
      reads this
    {
      Transposed(z1, z2)
    }

    constructor (c: Coeffs)
      ensures this.c == c && Silent(State())
    {
      this.c := c;
      z1, z2 := 0.0, 0.0;
    }

    method Run(x: real) returns (y: real)
      modifies this
      ensures c == old(c) && y == Out(c, old(State()), x) && State() == Next(c, old(State()), x)
    {
      y := c.b0 * x + z1;
      z1 := c.b1 * x - c.a1 * y + z2;
      z2 := c.b2 * x - c.a2 * y;
    }
  }

  /** `BassExciterDsp::biquad`: the direct arrangement over a four-element history. */
  method RunDirect(c: Coeffs, z: array<real>, x: real) returns (y: real)
    requires z.Length == 4
    modifies z
    ensures y == Out(c, old(Direct(z[0], z[1], z[2], z[3])), x)
    ensures Direct(z[0], z[1], z[2], z[3]) == Next(c, old(Direct(z[0], z[1], z[2], z[3])), x)
  {
    y := c.b0 * x + c.b1 * z[0] + c.b2 * z[1] - c.a1 * z[2] - c.a2 * z[3];
    z[1] := z[0];
    z[0] := x;
    z[3] := z[2];
    z[2] := y;
  }
}
