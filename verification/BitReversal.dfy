/**
 The bit-reversal permutation, in the two forms the repository computes it: the carry-style
 update of an in-place FFT (`tools/reverb_harness.c`) and the shift loop that fills a table
 (`tools/binaural_harness.c`).
 */
module BitReversal {
  import opened Naturals

  function Pow2(b: nat): (r: nat)
    ensures 1 <= r
  {
    if b == 0 then 1 else 2 * Pow2(b - 1)
  }

  /** The number whose b binary digits are those of i in the opposite order. */
  function Rev(i: nat, b: nat): (r: nat)
    requires i < Pow2(b)
    ensures r < Pow2(b)
  {
    if b == 0 then 0 else (if i % 2 == 1 then Pow2(b - 1) else 0) + Rev(i / 2, b - 1)
  }

  /** `j & bit` for a one-bit mask (or the empty mask 0). */
  predicate HasBit(j: nat, bit: nat) {
    bit != 0 && (j / bit) % 2 == 1
  }

  /** `j ^ bit` for a one-bit mask (or the empty mask 0). */
  function FlipBit(j: nat, bit: nat): nat {
    if HasBit(j, bit) then HasBitAtLeast(j, bit); j - bit else j + bit
  }

  lemma HasBitAtLeast(j: nat, bit: nat)
    requires HasBit(j, bit)
    ensures bit <= j
  {
    if j < bit {
      QuotientUnique(j, bit, 0, j);
      assert false;
    }
  }

  /** What the carry loop leaves in j: clear the leading ones from `bit` downwards, set the next bit. */
  ghost function Carry(j: nat, bit: nat): nat
    decreases bit
  {
    if HasBit(j, bit) then Carry(FlipBit(j, bit), bit / 2) else FlipBit(j, bit)
  }

  lemma QuotientBelowTwo(r: nat, bit: nat)
    requires r < bit
    ensures r / bit == 0 && (r + bit) / bit == 1
  {
    assert (r + bit) / bit == 1 by {
      assert r + bit == bit * 1 + r;
      QuotientUnique(r + bit, bit, 1, r);
    }
  }

  /** One carry update takes the reversal of i - 1 to the reversal of i. */
  lemma {:induction false} CarryAdvances(i: nat, b: nat)
    requires 0 < i < Pow2(b)
    ensures Carry(Rev(i - 1, b), Pow2(b) / 2) == Rev(i, b)
  {
    if b != 0 {
      var bit := Pow2(b - 1);
      assert Pow2(b) / 2 == bit;
      var half := Rev((i - 1) / 2, b - 1);
      QuotientBelowTwo(half, bit);
      if i % 2 == 1 {
        assert (i - 1) / 2 == i / 2;
        assert Rev(i - 1, b) == half;
        assert !HasBit(half, bit);
      } else {
        assert (i - 1) % 2 == 1;
        assert (i - 1) / 2 == i / 2 - 1;
        assert Rev(i - 1, b) == bit + half;
        assert HasBit(bit + half, bit);
        CarryAdvances(i / 2, b - 1);
      }
    }
  }

  /** Reversal read from the most significant digit instead of the least. */
  lemma {:induction false} RevFromTop(i: nat, b: nat)
    requires 0 < b && i < Pow2(b)
    ensures Rev(i, b) == if i < Pow2(b - 1) then 2 * Rev(i, b - 1) else 2 * Rev(i - Pow2(b - 1), b - 1) + 1
    decreases b
  {
    if b > 1 {
      RevFromTop(i / 2, b - 1);
      var half := Pow2(b - 2);
      if Pow2(b - 1) <= i {
        assert (i - 2 * half) / 2 == i / 2 - half;
        assert (i - 2 * half) % 2 == i % 2;
      }
    }
  }

  /** Reversing twice gives the index back, so the permutation is its own inverse. */
  lemma {:induction false} RevIsInvolution(i: nat, b: nat)
    requires i < Pow2(b)
    ensures Rev(Rev(i, b), b) == i
  {
    if b != 0 {
      RevIsInvolution(i / 2, b - 1);
      RevFromTop(Rev(i, b), b);
    }
  }

  /** The sequence rearranged by bit reversal. */
  ghost function BitReversed<T>(s: seq<T>, b: nat): (r: seq<T>)
    requires |s| == Pow2(b)
    ensures |r| == |s|
  {
    seq(|s|, i requires 0 <= i < |s| => s[Rev(i, b)])
  }

  ghost predicate Involution(r: seq<nat>) {
    forall p :: 0 <= p < |r| ==> r[p] < |r| && r[r[p]] == p
  }

  ghost function RevIndices(b: nat): (r: seq<nat>)
    ensures |r| == Pow2(b) && Involution(r)
    ensures forall p :: 0 <= p < |r| ==> r[p] == Rev(p, b)
  {
    var r := seq(Pow2(b), i requires 0 <= i < Pow2(b) => Rev(i, b));
    assert forall p :: 0 <= p < |r| ==> r[p] < |r| && r[r[p]] == p by {
      forall p | 0 <= p < |r| ensures r[p] < |r| && r[r[p]] == p {
        RevIsInvolution(p, b);
      }
    }
    r
  }

  /** What guarded swapping has done to `was` once it has handled the indices up to `done`. */
  ghost predicate SwappedUpTo(now: seq<real>, was: seq<real>, r: seq<nat>, done: int) {
    && |now| == |was| == |r| && Involution(r)
    && forall p :: 0 <= p < |now| ==> now[p] == if p <= done || r[p] <= done then was[r[p]] else was[p]
  }

  lemma SwapStep(before: seq<real>, after: seq<real>, was: seq<real>, r: seq<nat>, i: nat)
    requires i < |r| && SwappedUpTo(before, was, r, i - 1)
    requires after == if i < r[i] then before[i := before[r[i]]][r[i] := before[i]] else before
    ensures SwappedUpTo(after, was, r, i)
  {
    forall p | 0 <= p < |after|
      ensures after[p] == if p <= i || r[p] <= i then was[r[p]] else was[p]
    {
      assert r[r[p]] == p && r[r[i]] == i;
    }
  }

  /** One carry update of j, by the source's inner loop. */
  method NextReversed(j0: nat, n: nat, ghost i: nat, ghost b: nat) returns (j: nat)
    requires 0 < i < n == Pow2(b) && j0 == Rev(i - 1, b)
    ensures j == Rev(i, b)
  {
    j := j0;
    var bit: nat := n / 2;
    while HasBit(j, bit)
      invariant Carry(j, bit) == Carry(j0, n / 2)
      decreases bit
    {
      j := FlipBit(j, bit);
      bit := bit / 2;
    }
    j := FlipBit(j, bit);
    CarryAdvances(i, b);
  }

  method GuardedSwap(a: array<real>, i: nat, j: nat)
    requires i < a.Length && j < a.Length
    modifies a
    ensures a[..] == old(if i < j then a[..][i := a[j]][j := a[i]] else a[..])
  {
    if i < j {
      var t := a[i];
      a[i] := a[j];
      a[j] := t;
    }
  }

  /** The permutation half of `fft`: a carry-style update of j and a guarded swap per index. */
  method BitReverse(re: array<real>, im: array<real>, n: int, ghost b: nat)
    requires re != im && re.Length == im.Length == n == Pow2(b)
    modifies re, im
    ensures re[..] == BitReversed(old(re[..]), b)
    ensures im[..] == BitReversed(old(im[..]), b)
  {
    hide Rev, Pow2, Carry, HasBit, FlipBit, SwappedUpTo, Involution;
    ghost var re0, im0, r := re[..], im[..], RevIndices(b);
    var i, j := 1, 0;
    RevOfZero(b);
    NothingSwapped(re0, r);
    NothingSwapped(im0, r);
    while i < n
      invariant 1 <= i <= n && j == Rev(i - 1, b)
      invariant SwappedUpTo(re[..], re0, r, i - 1) && SwappedUpTo(im[..], im0, r, i - 1)
    {
      j := NextReversed(j, n, i, b);
      ghost var re1, im1 := re[..], im[..];
      GuardedSwap(re, i, j);
      GuardedSwap(im, i, j);
      SwapStep(re1, re[..], re0, r, i);
      SwapStep(im1, im[..], im0, r, i);
      i := i + 1;
    }
    AllSwapped(re[..], re0, r, b);
    AllSwapped(im[..], im0, r, b);
  }

  lemma NothingSwapped(s: seq<real>, r: seq<nat>)
    requires |s| == |r| && 0 < |r| && Involution(r) && r[0] == 0
    ensures SwappedUpTo(s, s, r, 0)
  {
    assert forall p :: 0 <= p < |r| && r[p] <= 0 ==> r[r[p]] == p == r[0];
  }

  lemma AllSwapped(now: seq<real>, was: seq<real>, r: seq<nat>, b: nat)
    requires SwappedUpTo(now, was, r, |r| - 1) && |r| == Pow2(b)
    requires forall p :: 0 <= p < |r| ==> r[p] == Rev(p, b)
    ensures now == BitReversed(was, b)
  {
    hide Rev, Pow2;
  }

  lemma {:induction false} RevOfZero(b: nat)
    ensures Rev(0, b) == 0
  {
    if b != 0 {
      RevOfZero(b - 1);
    }
  }

  /** Moving the low digit of v onto the end of r, as the table's shift loop does. */
  lemma {:induction false} RevAppendsDigit(i: nat, b: nat)
    requires i < Pow2(b + 1)
    ensures i % Pow2(b) < Pow2(b) && i / Pow2(b) < 2
    ensures Rev(i, b + 1) == 2 * Rev(i % Pow2(b), b) + i / Pow2(b)
  {
    RevFromTop(i, b + 1);
    if i < Pow2(b) {
      QuotientUnique(i, Pow2(b), 0, i);
    } else {
      QuotientUnique(i, Pow2(b), 1, i - Pow2(b));
    }
  }

  lemma LowDigits(i: nat, b: nat)
    ensures i % Pow2(b + 1) == i % Pow2(b) + (if (i / Pow2(b)) % 2 == 1 then Pow2(b) else 0)
    ensures i / Pow2(b + 1) == (i / Pow2(b)) / 2
  {
    var p := Pow2(b);
    assert Pow2(b + 1) == 2 * p;
    hide Pow2;
    HalveQuotient(i, p, i / p, i % p);
  }

  lemma PairsOf(p: nat, h: nat)
    ensures p * (2 * h) == (2 * p) * h && p * (2 * h + 1) == (2 * p) * h + p
  {
  }

  lemma HalveQuotient(i: nat, p: nat, q: nat, low: nat)
    requires low < p && i == p * q + low
    ensures i % (2 * p) == low + (if q % 2 == 1 then p else 0)
    ensures i / (2 * p) == q / 2
  {
    var h := q / 2;
    var rest := low + if q % 2 == 1 then p else 0;
    PairsOf(p, h);
    assert q == 2 * h || q == 2 * h + 1;
    assert i == (2 * p) * h + rest;
    QuotientUnique(i, 2 * p, h, rest);
  }

  /** One entry of the table: peel `bits` digits off v, pushing each onto r. */
  method ReverseByShifting(i: nat, bits: nat) returns (r: nat)
    requires i < Pow2(bits)
    ensures r == Rev(i, bits)
  {
    var v := i;
    r := 0;
    for k := 0 to bits
      invariant r == Rev(i % Pow2(k), k)
      invariant v == i / Pow2(k)
    {
      LowDigits(i, k);
      RevAppendsDigit(i % Pow2(k + 1), k);
      ghost var low := i % Pow2(k);
      QuotientUnique(i % Pow2(k + 1), Pow2(k), v % 2, low);
      r := r * 2 + v % 2;
      v := v / 2;
    }
    QuotientUnique(i, Pow2(bits), 0, i);
  }

  const TABLE_BITS: nat := 12
  const TABLE_SIZE: nat := 4096

  /** The table `w_rev`: the same permutation as the carry-style loop performs for n = 4096. */
  method FillTable(rev: array<nat>)
    requires rev.Length == TABLE_SIZE
    modifies rev
    ensures Pow2(TABLE_BITS) == TABLE_SIZE
    ensures forall i :: 0 <= i < TABLE_SIZE ==> rev[i] == Rev(i, TABLE_BITS)
  {
    assert Pow2(4) == 16;
    assert Pow2(8) == 256;
    for i := 0 to TABLE_SIZE
      invariant forall p :: 0 <= p < i ==> rev[p] == Rev(p, TABLE_BITS)
    {
      var r := ReverseByShifting(i, TABLE_BITS);
      rev[i] := r;
    }
  }
}
