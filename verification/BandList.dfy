/**
 `MultibandDistSetBands` of `vst/src/engine/multibandDist.c`: how a list of drawn bands becomes the
 sections of the band-select cascade.
 */
module BandList {
  import opened Biquads

  const MAX_BANDS: nat := 24
  const MAX_CUTOFF_STAGES: nat := 8
  const LOW_PASS: int := 3
  const HIGH_PASS: int := 4

  /** Four numbers per band, as the editor sends them. */
  datatype Band = Band(freq: real, gain: real, q: real, kind: real)

  /** What one section is designed from. */
  datatype Request = Request(kind: int, freq: real, gain: real, q: real)

  /** The filter design, whose numeric values are not modelled: the cookbook formulas at one rate, and
      the Q of section k in a Butterworth cascade of n sections. */
  datatype Designer = Designer(coeffs: Request -> Coeffs, sectionQ: (nat, nat) -> real)

  /** The conversion to `int`, which drops the fraction. */
  function Truncated(x: real): int {
    if x < 0.0 then -(-x).Floor else x.Floor
  }

  predicate IsCutoff(kind: int) { kind == LOW_PASS || kind == HIGH_PASS }

  /** How many sections a cutoff of this slope is built from. */
  function Stages(slope: real): (n: nat)
    ensures 1 <= n <= MAX_CUTOFF_STAGES
  {
    var s := if slope < 6.0 then 48.0 else slope;
    var n := Truncated(s / 12.0 + 0.5);
    if n < 1 then 1 else if n > MAX_CUTOFF_STAGES then MAX_CUTOFF_STAGES else n
  }

  /** Rounding to the nearest number of sections, clamped; slopes under 6 read as 48. */
  lemma StagesRound(slope: real)
    ensures slope < 6.0 ==> Stages(slope) == 4
    ensures 6.0 <= slope < 102.0 ==> -6.0 <= slope - 12.0 * Stages(slope) as real < 6.0
    ensures 90.0 <= slope ==> Stages(slope) == MAX_CUTOFF_STAGES
  {
  }

  /** Section k of a cutoff; the band's own Q rides on the last one. */
  function CutoffRequest(ds: Designer, b: Band, k: nat, stages: nat): Request {
    var q := ds.sectionQ(k, stages);
    Request(Truncated(b.kind), b.freq, 0.0, if k + 1 == stages then q * (b.q / 0.70710678) else q)
  }

  function BandSize(b: Band): (n: nat)
    ensures 1 <= n
  {
    if IsCutoff(Truncated(b.kind)) then Stages(b.gain) else 1
  }

  /** All sections of one band, with no regard to how many fit. */
  function Expansion(ds: Designer, b: Band): (r: seq<Request>)
    ensures |r| == BandSize(b)
  {
    if IsCutoff(Truncated(b.kind)) then
      seq(Stages(b.gain), k requires 0 <= k => CutoffRequest(ds, b, k, Stages(b.gain)))
    else [Request(Truncated(b.kind), b.freq, b.gain, b.q)]
  }

  /** A cutoff is its band's kind and frequency, section by section, with no gain; at the neutral Q each
      section has the Q of its place in a Butterworth cascade. */
  lemma CutoffSections(ds: Designer, b: Band)
    requires IsCutoff(Truncated(b.kind))
    ensures var e := Expansion(ds, b);
            && |e| == Stages(b.gain)
            && (forall k :: 0 <= k < |e| ==> e[k].kind == Truncated(b.kind) && e[k].freq == b.freq && e[k].gain == 0.0)
            && (b.q == 0.70710678 ==> forall k :: 0 <= k < |e| ==> e[k].q == ds.sectionQ(k, |e|))
  {
  }

  /** The band's own Q rides on the last section and on no other, in proportion. */
  lemma CutoffResonance(ds: Designer, b: Band, b': Band)
    requires IsCutoff(Truncated(b.kind)) && b' == b.(q := b'.q)
    ensures var e, e' := Expansion(ds, b), Expansion(ds, b');
            var last := |e| - 1;
            && |e'| == |e| && e'[..last] == e[..last] && e'[last] == e[last].(q := e'[last].q)
            && e[last].q * b'.q == e'[last].q * b.q
  {
    var n := Stages(b.gain);
    var q := ds.sectionQ(n - 1, n);
    ResonanceInProportion(q, b.q, b'.q);
  }

  lemma ResonanceInProportion(q: real, x: real, y: real)
    ensures (q * (x / 0.70710678)) * y == (q * (y / 0.70710678)) * x
  {
  }

  /** Any other band is one section with its own four numbers. */
  lemma SingleSection(ds: Designer, b: Band)
    requires !IsCutoff(Truncated(b.kind))
    ensures var e := Expansion(ds, b);
            |e| == 1 && (e[0].kind, e[0].freq, e[0].gain, e[0].q) == (Truncated(b.kind), b.freq, b.gain, b.q)
  {
  }

  /** The kinds with a slope are the low pass and the high pass; fractions are dropped toward zero. */
  lemma KindOf(x: real, k: int)
    ensures 0 <= k && k as real <= x < k as real + 1.0 ==> Truncated(x) == k && (IsCutoff(k) <==> 3 <= k <= 4)
    ensures k <= 0 && k as real - 1.0 < x <= k as real ==> Truncated(x) == k
  {
  }

  function ExpandAll(ds: Designer, bands: seq<Band>): seq<Request>
    decreases |bands|
  {
    if bands == [] then [] else ExpandAll(ds, bands[..|bands| - 1]) + Expansion(ds, bands[|bands| - 1])
  }

  function Designed(ds: Designer, rs: seq<Request>): (cs: seq<Coeffs>)
    ensures |cs| == |rs|
  {
    seq(|rs|, k requires 0 <= k < |rs| => ds.coeffs(rs[k]))
  }

  function AtMost<T>(s: seq<T>, n: nat): (r: seq<T>)
    ensures |r| == if |s| <= n then |s| else n
  {
    if |s| <= n then s else s[..n]
  }

  /** The sections a band list stands for: the first 24 of the concatenated expansions. */
  function Loaded(ds: Designer, bands: seq<Band>): seq<Coeffs> {
    Designed(ds, AtMost(ExpandAll(ds, bands), MAX_BANDS))
  }

  lemma {:induction false} ExpandAllConcat(ds: Designer, bands: seq<Band>, more: seq<Band>)
    ensures ExpandAll(ds, bands) <= ExpandAll(ds, bands + more)
    decreases |more|
  {
    if more == [] {
      assert bands + more == bands;
    } else {
      var rest := more[..|more| - 1];
      assert (bands + more)[..|bands + more| - 1] == bands + rest;
      ExpandAllConcat(ds, bands, rest);
    }
  }

  /** Bands added at the end never change the sections loaded for the earlier ones. */
  lemma LaterBandsOnlyAppend(ds: Designer, bands: seq<Band>, more: seq<Band>)
    ensures Loaded(ds, bands) <= Loaded(ds, bands + more)
  {
    hide ExpandAll;
    ExpandAllConcat(ds, bands, more);
  }

  /** The first slots hold the designs of `rs`, the others are as before. */
  ghost predicate Written(now: seq<Coeffs>, was: seq<Coeffs>, ds: Designer, rs: seq<Request>) {
    && |now| == |was| == MAX_BANDS && |rs| <= MAX_BANDS
    && now == Designed(ds, rs) + was[|rs|..]
  }

  lemma WriteOne(now: seq<Coeffs>, was: seq<Coeffs>, ds: Designer, rs: seq<Request>, r: Request)
    requires Written(now, was, ds, rs) && |rs| < MAX_BANDS
    ensures Written(now[|rs| := ds.coeffs(r)], was, ds, rs + [r])
  {
  }

  lemma AtMostAppend<T>(s: seq<T>, t: seq<T>, k: nat, n: nat)
    requires k < |t|
    ensures |AtMost(s + t[..k], n)| < n ==> AtMost(s + t[..k + 1], n) == AtMost(s + t[..k], n) + [t[k]]
    ensures |AtMost(s + t[..k], n)| == n ==> AtMost(s + t, n) == AtMost(s + t[..k], n)
  {
  }

  lemma AtMostFull<T>(s: seq<T>, t: seq<T>, n: nat)
    requires |AtMost(s, n)| == n
    ensures AtMost(s + t, n) == AtMost(s, n)
  {
  }

  lemma {:induction false} FullStaysFull(ds: Designer, bands: seq<Band>, i: nat)
    requires i <= |bands| && |AtMost(ExpandAll(ds, bands[..i]), MAX_BANDS)| == MAX_BANDS
    ensures AtMost(ExpandAll(ds, bands), MAX_BANDS) == AtMost(ExpandAll(ds, bands[..i]), MAX_BANDS)
    decreases |bands| - i
  {
    if i < |bands| {
      OneMoreBand(ds, bands, i);
      AtMostFull(ExpandAll(ds, bands[..i]), Expansion(ds, bands[i]), MAX_BANDS);
      FullStaysFull(ds, bands, i + 1);
    } else {
      assert bands[..i] == bands;
    }
  }

  lemma OneMoreBand(ds: Designer, bands: seq<Band>, i: nat)
    requires i < |bands|
    ensures ExpandAll(ds, bands[..i + 1]) == ExpandAll(ds, bands[..i]) + Expansion(ds, bands[i])
  {
    assert bands[..i + 1][..i] == bands[..i];
  }

  lemma WrittenMeans(now: seq<Coeffs>, was: seq<Coeffs>, ds: Designer, rs: seq<Request>)
    requires Written(now, was, ds, rs)
    ensures |rs| <= |was| && now == Designed(ds, rs) + was[|rs|..]
  {
  }

  lemma SingleExpansion(ds: Designer, b: Band, before: seq<Request>)
    requires !IsCutoff(Truncated(b.kind)) && |AtMost(before, MAX_BANDS)| < MAX_BANDS
    ensures Expansion(ds, b) == [Request(Truncated(b.kind), b.freq, b.gain, b.q)]
    ensures AtMost(before + Expansion(ds, b), MAX_BANDS) == AtMost(before, MAX_BANDS) + [Expansion(ds, b)[0]]
  {
  }

  /** Filter states with the slots about to come into use cleared and the others kept. */
  function Silenced(zs: seq<Memory>, previous: nat, written: nat): (r: seq<Memory>)
    ensures |r| == |zs|
  {
    seq(|zs|, k requires 0 <= k < |zs| => if previous <= k < written then Transposed(0.0, 0.0) else zs[k])
  }

  // ---- the slots, store by store ----

  datatype Cell = B0 | B1 | B2 | A1 | A2

  function WithCell(c: Coeffs, cell: Cell, v: real): Coeffs {
    match cell
    case B0 => c.(b0 := v)
    case B1 => c.(b1 := v)
    case B2 => c.(b2 := v)
    case A1 => c.(a1 := v)
    case A2 => c.(a2 := v)
  }

  function WithState(m: Memory, second: bool, v: real): Memory {
    match m
    case Transposed(z1, z2) => if second then Transposed(z1, v) else Transposed(v, z2)
    case _ => m
  }

  /** One store of a float, or of the count. */
  datatype Store =
    | Coefficient(slot: nat, cell: Cell, value: real)
    | FilterState(right: bool, slot: nat, second: bool, value: real)
    | Publish(number: nat)

  /** What the audio thread sees if it looks between two stores. */
  datatype View = View(count: nat, coeffs: seq<Coeffs>, left: seq<Memory>, right: seq<Memory>)

  function RewriteState(ms: seq<Memory>, slot: nat, second: bool, v: real): (r: seq<Memory>)
    ensures |r| == |ms|
  {
    if slot < |ms| then ms[slot := WithState(ms[slot], second, v)] else ms
  }

  function Stored(v: View, s: Store): View {
    match s
    case Coefficient(k, cell, x) =>
      if k < |v.coeffs| then v.(coeffs := v.coeffs[k := WithCell(v.coeffs[k], cell, x)]) else v
    case FilterState(right, k, second, x) =>
      if right then v.(right := RewriteState(v.right, k, second, x)) else v.(left := RewriteState(v.left, k, second, x))
    case Publish(n) => v.(count := n)
  }

  function ViewAfter(v: View, stores: seq<Store>): View
    decreases |stores|
  {
    if stores == [] then v else Stored(ViewAfter(v, stores[..|stores| - 1]), stores[|stores| - 1])
  }

  /** A store that neither changes the count nor the filter state of a slot in use. */
  predicate Preparatory(s: Store, inUse: nat) {
    !s.Publish? && (s.FilterState? ==> inUse <= s.slot)
  }

  ghost predicate AllPreparatory(stores: seq<Store>, inUse: nat) {
    forall i :: 0 <= i < |stores| ==> Preparatory(stores[i], inUse)
  }

  /** Slots in use keep their filter state. */
  ghost predicate KeepsStates(v: View, before: View) {
    && |v.left| == |before.left| && |v.right| == |before.right|
    && (forall k :: 0 <= k < before.count && k < |v.left| ==> v.left[k] == before.left[k])
    && (forall k :: 0 <= k < before.count && k < |v.right| ==> v.right[k] == before.right[k])
  }

  /** Every slot below the count holds its section, and those that were not in use before are silent. */
  ghost predicate Complete(v: View, inUse: nat, loaded: seq<Coeffs>) {
    && v.count == |loaded| && v.count <= |v.coeffs| && v.count <= |v.left| && v.count <= |v.right|
    && v.coeffs[..v.count] == loaded
    && forall k :: inUse <= k < v.count ==> v.left[k] == v.right[k] == Transposed(0.0, 0.0)
  }

  /** What may be seen at any time while the bands are replaced: the old count, or a complete set. */
  ghost predicate NeverHalfBuilt(v: View, before: View, loaded: seq<Coeffs>) {
    KeepsStates(v, before) && (v.count == before.count || Complete(v, before.count, loaded))
  }

  lemma {:induction false} PreparingIsInvisible(v: View, stores: seq<Store>)
    requires AllPreparatory(stores, v.count)
    ensures ViewAfter(v, stores).count == v.count && KeepsStates(ViewAfter(v, stores), v)
    decreases |stores|
  {
    if stores != [] {
      PreparingIsInvisible(v, stores[..|stores| - 1]);
    }
  }

  /** Stores that only prepare, then the count: no prefix of them shows a half-built set. */
  lemma PublishedLast(before: View, stores: seq<Store>, loaded: seq<Coeffs>)
    requires AllPreparatory(stores, before.count)
    requires Complete(ViewAfter(before, stores).(count := |loaded|), before.count, loaded)
    ensures forall i :: 0 <= i <= |stores| + 1 ==>
              NeverHalfBuilt(ViewAfter(before, (stores + [Publish(|loaded|)])[..i]), before, loaded)
  {
    var all := stores + [Publish(|loaded|)];
    forall i | 0 <= i <= |all| ensures NeverHalfBuilt(ViewAfter(before, all[..i]), before, loaded) {
      if i <= |stores| {
        assert all[..i] == stores[..i];
        PreparingIsInvisible(before, stores[..i]);
      } else {
        assert all[..i] == all && all[..|all| - 1] == stores;
        PreparingIsInvisible(before, stores);
        assert ViewAfter(before, all) == ViewAfter(before, stores).(count := |loaded|);
        hide ViewAfter, Complete;
      }
    }
  }

  /** The coefficient arrays, the filter states of both channels and the count in use, as the audio
      thread reads them. Each writer makes one store and records it. */
  class BandSlots {
    var count: nat
    const coeffs: array<Coeffs>
    const left: array<Memory>
    const right: array<Memory>
    ghost var before: View
    ghost var stores: seq<Store>

    constructor (left: array<Memory>, right: array<Memory>)
      ensures count == 0 && this.left == left && this.right == right
      ensures fresh(coeffs) && coeffs.Length == MAX_BANDS
    {
      count := 0;
      coeffs := new Coeffs[MAX_BANDS](_ => Coeffs(0.0, 0.0, 0.0, 0.0, 0.0));
      this.left, this.right := left, right;
    }

    ghost predicate Shaped()
      reads this, left, right
    {
      && coeffs.Length == left.Length == right.Length == MAX_BANDS && left != right && count <= MAX_BANDS
      && AllTransposed(left[..]) && AllTransposed(right[..])
    }

    ghost function Now(): View
      reads this, coeffs, left, right
    {
      View(count, coeffs[..], left[..], right[..])
    }

    /** The recorded stores are what turned the slots from what they were into what they are. */
    ghost predicate Watched()
      reads this, coeffs, left, right
    {
      Shaped() && Now() == ViewAfter(before, stores)
    }

    /** All of them were preparations. */
    ghost predicate Preparing()
      reads this, coeffs, left, right
    {
      Watched() && AllPreparatory(stores, before.count)
    }

    ghost method Watch()
      requires Shaped()
      modifies `before, `stores
      ensures Preparing() && before == Now() && stores == []
    {
      before, stores := Now(), [];
    }

    lemma Record(s: Store, was: View)
      requires was == ViewAfter(before, stores)
      ensures ViewAfter(before, stores + [s]) == Stored(was, s)
      ensures AllPreparatory(stores, before.count) && Preparatory(s, before.count) ==>
                AllPreparatory(stores + [s], before.count)
    {
      assert (stores + [s])[..|stores|] == stores;
      hide Stored;
    }

    method StoreCoefficient(slot: nat, cell: Cell, v: real)
      requires Preparing() && slot < MAX_BANDS
      modifies `stores, coeffs
      ensures Preparing() && coeffs[..] == old(coeffs[..])[slot := WithCell(old(coeffs[slot]), cell, v)]
    {
      hide ViewAfter, AllPreparatory, WithCell, AllTransposed;
      Record(Coefficient(slot, cell, v), Now());
      coeffs[slot] := WithCell(coeffs[slot], cell, v);
      stores := stores + [Coefficient(slot, cell, v)];
    }

    method StoreState(toRight: bool, slot: nat, second: bool, v: real)
      requires Preparing() && before.count <= slot < MAX_BANDS
      modifies `stores, left, right
      ensures Preparing()
      ensures left[..] == if toRight then old(left[..]) else RewriteState(old(left[..]), slot, second, v)
      ensures right[..] == if toRight then RewriteState(old(right[..]), slot, second, v) else old(right[..])
    {
      hide ViewAfter, AllPreparatory;
      Record(FilterState(toRight, slot, second, v), Now());
      if toRight {
        right[slot] := WithState(right[slot], second, v);
      } else {
        left[slot] := WithState(left[slot], second, v);
      }
      stores := stores + [FilterState(toRight, slot, second, v)];
    }

    method StoreCount(n: nat)
      requires Preparing() && n <= MAX_BANDS
      modifies `count, `stores
      ensures Watched() && count == n && stores == old(stores) + [Publish(n)]
    {
      hide ViewAfter, AllPreparatory, AllTransposed;
      Record(Publish(n), Now());
      count := n;
      stores := stores + [Publish(n)];
    }

    /** The five stores at the end of `mbdBiquadCoeffs`. */
    method StoreSection(slot: nat, c: Coeffs)
      requires Preparing() && slot < MAX_BANDS
      modifies `stores, coeffs
      ensures Preparing() && coeffs[..] == old(coeffs[..])[slot := c]
    {
      assert |coeffs[..]| == MAX_BANDS;
      hide Preparing;
      StoreCoefficient(slot, B0, c.b0);
      StoreCoefficient(slot, B1, c.b1);
      StoreCoefficient(slot, B2, c.b2);
      StoreCoefficient(slot, A1, c.a1);
      StoreCoefficient(slot, A2, c.a2);
      assert coeffs[..][slot] == c;
    }

    /** One cutoff: as many of its sections as still fit. */
    method LoadCutoff(ds: Designer, b: Band, written0: nat, ghost was: seq<Coeffs>, ghost earlier: seq<Request>)
      returns (written: nat)
      requires IsCutoff(Truncated(b.kind)) && Preparing()
      requires written0 == |AtMost(earlier, MAX_BANDS)| && Written(coeffs[..], was, ds, AtMost(earlier, MAX_BANDS))
      modifies `stores, coeffs
      ensures Preparing() && written == |AtMost(earlier + Expansion(ds, b), MAX_BANDS)|
      ensures Written(coeffs[..], was, ds, AtMost(earlier + Expansion(ds, b), MAX_BANDS))
    {
      hide Written, Truncated, Stages, Preparing;
      ghost var t := Expansion(ds, b);
      var stages := Stages(b.gain);
      written := written0;
      var k: nat := 0;
      assert earlier + t[..0] == earlier;
      while k < stages && written < MAX_BANDS
        invariant k <= stages && written == |AtMost(earlier + t[..k], MAX_BANDS)| && Preparing()
        invariant Written(coeffs[..], was, ds, AtMost(earlier + t[..k], MAX_BANDS))
      {
        AtMostAppend(earlier, t, k, MAX_BANDS);
        WriteOne(coeffs[..], was, ds, AtMost(earlier + t[..k], MAX_BANDS), t[k]);
        StoreSection(written, ds.coeffs(CutoffRequest(ds, b, k, stages)));
        written := written + 1;
        k := k + 1;
      }
      if k < stages {
        AtMostAppend(earlier, t, k, MAX_BANDS);
      } else {
        assert t[..k] == t;
      }
    }

    /** The loop over the bands. It makes no stores but those of coefficients. */
    method LoadSections(ds: Designer, bands: seq<Band>) returns (written: nat)
      requires Preparing()
      modifies `stores, coeffs
      ensures Preparing() && written == |Loaded(ds, bands)| <= MAX_BANDS
      ensures coeffs[..] == Loaded(ds, bands) + old(coeffs[..])[written..]
    {
      ghost var was := coeffs[..];
      written := 0;
      var i := 0;
      assert Written(coeffs[..], was, ds, AtMost(ExpandAll(ds, bands[..0]), MAX_BANDS));
      hide Written, Expansion, ExpandAll, AtMost, Truncated, Preparing;
      while i < |bands| && written < MAX_BANDS
        invariant 0 <= i <= |bands| && written == |AtMost(ExpandAll(ds, bands[..i]), MAX_BANDS)| && Preparing()
        invariant Written(coeffs[..], was, ds, AtMost(ExpandAll(ds, bands[..i]), MAX_BANDS))
      {
        ghost var earlier := ExpandAll(ds, bands[..i]);
        OneMoreBand(ds, bands, i);
        if IsCutoff(Truncated(bands[i].kind)) {
          written := LoadCutoff(ds, bands[i], written, was, earlier);
        } else {
          SingleExpansion(ds, bands[i], earlier);
          WriteOne(coeffs[..], was, ds, AtMost(earlier, MAX_BANDS), Expansion(ds, bands[i])[0]);
          StoreSection(written, ds.coeffs(Request(Truncated(bands[i].kind), bands[i].freq, bands[i].gain, bands[i].q)));
          written := written + 1;
        }
        i := i + 1;
      }
      if written < MAX_BANDS {
        assert bands[..i] == bands;
      } else {
        FullStaysFull(ds, bands, i);
      }
      WrittenMeans(coeffs[..], was, ds, AtMost(ExpandAll(ds, bands), MAX_BANDS));
    }

    /** The four stores that clear one slot of both channels. */
    method SilenceSlot(slot: nat)
      requires Preparing() && before.count <= slot < MAX_BANDS
      modifies `stores, left, right
      ensures Preparing()
      ensures left[..] == old(left[..])[slot := Transposed(0.0, 0.0)]
      ensures right[..] == old(right[..])[slot := Transposed(0.0, 0.0)]
    {
      assert left[slot] == left[..][slot] && right[slot] == right[..][slot];
      hide Preparing;
      StoreState(true, slot, true, 0.0);
      StoreState(true, slot, false, 0.0);
      StoreState(false, slot, true, 0.0);
      StoreState(false, slot, false, 0.0);
    }

    /** The loop that clears the slots about to come into use. */
    method SilenceFrom(previous: nat, written: nat)
      requires Preparing() && before.count <= previous && written <= MAX_BANDS
      modifies `stores, left, right
      ensures Preparing()
      ensures left[..] == Silenced(old(left[..]), previous, written)
      ensures right[..] == Silenced(old(right[..]), previous, written)
    {
      assert left.Length == right.Length == MAX_BANDS;
      hide Preparing, Silenced;
      ghost var ls, rs := left[..], right[..];
      SilencedNone(ls, previous);
      SilencedNone(rs, previous);
      var i := previous;
      while i < written
        invariant previous <= i && (if previous <= written then i <= written else i == previous) && Preparing()
        invariant left[..] == Silenced(ls, previous, i) && right[..] == Silenced(rs, previous, i)
      {
        SilencedOneMore(ls, previous, i);
        SilencedOneMore(rs, previous, i);
        SilenceSlot(i);
        i := i + 1;
      }
      SilencedNoneBelow(ls, previous, i, written);
      SilencedNoneBelow(rs, previous, i, written);
    }
  }

  lemma SilencedNone(zs: seq<Memory>, previous: nat)
    ensures Silenced(zs, previous, previous) == zs
  {
  }

  lemma SilencedNoneBelow(zs: seq<Memory>, previous: nat, i: nat, written: nat)
    requires i == if previous <= written then written else previous
    ensures Silenced(zs, previous, i) == Silenced(zs, previous, written)
  {
  }

  lemma SilencedOneMore(zs: seq<Memory>, previous: nat, i: nat)
    requires previous <= i < |zs|
    ensures Silenced(zs, previous, i + 1) == Silenced(zs, previous, i)[i := Transposed(0.0, 0.0)]
  {
  }
}
