/**
 The table of live allocations in `tools/hal_harness.cpp`: open addressing with linear probing,
 where 0 marks a slot never used and 1 a slot whose pointer was deleted. It agrees with a map from
 live pointers to sizes.
 */
module AllocationTable {

  const TBL: nat := 0x20_0000
  const EMPTY: nat := 0
  const TOMBSTONE: nat := 1

  /** The home slot of a pointer. */
  function Slot(p: nat): (i: nat)
    ensures i < TBL
  {
    (p / 16) % TBL
  }

  /** Blocks are sixteen bytes apart at least, and slots follow them: two pointers share a home slot only within
      one such cell or 32 MB and more apart, and the next cell has the next slot. */
  lemma SlotsFollowCells(p: nat, q: nat)
    ensures p / 16 == q / 16 ==> Slot(p) == Slot(q)
    ensures p / 16 != q / 16 && -0x200_0000 < p - q < 0x200_0000 && p % 16 == q % 16 ==> Slot(p) != Slot(q)
    ensures Slot(p + 16) == Following(Slot(p))
  {
    assert (p + 16) / 16 == p / 16 + 1;
    if p / 16 != q / 16 && -0x200_0000 < p - q < 0x200_0000 && p % 16 == q % 16 {
      assert p - q == 16 * (p / 16 - q / 16);
      assert -0x20_0000 < p / 16 - q / 16 < 0x20_0000;
    }
  }

  /** The slot inspected after k steps. */
  function Probe(p: nat, k: nat): (i: nat)
    ensures i < TBL
  {
    (Slot(p) + k) % TBL
  }

  /** How many steps lead from p's home slot to slot i. */
  function Distance(p: nat, i: nat): (k: nat)
    requires i < TBL
    ensures k < TBL && Probe(p, k) == i
  {
    if Slot(p) <= i then i - Slot(p) else i + TBL - Slot(p)
  }

  /** The slot after slot i, wrapping round. */
  function Following(i: nat): (j: nat)
    ensures j < TBL
  {
    (i + 1) % TBL
  }

  lemma ProbeStep(p: nat, k: nat)
    ensures Probe(p, 0) == Slot(p)
    ensures Probe(p, k + 1) == Following(Probe(p, k))
  {
  }

  function Live(p: nat): bool { p != EMPTY && p != TOMBSTONE }

  ghost function Pick(m: map<nat, nat>): (p: nat)
    requires |m| != 0
    ensures p in m
  {
    var p :| p in m;
    p
  }

  /** The total of the sizes in a map. */
  ghost function Sum(m: map<nat, nat>): nat
    decreases |m|
  {
    if |m| == 0 then 0 else m[Pick(m)] + Sum(m - {Pick(m)})
  }

  lemma SumPicks(m: map<nat, nat>)
    requires |m| != 0
    ensures Sum(m) == m[Pick(m)] + Sum(m - {Pick(m)})
  {
    hide Pick;
  }

  lemma {:induction false} SumWithout(m: map<nat, nat>, p: nat)
    requires p in m
    ensures Sum(m) == m[p] + Sum(m - {p})
    decreases |m|
  {
    hide Sum, Pick;
    SumPicks(m);
    var q := Pick(m);
    if q != p {
      SumWithout(m - {q}, p);
      SumWithout(m - {p}, q);
      assert m - {q} - {p} == m - {p} - {q};
    }
  }

  /** The slots ps and sizes ss hold exactly `contents`; `at` says how far each pointer lies from its
      home slot, and no slot on the way there is empty. */
  ghost predicate Agrees(ps: seq<nat>, ss: seq<nat>, contents: map<nat, nat>, at: map<nat, nat>) {
    && |ps| == |ss| == TBL && at.Keys == contents.Keys
    && (forall i :: 0 <= i < TBL && Live(ps[i]) ==>
          ps[i] in at && Probe(ps[i], at[ps[i]]) == i && ss[i] == contents[ps[i]])
    && (forall p :: p in at ==> Live(p) && Reaches(ps, p, at[p]))
  }

  /** Probing for p finds it after exactly k steps. */
  ghost predicate Reaches(ps: seq<nat>, p: nat, k: nat)
    requires |ps| == TBL
  {
    k < TBL && ps[Probe(p, k)] == p && forall j :: 0 <= j < k ==> ps[Probe(p, j)] != EMPTY
  }

  lemma ReachesAfterChange(ps: seq<nat>, i: nat, v: nat, p: nat, k: nat)
    requires |ps| == TBL && i < TBL && v != EMPTY && Reaches(ps, p, k) && Probe(p, k) != i
    ensures Reaches(ps[i := v], p, k)
  {
  }

  lemma Inserted(ps: seq<nat>, ss: seq<nat>, contents: map<nat, nat>, at: map<nat, nat>, p: nat, n: nat, k: nat)
    requires Agrees(ps, ss, contents, at) && Live(p) && p !in contents && k < TBL
    requires !Live(ps[Probe(p, k)]) && forall j :: 0 <= j < k ==> Live(ps[Probe(p, j)])
    ensures Agrees(ps[Probe(p, k) := p], ss[Probe(p, k) := n], contents[p := n], at[p := k])
    ensures Sum(contents[p := n]) == Sum(contents) + n
  {
    hide Probe, Slot, Sum;
    var i := Probe(p, k);
    var ps' := ps[i := p];
    assert Reaches(ps', p, k);
    forall q | q in at ensures Live(q) && Reaches(ps', q, at[q]) {
      ReachesAfterChange(ps, i, p, q, at[q]);
    }
    hide Reaches;
    SumWithout(contents[p := n], p);
    assert contents[p := n] - {p} == contents;
  }

  lemma Deleted(ps: seq<nat>, ss: seq<nat>, contents: map<nat, nat>, at: map<nat, nat>, p: nat)
    requires Agrees(ps, ss, contents, at) && p in contents
    ensures Agrees(ps[Probe(p, at[p]) := TOMBSTONE], ss, contents - {p}, at - {p})
    ensures Sum(contents) == contents[p] + Sum(contents - {p})
  {
    hide Probe, Slot, Sum;
    var i := Probe(p, at[p]);
    assert Reaches(ps, p, at[p]);
    forall q | q in at && q != p ensures Reaches(ps[i := TOMBSTONE], q, at[q]) {
      assert Reaches(ps, q, at[q]);
      ReachesAfterChange(ps, i, TOMBSTONE, q, at[q]);
    }
    SumWithout(contents, p);
  }

  /** Stopping at an empty slot, or after inspecting every slot, means the pointer is not there. */
  lemma ProbeComplete(ps: seq<nat>, ss: seq<nat>, contents: map<nat, nat>, at: map<nat, nat>, p: nat, k: nat)
    requires Agrees(ps, ss, contents, at) && Live(p) && k <= TBL
    requires forall j :: 0 <= j < k ==> ps[Probe(p, j)] != p
    requires k == TBL || ps[Probe(p, k)] == EMPTY
    ensures p !in contents
  {
    assert p in at ==> Reaches(ps, p, at[p]);
  }

  // ---- when the table is full ----

  ghost function LiveIn(ps: seq<nat>, n: nat): set<nat>
    requires n <= |ps|
  {
    set i | 0 <= i < n && Live(ps[i]) :: ps[i]
  }

  ghost function LiveCount(ps: seq<nat>, n: nat): nat
    requires n <= |ps|
  {
    if n == 0 then 0 else LiveCount(ps, n - 1) + if Live(ps[n - 1]) then 1 else 0
  }

  lemma {:induction false} CountIsCardinality(ps: seq<nat>, n: nat)
    requires n <= |ps| && forall i, j :: 0 <= i < j < |ps| && Live(ps[i]) ==> ps[i] != ps[j]
    ensures |LiveIn(ps, n)| == LiveCount(ps, n)
  {
    if n != 0 {
      CountIsCardinality(ps, n - 1);
      assert LiveIn(ps, n) == LiveIn(ps, n - 1) + if Live(ps[n - 1]) then {ps[n - 1]} else {};
    }
  }

  lemma {:induction false} CountOfSlots(ps: seq<nat>, n: nat)
    requires n <= |ps|
    ensures LiveCount(ps, n) <= n
    ensures LiveCount(ps, n) == n <==> forall i :: 0 <= i < n ==> Live(ps[i])
  {
    if n != 0 {
      CountOfSlots(ps, n - 1);
    }
  }

  /** `addp`'s search can stop exactly when fewer pointers are live than there are slots. */
  lemma FreeSlotIffNotFull(ps: seq<nat>, ss: seq<nat>, contents: map<nat, nat>, at: map<nat, nat>)
    requires Agrees(ps, ss, contents, at)
    ensures (exists i :: 0 <= i < TBL && !Live(ps[i])) <==> |contents| < TBL
  {
    forall i, j | 0 <= i < j < |ps| && Live(ps[i]) ensures ps[i] != ps[j] {
    }
    CountIsCardinality(ps, TBL);
    CountOfSlots(ps, TBL);
    forall p | p in at ensures p in LiveIn(ps, TBL) {
      assert Reaches(ps, p, at[p]);
    }
    assert LiveIn(ps, TBL) == contents.Keys;
    assert |contents| == |contents.Keys|;
  }

  class Table {
    const ptr: array<nat>
    const sz: array<nat>
    var live: int
    var track: bool
    ghost var contents: map<nat, nat>
    ghost var at: map<nat, nat>

    ghost predicate Valid()
      reads this, ptr, sz
    {
      && ptr != sz && ptr.Length == sz.Length == TBL
      && Agrees(ptr[..], sz[..], contents, at)
      && live == Sum(contents)
    }

    constructor ()
      ensures Valid() && fresh(ptr) && fresh(sz) && contents == map[] && !track
    {
      ptr, sz := new nat[TBL](_ => EMPTY), new nat[TBL](_ => 0);
      live, track, contents, at := 0, false, map[], map[];
    }

    /** The probe of `addp`: the first slot from home that is free or deleted. */
    method FreeSlot(p: nat) returns (i: nat, ghost k: nat)
      requires Valid() && |contents| < TBL
      ensures k < TBL && i == Probe(p, k) && !Live(ptr[i])
      ensures forall j :: 0 <= j < k ==> Live(ptr[..][Probe(p, j)])
    {
      FreeSlotIffNotFull(ptr[..], sz[..], contents, at);
      ghost var free :| 0 <= free < TBL && !Live(ptr[..][free]);
      ghost var ps, d := ptr[..], Distance(p, free);
      assert !Live(ptr[free]) && free == Probe(p, d);
      hide Agrees, Sum, Probe, Slot, Distance, Following;
      k := 0;
      i := Slot(p);
      ProbeStep(p, 0);
      while ptr[i] != EMPTY && ptr[i] != TOMBSTONE
        invariant k <= d && i == Probe(p, k)
        invariant forall j :: 0 <= j < k ==> Live(ps[Probe(p, j)])
        decreases TBL - k
      {
        assert Live(ps[Probe(p, k)]);
        ProbeStep(p, k);
        i := Following(i);
        k := k + 1;
      }
    }

    /** `addp`: a pointer not yet in the table, and room for it. */
    method Add(p: nat, n: nat)
      requires Valid() && p != TOMBSTONE
      requires p != EMPTY && track ==> p !in contents && |contents| < TBL
      modifies this, ptr, sz
      ensures Valid() && track == old(track)
      ensures contents == if p == EMPTY || !track then old(contents) else old(contents)[p := n]
    {
      if p == EMPTY || !track {
        return;
      }
      hide Agrees, Sum, Probe, Slot;
      ghost var k;
      var i;
      i, k := FreeSlot(p);
      Inserted(ptr[..], sz[..], contents, at, p, n, k);
      ptr[i] := p;
      sz[i] := n;
      live := live + n;
      contents, at := contents[p := n], at[p := k];
    }

    lemma LiveSlot(i: nat, p: nat)
      requires Valid() && i < TBL && Live(p) && ptr[i] == p
      ensures p in contents && at.Keys == contents.Keys && Probe(p, at[p]) == i && sz[i] == contents[p]
    {
      assert ptr[..][i] == p && sz[..][i] == sz[i];
    }

    method Bury(i: nat, p: nat)
      requires Valid() && i < TBL && Live(p) && ptr[i] == p
      modifies this, ptr
      ensures Valid() && track == old(track) && contents == old(contents) - {p}
    {
      LiveSlot(i, p);
      Deleted(ptr[..], sz[..], contents, at, p);
      hide Agrees, Sum, Probe, Slot;
      live := live - sz[i];
      ptr[i] := TOMBSTONE;
      contents, at := contents - {p}, at - {p};
    }

    /** The probe of `delp`: it stops at the pointer, at an empty slot, or after every slot. */
    method Find(p: nat) returns (found: bool, i: nat)
      requires Valid() && Live(p)
      ensures found <==> p in contents
      ensures found ==> i < TBL && ptr[i] == p
    {
      ghost var ps, ss := ptr[..], sz[..];
      i := Slot(p);
      ProbeStep(p, 0);
      hide Agrees, Sum, Probe, Slot, Following;
      for k := 0 to TBL
        invariant i == Probe(p, k)
        invariant forall j :: 0 <= j < k ==> ps[Probe(p, j)] != p
      {
        if ptr[i] == EMPTY {
          ProbeComplete(ps, ss, contents, at, p, k);
          return false, i;
        }
        if ptr[i] == p {
          LiveSlot(i, p);
          return true, i;
        }
        ProbeStep(p, k);
        i := Following(i);
      }
      ProbeComplete(ps, ss, contents, at, p, TBL);
      return false, i;
    }

    /** `delp`: forgets the pointer if it is there and does nothing otherwise. */
    method Delete(p: nat)
      requires Valid() && p != TOMBSTONE
      modifies this, ptr, sz
      ensures Valid() && track == old(track)
      ensures contents == old(contents) - {p}
    {
      if p == EMPTY {
        assert p in contents ==> Live(p);
        assert contents - {p} == contents;
        return;
      }
      hide Agrees, Sum;
      var found, i := Find(p);
      if found {
        Bury(i, p);
      } else {
        assert contents - {p} == contents;
      }
    }
  }
}
