/**
 The chorus ring of `vst/src/engine/multibandDist.c` against the delay line it stands for: the
 unbounded sequence of everything pushed so far, silent before the start.
 */
module DelayLine {
  import opened Reals

  const BUFLEN: nat := 8192

  /** The straight line between two neighbouring samples. */
  function Interpolated(s0: real, s1: real, fr: real): real {
    s0 + (s1 - s0) * fr
  }

  /** What was pushed as number i, or silence. */
  function Pushed(line: seq<real>, i: int): real {
    if 0 <= i < |line| then line[i] else 0.0
  }

  /** The specification of a tap: the pushed history, interpolated at now minus delay. */
  function Tap(line: seq<real>, delay: real): real {
    var when := |line| as real - delay;
    Interpolated(Pushed(line, when.Floor), Pushed(line, when.Floor + 1), when - when.Floor as real)
  }

  /** The ring holds the last BUFLEN pushes, push number k in slot k modulo BUFLEN. */
  ghost predicate Holds(ring: seq<real>, pos: nat, line: seq<real>) {
    && |ring| == BUFLEN && pos == |line| % BUFLEN
    && forall k {:trigger Pushed(line, k)} :: |line| - BUFLEN <= k < |line| ==> ring[k % BUFLEN] == Pushed(line, k)
  }

  lemma EmptyRing(ring: seq<real>)
    requires |ring| == BUFLEN && forall i :: 0 <= i < BUFLEN ==> ring[i] == 0.0
    ensures Holds(ring, 0, [])
  {
  }

  lemma PushKeepsHolding(ring: seq<real>, pos: nat, line: seq<real>, v: real)
    requires Holds(ring, pos, line)
    ensures Holds(ring[pos := v], (pos + 1) % BUFLEN, line + [v])
  {
    var n := |line|;
    forall k {:trigger Pushed(line + [v], k)} | n + 1 - BUFLEN <= k < n + 1
      ensures ring[pos := v][k % BUFLEN] == Pushed(line + [v], k)
    {
      if k < n {
        DistinctSlots(k, n);
        assert Pushed(line, k) == Pushed(line + [v], k);
      }
    }
  }

  lemma DistinctSlots(k: int, n: int)
    requires n - BUFLEN < k < n
    ensures k % BUFLEN != n % BUFLEN
  {
  }

  /** Where the ring is read for a delay: the integer slot and the fraction after it. */
  ghost predicate ReadsAt(rp: real, pos: nat, delay: real) {
    rp == if pos as real < delay then pos as real - delay + BUFLEN as real else pos as real - delay
  }

  /** A delay the ring can serve: at least two samples, at most its length. */
  predicate Servable(delay: real) {
    2.0 <= delay <= BUFLEN as real
  }

  /** The slot arithmetic: the two slots read hold two neighbouring pushes that have happened and
      have not been overwritten. */
  lemma SlotsOfDelay(pos: nat, n: nat, delay: real, rp: real)
    requires pos == n % BUFLEN && Servable(delay) && ReadsAt(rp, pos, delay)
    ensures var i := (n as real - delay).Floor;
            && n - BUFLEN <= i && i + 1 < n
            && 0 <= rp.Floor < BUFLEN
            && rp.Floor == i % BUFLEN && (rp.Floor + 1) % BUFLEN == (i + 1) % BUFLEN
            && rp - rp.Floor as real == n as real - delay - i as real
  {
    var turns := n / BUFLEN;
    assert n == BUFLEN * turns + pos;
    var i := (n as real - delay).Floor;
    var shift := if pos as real < delay then BUFLEN * turns - BUFLEN else BUFLEN * turns;
    assert rp == n as real - delay - shift as real;
    assert rp.Floor == i - shift;
  }

  /** A tap computed in the ring is the tap of the unbounded line. */
  lemma RingTap(ring: seq<real>, pos: nat, line: seq<real>, delay: real, rp: real)
    requires Holds(ring, pos, line) && Servable(delay) && ReadsAt(rp, pos, delay)
    ensures 0 <= rp.Floor < BUFLEN
    ensures Interpolated(ring[rp.Floor % BUFLEN], ring[(rp.Floor + 1) % BUFLEN], rp - rp.Floor as real)
         == Tap(line, delay)
  {
    hide Interpolated;
    SlotsOfDelay(pos, |line|, delay, rp);
    var i := (|line| as real - delay).Floor;
    assert Pushed(line, i) == ring[i % BUFLEN];
    assert Pushed(line, i + 1) == ring[(i + 1) % BUFLEN];
  }

  lemma TapBounded(line: seq<real>, delay: real, m: real)
    requires 0.0 <= m && AllWithin(line, m)
    ensures Abs(Tap(line, delay)) <= m
  {
    var when := |line| as real - delay;
    var s0, s1 := Pushed(line, when.Floor), Pushed(line, when.Floor + 1);
    InterpolatedIsMix(s0, s1, when - when.Floor as real);
    hide Interpolated;
    MixBounded(s0, s1, when - when.Floor as real, m);
  }

  lemma InterpolatedIsMix(s0: real, s1: real, fr: real)
    ensures Interpolated(s0, s1, fr) == Mix(s0, s1, fr)
  {
  }

  /** Where the pushes around the tap lie on a ramp, the tap lies on it too, at now minus delay. */
  lemma TapOfRamp(line: seq<real>, delay: real, a: real, b: real)
    requires var i := (|line| as real - delay).Floor;
             Pushed(line, i) == a + b * i as real && Pushed(line, i + 1) == a + b * (i + 1) as real
    ensures Tap(line, delay) == a + b * (|line| as real - delay)
  {
    var when := |line| as real - delay;
    var i := when.Floor;
    assert Pushed(line, i + 1) - Pushed(line, i) == b by {
      assert b * (i + 1) as real == b * i as real + b;
    }
    assert b * (when - i as real) == b * when - b * i as real;
  }

  /** The read of one voice: wrap the position into the ring, then interpolate. */
  method ReadTap(ring: array<real>, pos: nat, delay: real, ghost line: seq<real>)
    returns (s: real, ghost wraps: nat)
    requires Holds(ring[..], pos, line) && Servable(delay)
    ensures s == Tap(line, delay)
    ensures wraps == if pos as real < delay then 1 else 0
  {
    var rp := pos as real - delay;
    wraps := 0;
    while rp < 0.0
      invariant (wraps == 0 ==> rp == pos as real - delay)
      invariant 0 < wraps ==> wraps == 1 && pos as real < delay && 0.0 <= rp && ReadsAt(rp, pos, delay)
      decreases 1 - wraps
    {
      rp := rp + BUFLEN as real;
      wraps := wraps + 1;
    }
    RingTap(ring[..], pos, line, delay, rp);
    var i0 := rp.Floor;
    var fr := rp - i0 as real;
    hide Interpolated, Holds, Tap;
    var s0 := ring[i0 % BUFLEN];
    var s1 := ring[(i0 + 1) % BUFLEN];
    s := Interpolated(s0, s1, fr);
  }
}
