/**
 The effect object of `vst/src/engine/multibandDist.c`: its controls, its band list, its life cycle
 and the block loop, over the two channel states.
 */
module MultibandDist {
  import opened Shapers
  import opened Trigonometry
  import opened Biquads
  import opened MultibandSettings
  import opened Oversampler
  import opened Multiband
  import opened BandList
  import opened MultibandBounds
  import opened MultibandRuns
  import opened Stability
  import opened Reals
  import MB = MultibandSpec

  /** Two blocks of samples as one stream of pairs. */
  ghost function Paired(l: seq<real>, r: seq<real>): (xs: seq<(real, real)>)
    requires |l| == |r|
    ensures |xs| == |l|
  {
    seq(|l|, i requires 0 <= i < |l| => (l[i], r[i]))
  }

  class Effect {
    const cv: Curves
    const trig: Trig
    const pw: Powers
    const os: seq<Lowpass>      // the filter design oversample_makeSmp computes for a factor of two
    const osGain: real

    var fs: int
    var settings: Settings
    const slots: BandSlots
    const left: ChannelState
    const right: ChannelState
    var chPhase: real
    var osFactor: nat
    var enabled: bool

    constructor (cv: Curves, trig: Trig, pw: Powers, os: seq<Lowpass>, osGain: real, fs: int, dials: Dials)
      requires cv.Lawful() && trig.Lawful() && pw.Lawful() && |os| == STAGE
      ensures Valid() && fresh(Footprint()) && !enabled && slots.count == 0 && settings == Configure(pw, fs, dials)
    {
      hide Curves.Lawful, Trig.Lawful, Powers.Lawful, InRange, ChannelState.Valid,
           ChannelState.ToolsFit;
      this.cv, this.trig, this.pw, this.os, this.osGain, this.fs := cv, trig, pw, os, osGain, fs;
      settings := Configure(pw, fs, dials);
      ConfigureInRange(pw, fs, dials);
      chPhase, osFactor, enabled := 0.0, 1, false;
      var l := new ChannelState(2, os, osGain);
      var r := new ChannelState(2, os, osGain);
      left, right := l, r;
      slots := new BandSlots(l.bands, r.bands);
    }

    ghost function Footprint(): set<object>
      reads this, left, right
    {
      {this, slots, slots.coeffs} + left.Repr + right.Repr
    }

    ghost predicate Valid()
      reads this, slots, slots.coeffs, left, right, left.Repr, right.Repr
    {
      Configured() && left.Valid() && right.Valid() && Apart() && RingsFollowEnabled()
    }

    ghost predicate Configured()
      reads this, slots
    {
      && cv.Lawful() && trig.Lawful() && pw.Lawful() && |os| == STAGE && InRange(settings)
      && slots.coeffs.Length == MAX_BANDS && slots.count <= MAX_BANDS && 1 <= osFactor <= 2
      && slots.left == left.bands && slots.right == right.bands
    }

    /** The two channels share nothing with each other or with the effect's own fields. */
    ghost predicate Apart()
      reads this, left, right
    {
      && left.Repr !! right.Repr
      && this !in left.Repr && slots !in left.Repr && slots.coeffs !in left.Repr && right !in left.Repr
      && this !in right.Repr && slots !in right.Repr && slots.coeffs !in right.Repr && left !in right.Repr
    }

    /** Rings are held exactly while the effect is enabled; tools are built before they are used. */
    ghost predicate RingsFollowEnabled()
      reads this, left, right
    {
      && (enabled <==> left.ring != null) && (enabled <==> right.ring != null)
      && (osFactor == 2 ==> left.ToolsFit(2, os, osGain) && right.ToolsFit(2, os, osGain))
    }

    /** What the block loop reads. */
    function Rig(): MB.Rig
      requires slots.count <= slots.coeffs.Length
      reads this, slots, slots.coeffs, left, right
    {
      MB.Rig(cv, trig, settings, slots.coeffs[..slots.count], osFactor, os, osGain,
             left.ring != null && right.ring != null && settings.chMix > 0.0001)
    }

    ghost function State(): (st: MB.Stereo)
      requires Valid()
      reads this, slots, slots.coeffs, left, right, left.Repr, right.Repr
      ensures st.Valid()
    {
      MB.Stereo(left.State(), right.State(), chPhase)
    }

    /** `MultibandDistSetParam`. */
    method SetParam(dials: Dials)
      requires Valid()
      modifies `settings
      ensures Valid() && settings == Configure(pw, fs, dials)
    {
      hide Configure, Curves.Lawful, Trig.Lawful, Powers.Lawful, InRange, ChannelState.Valid,
           ChannelState.ToolsFit;
      ConfigureInRange(pw, fs, dials);
      settings := Configure(pw, fs, dials);
    }

    /** `MultibandDistSetBands`: store by store, no view of the slots shows a half-built set. */
    method SetBands(ds: Designer, bands: seq<Band>)
      requires Valid()
      modifies slots, slots.coeffs, left.bands, right.bands
      ensures Valid() && slots.count == |Loaded(ds, bands)|
      ensures slots.coeffs[..slots.count] == Loaded(ds, bands)
      ensures left.State()
           == old(left.State()).(bands := Silenced(old(left.bands[..]), old(slots.count), slots.count))
      ensures right.State()
           == old(right.State()).(bands := Silenced(old(right.bands[..]), old(slots.count), slots.count))
      ensures slots.before == old(slots.Now()) && slots.Now() == ViewAfter(slots.before, slots.stores)
      ensures forall i :: 0 <= i <= |slots.stores| ==>
                NeverHalfBuilt(ViewAfter(slots.before, slots.stores[..i]), slots.before, Loaded(ds, bands))
    {
      hide Loaded, InRange, Curves.Lawful, Trig.Lawful, Powers.Lawful, ChannelState.Valid, ChannelState.State,
           ChannelState.ToolsFit, Silenced, AllTransposed, BandSlots.Preparing, ViewAfter, NeverHalfBuilt;
      SlotsShaped();
      slots.Watch();
      var previous, written := slots.count, 0;
      if bands == [] {
        NothingLoaded(ds, left.bands[..], previous);
        NothingLoaded(ds, right.bands[..], previous);
      } else {
        written := slots.LoadSections(ds, bands);
        slots.SilenceFrom(previous, written);
      }
      AllPrepared(slots, old(left.bands[..]), old(right.bands[..]), written, Loaded(ds, bands));
      slots.StoreCount(written);
      left.SectionsRewritten();
      right.SectionsRewritten();
    }

    lemma SlotsShaped()
      requires Valid()
      ensures slots.Shaped() && slots !in left.Repr && slots !in right.Repr
    {
    }

    lemma NothingLoaded(ds: Designer, zs: seq<Memory>, previous: nat)
      ensures Loaded(ds, []) == [] && Silenced(zs, previous, 0) == zs
    {
    }

    lemma RigValid()
      requires Valid()
      ensures slots.count <= slots.coeffs.Length && Rig().Valid() && Rig().s == settings
      ensures left.Fits(Rig()) && right.Fits(Rig())
    {
    }

    /** Both channels for one sample, then the shared modulation phase. */
    method StepBoth(g: MB.Rig, x: real, y: real, upsample: array<real>) returns (outL: real, outR: real)
      requires Valid() && left.Fits(g) && right.Fits(g) && g.s == settings && g.Valid()
      requires upsample.Length == OS_MAX && upsample !in left.Repr && upsample !in right.Repr
      modifies `chPhase, left.Repr, right.Repr, upsample
      ensures Valid() && left.Fits(g) && right.Fits(g)
      ensures left.Repr == old(left.Repr) && right.Repr == old(right.Repr)
      ensures left.ring == old(left.ring) && right.ring == old(right.ring)
      ensures (outL, outR) == (MB.Out(g, old(left.State()), old(chPhase), x),
                               MB.Out(g, old(right.State()), old(chPhase) + g.s.chSpread, y))
      ensures left.State() == MB.After(g, old(left.State()), old(chPhase), x)
      ensures right.State() == MB.After(g, old(right.State()), old(chPhase) + g.s.chSpread, y)
      ensures chPhase == MB.PhaseStep(g.s, old(chPhase))
    {
      hide ChannelState.Valid, ChannelState.State, ChannelState.Fits, Curves.Lawful, Trig.Lawful, Powers.Lawful,
           InRange, MB.Out, MB.After, MB.PhaseStep, MB.Rig.Valid;
      outL := left.Step(g, chPhase, x, upsample);
      outR := right.Step(g, chPhase + settings.chSpread, y, upsample);
      chPhase := MB.PhaseStep(settings, chPhase);
    }

    /** The block loop, from the check for transparency on. */
    method ProcessBlock(l: array<real>, r: array<real>, n: nat)
      requires Valid() && l != r && n <= l.Length && n <= r.Length
      requires l !in left.Repr && l !in right.Repr && r !in left.Repr && r !in right.Repr
      modifies `chPhase, left.Repr, right.Repr, l, r
      ensures Valid() && Rig() == old(Rig()) && left.Repr == old(left.Repr) && right.Repr == old(right.Repr)
      ensures Processed(Rig(), old(State()), State(), old(l[..]), old(r[..]), l[..], r[..], n)
    {
      hide ChannelState.Valid, ChannelState.State, ChannelState.Fits, ChannelState.ToolsFit, Curves.Lawful, Trig.Lawful,
           Powers.Lawful, InRange, MB.Out, MB.After, MB.PhaseStep, MB.Rig.Valid, MB.Run, MB.StateAt, MB.Stereo.Valid,
           BlockDone, Processed, RingsFollowEnabled;
      RigValid();
      var g := Rig();
      ghost var st, ls, rs, xs := State(), l[..], r[..], Paired(l[..n], r[..n]);
      var upsample := new real[OS_MAX];
      BlockStart(g, st, ls, rs, xs);
      for i := 0 to n
        invariant Valid() && left.Fits(g) && right.Fits(g) && Rig() == g
        invariant left.Repr == old(left.Repr) && right.Repr == old(right.Repr)
        invariant State() == MB.StateAt(g, st, xs, i)
        invariant BlockDone(l[..], r[..], ls, rs, MB.Run(g, st, xs), i)
      {
        BlockStep(l[..], r[..], ls, rs, g, st, xs, i);
        l[i], r[i] := StepBoth(g, l[i], r[i], upsample);
      }
      BlockEnd(l[..], r[..], ls, rs, g, st, n);
    }

    /** `MultibandDistProcess`. */
    method Process(l: array?<real>, r: array?<real>, n: nat)
      requires Valid()
      requires l != null && r != null ==>
                 && l != r && n <= l.Length && n <= r.Length
                 && l !in left.Repr && l !in right.Repr && r !in left.Repr && r !in right.Repr
      modifies `chPhase, left.Repr, right.Repr, l, r
      ensures Valid() && Rig() == old(Rig()) && left.Repr == old(left.Repr) && right.Repr == old(right.Repr)
      ensures l == null || r == null || settings.transparent ==>
                (l != null ==> unchanged(l)) && (r != null ==> unchanged(r)) && State() == old(State())
      ensures l != null && r != null && !settings.transparent ==>
                Processed(Rig(), old(State()), State(), old(l[..]), old(r[..]), l[..], r[..], n)
    {
      hide ChannelState.Valid, ChannelState.State, ChannelState.ToolsFit, Configured, Processed;
      if l == null || r == null {
        return;
      }
      if settings.transparent {
        return;
      }
      ProcessBlock(l, r, n);
    }

    /** One call of `Process` on a copy of part of a buffer. */
    method ProcessPart(l: array<real>, r: array<real>, at: nat, n: nat)
      returns (ghost bl: seq<real>, ghost br: seq<real>)
      requires Valid() && l != r && at + n <= l.Length && at + n <= r.Length
      requires l !in left.Repr && l !in right.Repr && r !in left.Repr && r !in right.Repr
      modifies `chPhase, left.Repr, right.Repr, l, r
      ensures Valid() && Rig() == old(Rig()) && left.Repr == old(left.Repr) && right.Repr == old(right.Repr)
      ensures |bl| == |br| == n && l[..] == PutBack(old(l[..]), at, bl) && r[..] == PutBack(old(r[..]), at, br)
      ensures settings.transparent ==> l[..] == old(l[..]) && r[..] == old(r[..]) && State() == old(State())
      ensures !settings.transparent ==>
                Processed(Rig(), old(State()), State(), old(l[at..at + n]), old(r[at..at + n]), bl, br, n)
    {
      hide ChannelState.Valid, ChannelState.State, ChannelState.ToolsFit, Configured, Processed, PutBack;
      PutBackUnchanged(l[..], at, n);
      PutBackUnchanged(r[..], at, n);
      assert l[..][at..at + n] == l[at..at + n] && r[..][at..at + n] == r[at..at + n];
      var x := Copied(l, at, n);
      var y := Copied(r, at, n);
      ghost var xs, ys := x[..], y[..];
      Process(x, y, n);
      assert settings.transparent ==> x[..] == xs && y[..] == ys;
      bl, br := x[..], y[..];
      CopyBack(l, at, x);
      CopyBack(r, at, y);
    }

    /** A buffer handed over in blocks, whatever their lengths, comes out as from one call on all of it. */
    method ProcessInBlocks(l: array<real>, r: array<real>, cuts: seq<nat>)
      requires Valid() && l != r && Total(cuts) <= l.Length && Total(cuts) <= r.Length
      requires l !in left.Repr && l !in right.Repr && r !in left.Repr && r !in right.Repr
      modifies `chPhase, left.Repr, right.Repr, l, r
      ensures Valid() && Rig() == old(Rig()) && left.Repr == old(left.Repr) && right.Repr == old(right.Repr)
      ensures settings.transparent ==> l[..] == old(l[..]) && r[..] == old(r[..]) && State() == old(State())
      ensures !settings.transparent ==>
                Processed(Rig(), old(State()), State(), old(l[..]), old(r[..]), l[..], r[..], Total(cuts))
    {
      hide ChannelState.Valid, ChannelState.State, ChannelState.ToolsFit, Configured, Processed, Total, PutBack;
      RigValid();
      ghost var g, st, ls, rs := Rig(), State(), l[..], r[..];
      var at: nat := 0;
      NoCuts(cuts);
      NoBlocks(g, st, ls, rs);
      for i := 0 to |cuts|
        invariant Valid() && Rig() == g && left.Repr == old(left.Repr) && right.Repr == old(right.Repr)
        invariant at == Total(cuts[..i]) <= Total(cuts)
        invariant settings.transparent ==> l[..] == ls && r[..] == rs && State() == st
        invariant !settings.transparent ==> Processed(g, st, State(), ls, rs, l[..], r[..], at)
      {
        OneMoreCut(cuts, i);
        ghost var mid, l1, r1 := State(), l[..], r[..];
        assert l[at..at + cuts[i]] == l1[at..at + cuts[i]] && r[at..at + cuts[i]] == r1[at..at + cuts[i]];
        ghost var bl, br := ProcessPart(l, r, at, cuts[i]);
        if !settings.transparent {
          BlocksJoin(g, st, mid, State(), ls, rs, l1, r1, bl, br, at, cuts[i]);
        }
        at := at + cuts[i];
      }
      assert cuts[..|cuts|] == cuts;
    }

    /** `MultibandDistEnable`; `gotRings` says whether both rings could be had. */
    method Enable(gotRings: bool)
      requires Valid()
      modifies `enabled, `osFactor, `chPhase, left, right, left.bands, right.bands
      ensures Valid() && enabled == (old(enabled) || gotRings)
      ensures fresh(left.Repr - old(left.Repr)) && fresh(right.Repr - old(right.Repr))
      ensures !old(enabled) && enabled ==>
                && left.Cleared() && right.Cleared() && chPhase == 0.0
                && Fresh(left.State()) && Fresh(right.State())
                && osFactor == (if Rate(fs) < 96000.0 then 2 else 1)
                && (osFactor == 2 ==> left.QuietTools() && right.QuietTools())
    {
      hide ChannelState.Valid, ChannelState.State, ChannelState.Cleared, ChannelState.QuietTools,
           ChannelState.ToolsFit, Fresh, Curves.Lawful, Trig.Lawful, Powers.Lawful, InRange;
      if !enabled {
        if !gotRings {
          return;
        }
        osFactor := if Rate(fs) < 96000.0 then 2 else 1;
        left.Restart(osFactor, os, osGain);
        right.Restart(osFactor, os, osGain);
        chPhase := 0.0;
      }
      enabled := true;
    }

    /** `MultibandDistDisable`. */
    method Disable()
      requires Valid()
      modifies `enabled, left, right
      ensures Valid() && !enabled && left.Repr <= old(left.Repr) && right.Repr <= old(right.Repr)
    {
      hide ChannelState.Valid, Curves.Lawful, Trig.Lawful, Powers.Lawful, InRange;
      enabled := false;
      left.FreeRing();
      right.FreeRing();
    }
  }

  /** Two calls, described by what `Process` ensures, that agree on one channel's buffer, state and phase
      give that channel the same output and leave it the same state, whatever the other channel holds:
      although the loop runs both channels through one scratch buffer, nothing crosses over. */
  lemma CallsIndependent(g: MB.Rig, st: MB.Stereo, ls: seq<real>, rs: seq<real>, l: seq<real>, r: seq<real>,
                         st': MB.Stereo, ls': seq<real>, rs': seq<real>, l': seq<real>, r': seq<real>)
    requires g.Valid() && st.Valid() && st'.Valid() && st.chPhase == st'.chPhase
    requires |ls| == |rs| == |l| == |r| == |ls'| == |rs'| == |l'| == |r'|
    requires Paired(l, r) == MB.Run(g, st, Paired(ls, rs)) && Paired(l', r') == MB.Run(g, st', Paired(ls', rs'))
    ensures var end, end' := MB.StateAt(g, st, Paired(ls, rs), |ls|), MB.StateAt(g, st', Paired(ls', rs'), |ls|);
            && (st.left == st'.left && ls == ls' ==> l == l' && end.left == end'.left)
            && (st.right == st'.right && rs == rs' ==> r == r' && end.right == end'.right)
  {
    hide MB.StateAt, MB.Run, MB.Rig.Valid, MB.Stereo.Valid;
    MB.ChannelsIndependent(g, st, st', Paired(ls, rs), Paired(ls', rs'));
    MB.ChannelsIndependentAt(g, st, st', Paired(ls, rs), Paired(ls', rs'), |ls|);
    SidesOfPairs(ls, rs, ls', rs');
    SidesOfPairs(l, r, l', r');
  }

  lemma SidesOfPairs(l: seq<real>, r: seq<real>, l': seq<real>, r': seq<real>)
    requires |l| == |r| == |l'| == |r'|
    ensures MB.SameLeft(Paired(l, r), Paired(l', r')) <==> l == l'
    ensures MB.SameRight(Paired(l, r), Paired(l', r')) <==> r == r'
  {
    assert forall n :: 0 <= n < |l| ==> Paired(l, r)[n] == (l[n], r[n]) && Paired(l', r')[n] == (l'[n], r'[n]);
  }

  /** What a call writes into the buffers of a freshly enabled effect stays within a constant of the
      bound on what was in them; with split routing, also of what the band filter took out. */
  lemma ProcessedBounded(g: MB.Rig, st: MB.Stereo, ls: seq<real>, rs: seq<real>, l: seq<real>, r: seq<real>,
                         bound: real, i: nat)
    requires Engaged(g) && st.Valid() && Fresh(st.left) && Fresh(st.right)
    requires g.osFactor > 1 ==> AllDamped(g.os) && st.left.down == st.right.down == QuietTool()
    requires |ls| == |rs| == |l| == |r| && i < |l| && Paired(l, r) == MB.Run(g, st, Paired(ls, rs))
    requires forall j :: 0 <= j < |ls| ==> Abs(ls[j]) <= bound && Abs(rs[j]) <= bound
    ensures g.Valid()
    ensures var e, rest := MB.StateAt(g, st, Paired(ls, rs), i), 160.0 * Amplitude(g.cv, FilterGain(g.os, g.osGain));
            && Abs(l[i]) <= bound + Leak(g.s, MB.SignalsOf(g, e.left, ls[i]).b) + rest
            && Abs(r[i]) <= bound + Leak(g.s, MB.SignalsOf(g, e.right, rs[i]).b) + rest
  {
    hide MB.SignalsOf, MB.StateAt, MB.Run, Fresh, AllDamped, FilterGain, Leak, Amplitude, Abs, MB.Rig.Valid,
         MB.Stereo.Valid;
    StereoOutputBounded(g, st, Paired(ls, rs), bound, i);
    assert Paired(l, r)[i] == (l[i], r[i]);
  }

  /** What the loops leave behind before the count is stored. */
  lemma AllPrepared(slots: BandSlots, ls: seq<Memory>, rs: seq<Memory>, written: nat, loaded: seq<Coeffs>)
    requires slots.Preparing() && written == |loaded| <= MAX_BANDS && slots.coeffs[..written] == loaded
    requires slots.left[..] == Silenced(ls, slots.before.count, written)
    requires slots.right[..] == Silenced(rs, slots.before.count, written)
    ensures forall i :: 0 <= i <= |slots.stores| + 1 ==>
              NeverHalfBuilt(ViewAfter(slots.before, (slots.stores + [Publish(written)])[..i]), slots.before, loaded)
  {
    hide ViewAfter, NeverHalfBuilt, AllPreparatory, AllTransposed;
    assert forall k :: 0 <= k < written ==> slots.left[k] == slots.left[..][k] && slots.right[k] == slots.right[..][k];
    PublishedLast(slots.before, slots.stores, loaded);
  }

  function Total(cuts: seq<nat>): nat
    decreases |cuts|
  {
    if cuts == [] then 0 else Total(cuts[..|cuts| - 1]) + cuts[|cuts| - 1]
  }

  lemma {:induction false} TotalOfPrefix(cuts: seq<nat>, i: nat)
    requires i <= |cuts|
    ensures Total(cuts[..i]) <= Total(cuts)
    decreases |cuts| - i
  {
    if i < |cuts| {
      TotalOfPrefix(cuts, i + 1);
      assert cuts[..i + 1][..i] == cuts[..i];
    } else {
      assert cuts[..i] == cuts;
    }
  }

  lemma NoCuts(cuts: seq<nat>)
    ensures Total(cuts[..0]) == 0
  {
  }

  lemma OneMoreCut(cuts: seq<nat>, i: nat)
    requires i < |cuts|
    ensures Total(cuts[..i]) + cuts[i] == Total(cuts[..i + 1]) <= Total(cuts)
  {
    assert cuts[..i + 1][..i] == cuts[..i];
    TotalOfPrefix(cuts, i + 1);
  }

  method Copied(a: array<real>, at: nat, n: nat) returns (b: array<real>)
    requires at + n <= a.Length
    ensures fresh(b) && b.Length == n && b[..] == a[at..at + n]
  {
    b := new real[n];
    for i := 0 to n
      invariant b[..i] == a[at..at + i]
    {
      b[i] := a[at + i];
    }
  }

  method CopyBack(a: array<real>, at: nat, b: array<real>)
    requires at + b.Length <= a.Length && a != b
    modifies a
    ensures a[..] == PutBack(old(a[..]), at, b[..])
  {
    ghost var was := a[..];
    for i := 0 to b.Length
      invariant forall k :: 0 <= k < a.Length ==> a[k] == if at <= k < at + i then b[k - at] else was[k]
    {
      a[at + i] := b[i];
    }
  }

  function PutBack(s: seq<real>, at: nat, b: seq<real>): (r: seq<real>)
    requires at + |b| <= |s|
    ensures |r| == |s|
  {
    s[..at] + b + s[at + |b|..]
  }

  lemma PutBackUnchanged(s: seq<real>, at: nat, n: nat)
    requires at + n <= |s|
    ensures PutBack(s, at, s[at..at + n]) == s
  {
  }

  lemma NoBlocks(g: MB.Rig, st: MB.Stereo, ls: seq<real>, rs: seq<real>)
    requires g.Valid() && st.Valid()
    ensures Processed(g, st, st, ls, rs, ls, rs, 0)
  {
    hide MB.Rig.Valid, MB.Stereo.Valid;
  }

  /** A processed block put back after the processed part of a buffer makes that part longer. */
  lemma BlocksJoin(g: MB.Rig, st: MB.Stereo, mid: MB.Stereo, st': MB.Stereo, ls: seq<real>, rs: seq<real>,
                   l: seq<real>, r: seq<real>, bl: seq<real>, br: seq<real>, at: nat, n: nat)
    requires at + n <= |l| && at + n <= |r| && |bl| == |br| == n
    requires Processed(g, st, mid, ls, rs, l, r, at)
    requires Processed(g, mid, st', l[at..at + n], r[at..at + n], bl, br, n)
    ensures Processed(g, st, st', ls, rs, PutBack(l, at, bl), PutBack(r, at, br), at + n)
  {
    hide MB.Rig.Valid, MB.Stereo.Valid, MB.Run, MB.StateAt;
    var us, vs := Paired(ls[..at], rs[..at]), Paired(ls[at..at + n], rs[at..at + n]);
    assert l[at..at + n] == l[at..][..n] == ls[at..][..n] == ls[at..at + n];
    assert r[at..at + n] == r[at..][..n] == rs[at..][..n] == rs[at..at + n];
    assert l[at..at + n][..n] == ls[at..at + n] && r[at..at + n][..n] == rs[at..at + n];
    assert bl[..n] == bl && br[..n] == br;
    assert Paired(ls[..at + n], rs[..at + n]) == us + vs;
    MB.TwoBlocks(g, st, us, vs);
    var l', r' := PutBack(l, at, bl), PutBack(r, at, br);
    assert l'[..at + n] == l[..at] + bl && r'[..at + n] == r[..at] + br;
    assert Paired(l'[..at + n], r'[..at + n]) == Paired(l[..at], r[..at]) + Paired(bl, br);
    assert l'[at + n..] == l[at..][n..] == ls[at..][n..] == ls[at + n..];
    assert r'[at + n..] == r[at..][n..] == rs[at..][n..] == rs[at + n..];
  }

  /** The first i samples of a block have been overwritten with outputs, the rest are inputs. */
  ghost predicate BlockDone(l: seq<real>, r: seq<real>, ls: seq<real>, rs: seq<real>, ys: seq<(real, real)>, i: nat) {
    && |l| == |ls| && |r| == |rs| && i <= |ys| <= |l| && |ys| <= |r|
    && (forall k :: 0 <= k < |l| ==> l[k] == if k < i then ys[k].0 else ls[k])
    && (forall k :: 0 <= k < |r| ==> r[k] == if k < i then ys[k].1 else rs[k])
  }

  lemma BlockStart(g: MB.Rig, st: MB.Stereo, ls: seq<real>, rs: seq<real>, xs: seq<(real, real)>)
    requires g.Valid() && st.Valid() && |xs| <= |ls| && |xs| <= |rs|
    ensures MB.StateAt(g, st, xs, 0) == st && BlockDone(ls, rs, ls, rs, MB.Run(g, st, xs), 0)
  {
    hide MB.Run, MB.Rig.Valid;
  }

  lemma BlockStep(l: seq<real>, r: seq<real>, ls: seq<real>, rs: seq<real>, g: MB.Rig, st: MB.Stereo,
                  xs: seq<(real, real)>, i: nat)
    requires g.Valid() && st.Valid() && i < |xs| <= |ls| && |xs| <= |rs| && xs == Paired(ls[..|xs|], rs[..|xs|])
    requires BlockDone(l, r, ls, rs, MB.Run(g, st, xs), i)
    ensures |l| == |ls| && |r| == |rs| && (l[i], r[i]) == xs[i]
    ensures var e, y := MB.StateAt(g, st, xs, i), MB.StereoOut(g, MB.StateAt(g, st, xs, i), xs[i]);
            && MB.StateAt(g, st, xs, i + 1) == MB.StereoAfter(g, e, xs[i])
            && BlockDone(l[i := y.0], r[i := y.1], ls, rs, MB.Run(g, st, xs), i + 1)
  {
    hide MB.Rig.Valid, MB.Stereo.Valid, MB.StereoOut, MB.StereoAfter, MB.Run;
    MB.RunAt(g, st, xs, i);
  }

  /** A block went through: the first n samples of both buffers are the specified outputs, the state
      is the specified state, and the samples after them are untouched. */
  ghost predicate Processed(g: MB.Rig, st: MB.Stereo, st': MB.Stereo, ls: seq<real>, rs: seq<real>,
                            l: seq<real>, r: seq<real>, n: nat)
  {
    && g.Valid() && st.Valid() && n <= |ls| == |l| && n <= |rs| == |r|
    && Paired(l[..n], r[..n]) == MB.Run(g, st, Paired(ls[..n], rs[..n]))
    && st' == MB.StateAt(g, st, Paired(ls[..n], rs[..n]), n)
    && l[n..] == ls[n..] && r[n..] == rs[n..]
  }

  lemma BlockEnd(l: seq<real>, r: seq<real>, ls: seq<real>, rs: seq<real>, g: MB.Rig, st: MB.Stereo, n: nat)
    requires g.Valid() && st.Valid() && n <= |ls| && n <= |rs|
    requires BlockDone(l, r, ls, rs, MB.Run(g, st, Paired(ls[..n], rs[..n])), n)
    ensures Processed(g, st, MB.StateAt(g, st, Paired(ls[..n], rs[..n]), n), ls, rs, l, r, n)
  {
    hide MB.Rig.Valid, MB.Stereo.Valid, MB.Run, MB.StateAt;
  }
}
