/**
 The effect service of `magisk/aidl/src/EffectImpl.h`: its command state machine, and the worker that
 drains the input queue, processes it in engine-sized blocks and reports what it moved.
 */
module EffectWorker {

  // ---- commands ----

  datatype State = Init | Idle | Processing

  datatype Command = Open(queuesValid: bool) | Start | Stop | Reset | Close

  /** The members the commands act on; `workers` counts the worker threads alive. */
  datatype Service = Service(state: State, running: bool, workers: nat, queues: bool)

  const CREATED := Service(Init, false, 0, false)

  function Started(s: Service): Service {
    if s.running then s else s.(running := true, state := Processing, workers := s.workers + 1)
  }

  function Stopped(s: Service): Service {
    if !s.running then s
    else s.(running := false, workers := 0, state := if s.state == Processing then Idle else s.state)
  }

  function Obeyed(s: Service, c: Command): Service {
    match c
    case Open(valid) =>
      if s.state != Init then s
      else if !valid then s.(queues := false)
      else s.(queues := true, state := Idle)
    case Start => Started(s)
    case Stop => Stopped(s)
    case Reset => Stopped(s)
    case Close => Stopped(s).(queues := false, state := Init)
  }

  function ObeyedAll(s: Service, cs: seq<Command>): Service
    decreases |cs|
  {
    if cs == [] then s else ObeyedAll(Obeyed(s, cs[0]), cs[1..])
  }

  /** PROCESSING means exactly that one worker is alive. */
  predicate StateIsWorker(s: Service) {
    (s.state == Processing <==> s.workers == 1) && s.workers <= 1 && (s.running <==> s.workers == 1)
  }

  /** An opened effect has queues to serve. */
  predicate OpenedHasQueues(s: Service) {
    s.state != Init ==> s.queues
  }

  lemma {:induction false} StateIsWorkerInEveryRun(s: Service, cs: seq<Command>)
    requires StateIsWorker(s)
    ensures StateIsWorker(ObeyedAll(s, cs))
    decreases |cs|
  {
    if cs != [] {
      StateIsWorkerInEveryRun(Obeyed(s, cs[0]), cs[1..]);
    }
  }

  /** No START arrives while the effect is not open. */
  predicate StartsAfterOpen(s: Service, cs: seq<Command>)
    decreases |cs|
  {
    cs != [] ==> (cs[0] == Start ==> s.state != Init) && StartsAfterOpen(Obeyed(s, cs[0]), cs[1..])
  }

  /** What holds of a service on which every START so far came after an OPEN. */
  predicate Orderly(s: Service) {
    StateIsWorker(s) && OpenedHasQueues(s) && (s.state == Init ==> !s.queues)
  }

  /** An opened effect has queues throughout a run of commands exactly when no START in it comes too
      early. */
  lemma {:induction false} QueuesKeptIffStartsAfterOpen(s: Service, cs: seq<Command>)
    requires Orderly(s)
    ensures StartsAfterOpen(s, cs) <==> forall k :: 0 <= k <= |cs| ==> OpenedHasQueues(ObeyedAll(s, cs[..k]))
    decreases |cs|
  {
    if cs != [] {
      var s', rest := Obeyed(s, cs[0]), cs[1..];
      assert forall k :: 0 <= k < |cs| ==> cs[..k + 1][0] == cs[0] && cs[..k + 1][1..] == rest[..k];
      assert forall k :: 0 <= k < |cs| ==> ObeyedAll(s, cs[..k + 1]) == ObeyedAll(s', rest[..k]);
      if cs[0] == Start && s.state == Init {
        assert !OpenedHasQueues(ObeyedAll(s', rest[..0]));
        assert !OpenedHasQueues(ObeyedAll(s, cs[..0 + 1]));
      } else {
        QueuesKeptIffStartsAfterOpen(s', rest);
        EveryPrefix(s, s', cs, rest);
      }
    }
  }

  lemma EveryPrefix(s: Service, s': Service, cs: seq<Command>, rest: seq<Command>)
    requires |cs| == |rest| + 1 && OpenedHasQueues(s)
    requires forall k :: 0 <= k < |cs| ==> ObeyedAll(s, cs[..k + 1]) == ObeyedAll(s', rest[..k])
    ensures (forall k :: 0 <= k <= |cs| ==> OpenedHasQueues(ObeyedAll(s, cs[..k])))
       <==> (forall k :: 0 <= k <= |rest| ==> OpenedHasQueues(ObeyedAll(s', rest[..k])))
  {
    if forall k :: 0 <= k <= |cs| ==> OpenedHasQueues(ObeyedAll(s, cs[..k])) {
      forall k | 0 <= k <= |rest| ensures OpenedHasQueues(ObeyedAll(s', rest[..k])) {
        assert OpenedHasQueues(ObeyedAll(s, cs[..k + 1]));
      }
    }
    if forall k :: 0 <= k <= |rest| ==> OpenedHasQueues(ObeyedAll(s', rest[..k])) {
      forall k | 0 <= k <= |cs| ensures OpenedHasQueues(ObeyedAll(s, cs[..k])) {
        if k != 0 {
          assert OpenedHasQueues(ObeyedAll(s', rest[..k - 1]));
          assert cs[..k - 1 + 1] == cs[..k];
        }
      }
    }
  }

  lemma {:induction false} NoQueuesUntilClose(s: Service, cs: seq<Command>)
    requires s.state != Init && !s.queues && Close !in cs
    ensures ObeyedAll(s, cs).state != Init && !ObeyedAll(s, cs).queues
    decreases |cs|
  {
    if cs != [] {
      assert Close !in cs[1..];
      NoQueuesUntilClose(Obeyed(s, cs[0]), cs[1..]);
    }
  }

  /** After a START that came too early no OPEN makes queues, however often it is repeated and whatever
      comes between: only a CLOSE ends it. */
  lemma EarlyStartLastsUntilClose(s: Service, cs: seq<Command>)
    requires Orderly(s) && s.state == Init && Close !in cs
    ensures var e := ObeyedAll(Obeyed(s, Start), cs); e.state != Init && !e.queues
  {
    NoQueuesUntilClose(Obeyed(s, Start), cs);
  }

  predicate Halts(c: Command) { c == Stop || c == Reset || c == Close }

  /** Some command of `cs` that `begins` has none that `ends` after it. */
  ghost predicate Lasting(cs: seq<Command>, begins: Command -> bool, ends: Command -> bool) {
    exists i :: 0 <= i < |cs| && begins(cs[i]) && forall j :: i < j < |cs| ==> !ends(cs[j])
  }

  ghost predicate None(cs: seq<Command>, ends: Command -> bool) {
    forall j :: 0 <= j < |cs| ==> !ends(cs[j])
  }

  lemma LastingFromFront(cs: seq<Command>, begins: Command -> bool, ends: Command -> bool)
    requires cs != []
    ensures Lasting(cs, begins, ends) <==> Lasting(cs[1..], begins, ends) || (begins(cs[0]) && None(cs[1..], ends))
    ensures None(cs, ends) <==> !ends(cs[0]) && None(cs[1..], ends)
  {
    var rest := cs[1..];
    assert forall j :: 0 <= j < |rest| ==> rest[j] == cs[j + 1];
    assert forall j :: 0 < j < |cs| ==> cs[j] == rest[j - 1];
    if Lasting(cs, begins, ends) {
      var i :| 0 <= i < |cs| && begins(cs[i]) && forall j :: i < j < |cs| ==> !ends(cs[j]);
      if i != 0 {
        assert begins(rest[i - 1]);
      }
    }
    if Lasting(rest, begins, ends) {
      var i :| 0 <= i < |rest| && begins(rest[i]) && forall j :: i < j < |rest| ==> !ends(rest[j]);
      assert begins(cs[i + 1]);
    }
    if begins(cs[0]) && None(rest, ends) {
      assert forall j :: 0 < j < |cs| ==> !ends(cs[j]);
    }
  }

  /** The effect is processing exactly when its last START, in this run or before, has had no STOP, RESET or
      CLOSE after it. */
  lemma {:induction false} ProcessingIffStarted(s: Service, cs: seq<Command>)
    requires StateIsWorker(s)
    ensures ObeyedAll(s, cs).state == Processing
       <==> Lasting(cs, c => c == Start, Halts) || (s.state == Processing && None(cs, Halts))
    decreases |cs|
  {
    if cs != [] {
      LastingFromFront(cs, c => c == Start, Halts);
      ProcessingIffStarted(Obeyed(s, cs[0]), cs[1..]);
      hide Lasting, None, ObeyedAll;
    }
  }

  predicate Opens(c: Command) { c == Open(true) || c == Start }

  /** The effect is out of its initial state exactly when an OPEN that got its queues, or a START, has had no
      CLOSE after it. */
  lemma {:induction false} OpenedIff(s: Service, cs: seq<Command>)
    requires StateIsWorker(s)
    ensures ObeyedAll(s, cs).state != Init
       <==> Lasting(cs, Opens, c => c == Close) || (s.state != Init && None(cs, c => c == Close))
    decreases |cs|
  {
    if cs != [] {
      LastingFromFront(cs, Opens, c => c == Close);
      OpenedIff(Obeyed(s, cs[0]), cs[1..]);
      hide Lasting, None, ObeyedAll;
    }
  }

  class Lifecycle {
    var state: State
    var running: bool
    var queues: bool
    ghost var workers: nat

    ghost function Value(): Service
      reads this
    {
      Service(state, running, workers, queues)
    }

    constructor ()
      ensures Value() == CREATED
    {
      state, running, queues, workers := Init, false, false, 0;
    }

    method StartWorker()
      modifies this
      ensures Value() == Started(old(Value()))
    {
      var was := running;
      running := true;
      if was {
        return;
      }
      state := Processing;
      workers := workers + 1;
    }

    method StopWorker()
      modifies this
      ensures Value() == Stopped(old(Value()))
    {
      var was := running;
      running := false;
      if !was {
        return;
      }
      workers := 0;
      if state == Processing {
        state := Idle;
      }
    }

    method Perform(c: Command) returns (ok: bool)
      modifies this
      ensures Value() == Obeyed(old(Value()), c)
      ensures ok <==> !(c.Open? && !c.queuesValid && old(state) == Init)
    {
      ok := true;
      match c
      case Open(valid) =>
        if state == Init {
          queues := valid;
          if !valid {
            ok := false;
            return;
          }
          state := Idle;
        }
      case Start => StartWorker();
      case Stop => StopWorker();
      case Reset => StopWorker();
      case Close =>
        StopWorker();
        queues := false;
        state := Init;
    }
  }

  // ---- the audio ----

  /** The engine, one frame at a time. */
  type Engine<!S> = (S, real, real) -> (S, real, real)

  /** The engine's state after the first k frames of an interleaved chunk. */
  ghost function EngineAt<S>(f: Engine<S>, s: S, xs: seq<real>, k: nat): S
    requires 2 * k <= |xs|
  {
    if k == 0 then s else f(EngineAt(f, s, xs, k - 1), xs[2 * k - 2], xs[2 * k - 1]).0
  }

  /** Sample i after processing: its half of its frame's output, or itself if it has no partner. */
  ghost function SampleOut<S>(f: Engine<S>, s: S, xs: seq<real>, i: nat): real
    requires i < |xs|
  {
    if 2 * (i / 2) + 1 < |xs| then
      var out := f(EngineAt(f, s, xs, i / 2), xs[2 * (i / 2)], xs[2 * (i / 2) + 1]);
      if i % 2 == 0 then out.1 else out.2
    else xs[i]
  }

  /** A chunk after processing. */
  ghost function Outs<S>(f: Engine<S>, s: S, xs: seq<real>): (ys: seq<real>)
    ensures |ys| == |xs|
  {
    seq(|xs|, i requires 0 <= i < |xs| => SampleOut(f, s, xs, i))
  }

  ghost function EngineAfter<S>(f: Engine<S>, s: S, xs: seq<real>): S {
    EngineAt(f, s, xs, |xs| / 2)
  }

  lemma {:induction false} EngineOfPrefix<S>(f: Engine<S>, s: S, us: seq<real>, vs: seq<real>, k: nat)
    requires 2 * k <= |us|
    ensures EngineAt(f, s, us + vs, k) == EngineAt(f, s, us, k)
  {
    if k != 0 {
      EngineOfPrefix(f, s, us, vs, k - 1);
    }
  }

  lemma {:induction false} EngineOfConcat<S>(f: Engine<S>, s: S, us: seq<real>, vs: seq<real>, k: nat)
    requires |us| % 2 == 0 && 2 * k <= |vs|
    ensures EngineAt(f, s, us + vs, |us| / 2 + k) == EngineAt(f, EngineAfter(f, s, us), vs, k)
  {
    if k == 0 {
      EngineOfPrefix(f, s, us, vs, |us| / 2);
    } else {
      EngineOfConcat(f, s, us, vs, k - 1);
    }
  }

  lemma SampleOfConcat<S>(f: Engine<S>, s: S, us: seq<real>, vs: seq<real>, i: nat)
    requires |us| % 2 == 0 && i < |us| + |vs|
    ensures SampleOut(f, s, us + vs, i)
         == if i < |us| then SampleOut(f, s, us, i) else SampleOut(f, EngineAfter(f, s, us), vs, i - |us|)
  {
    hide EngineAt, EngineAfter;
    if i < |us| {
      EngineOfPrefix(f, s, us, vs, i / 2);
    } else if 2 * ((i - |us|) / 2) + 1 < |vs| {
      EngineOfConcat(f, s, us, vs, (i - |us|) / 2);
    }
  }

  /** Cutting after whole frames changes nothing. */
  lemma OutsOfConcat<S>(f: Engine<S>, s: S, us: seq<real>, vs: seq<real>)
    requires |us| % 2 == 0
    ensures Outs(f, s, us + vs) == Outs(f, s, us) + Outs(f, EngineAfter(f, s, us), vs)
    ensures EngineAfter(f, s, us + vs) == EngineAfter(f, EngineAfter(f, s, us), vs)
  {
    hide SampleOut, EngineAt;
    forall i | 0 <= i < |us + vs|
      ensures Outs(f, s, us + vs)[i] == (Outs(f, s, us) + Outs(f, EngineAfter(f, s, us), vs))[i]
    {
      SampleOfConcat(f, s, us, vs, i);
    }
    EngineOfConcat(f, s, us, vs, |vs| / 2);
  }

  /** Processing as one would write it down: take a frame, process it, go on with the state it leaves; a
      sample without a partner stays as it is. */
  ghost function FrameByFrame<S>(f: Engine<S>, s: S, xs: seq<real>): (S, seq<real>)
    decreases |xs|
  {
    if |xs| < 2 then (s, xs)
    else
      var (s', l, r) := f(s, xs[0], xs[1]);
      var (end, rest) := FrameByFrame(f, s', xs[2..]);
      (end, [l, r] + rest)
  }

  /** What a chunk becomes, sample by sample, is what processing frame by frame makes of it. */
  lemma {:induction false} OutsAreFrames<S>(f: Engine<S>, s: S, xs: seq<real>)
    ensures FrameByFrame(f, s, xs) == (EngineAfter(f, s, xs), Outs(f, s, xs))
    decreases |xs|
  {
    if 2 <= |xs| {
      var s' := f(s, xs[0], xs[1]).0;
      OutsAreFrames(f, s', xs[2..]);
      OneFrame(f, s, xs[..2]);
      OutsOfConcat(f, s, xs[..2], xs[2..]);
      assert xs[..2] + xs[2..] == xs;
    } else {
      hide EngineAt;
      NoWholeFrame(f, s, xs);
    }
  }

  lemma OneFrame<S>(f: Engine<S>, s: S, xs: seq<real>)
    requires |xs| == 2
    ensures var out := f(s, xs[0], xs[1]); EngineAfter(f, s, xs) == out.0 && Outs(f, s, xs) == [out.1, out.2]
  {
    assert EngineAt(f, s, xs, 0) == s;
    assert EngineAt(f, s, xs, 1) == f(s, xs[0], xs[1]).0;
  }

  lemma NoWholeFrame<S>(f: Engine<S>, s: S, xs: seq<real>)
    requires |xs| < 2
    ensures EngineAfter(f, s, xs) == s && Outs(f, s, xs) == xs
  {
  }

  // ---- whole runs of the loop ----

  /** One round of the loop that read something: how many samples, and whether the output queue and
      the status queue had room. */
  datatype Round = Round(count: nat, wrote: bool, reported: bool)

  function Total(rs: seq<Round>): nat {
    if rs == [] then 0 else rs[0].count + Total(rs[1..])
  }

  /** What the rounds put into the output queue. */
  ghost function Emitted<S>(f: Engine<S>, s: S, xs: seq<real>, rs: seq<Round>): seq<real>
    requires Total(rs) <= |xs|
    decreases |rs|
  {
    if rs == [] then []
    else
      var chunk := xs[..rs[0].count];
      (if rs[0].wrote then Outs(f, s, chunk) else [])
        + Emitted(f, EngineAfter(f, s, chunk), xs[rs[0].count..], rs[1..])
  }

  /** The engine's state once all rounds have been served, written or not. */
  ghost function EngineAfterRounds<S>(f: Engine<S>, s: S, xs: seq<real>, rs: seq<Round>): S
    requires Total(rs) <= |xs|
    decreases |rs|
  {
    if rs == [] then s
    else EngineAfterRounds(f, EngineAfter(f, s, xs[..rs[0].count]), xs[rs[0].count..], rs[1..])
  }

  /** A stream with the stretches of the failed writes left out. */
  ghost function Kept(ys: seq<real>, rs: seq<Round>): seq<real>
    requires Total(rs) <= |ys|
    decreases |rs|
  {
    if rs == [] then []
    else (if rs[0].wrote then ys[..rs[0].count] else []) + Kept(ys[rs[0].count..], rs[1..])
  }

  /** Every round but the last read whole frames. */
  predicate WholeFrames(rs: seq<Round>) {
    forall i :: 0 <= i < |rs| - 1 ==> rs[i].count % 2 == 0
  }

  /** If whole frames are read, the output is the per-frame processing of the input stream in order,
      with only the chunks of failed writes missing, however the reads cut it, and the engine ends up
      where one run over the stream takes it. */
  lemma {:induction false} EmittedIsProcessedStream<S>(f: Engine<S>, s: S, xs: seq<real>, rs: seq<Round>)
    requires Total(rs) == |xs| && WholeFrames(rs)
    ensures Emitted(f, s, xs, rs) == Kept(Outs(f, s, xs), rs)
    ensures EngineAfterRounds(f, s, xs, rs) == EngineAfter(f, s, xs)
    decreases |rs|
  {
    if rs == [] {
      NoEngineSteps(f, s, xs);
    }
    hide Outs, EngineAfter;
    if rs != [] {
      var u, v := xs[..rs[0].count], xs[rs[0].count..];
      assert xs == u + v;
      if |rs| == 1 {
        assert rs[1..] == [];
        assert u == xs;
      } else {
        assert forall i :: 0 <= i < |rs[1..]| - 1 ==> rs[1..][i] == rs[i + 1];
        OutsOfConcat(f, s, u, v);
        EmittedIsProcessedStream(f, EngineAfter(f, s, u), v, rs[1..]);
      }
    }
  }

  lemma NoEngineSteps<S>(f: Engine<S>, s: S, xs: seq<real>)
    requires xs == []
    ensures EngineAfter(f, s, xs) == s
  {
  }

  /** When nothing is dropped the cuts cannot be heard at all. */
  lemma {:induction false} KeptEverything(ys: seq<real>, rs: seq<Round>)
    requires Total(rs) == |ys| && forall i :: 0 <= i < |rs| ==> rs[i].wrote
    ensures Kept(ys, rs) == ys
    decreases |rs|
  {
    if rs != [] {
      KeptEverything(ys[rs[0].count..], rs[1..]);
    }
  }

  /** An engine that mutes everything, which shows which samples reach it. */
  function Mute(s: bool, l: real, r: real): (bool, real, real) { (s, 0.0, 0.0) }

  function Ones(n: nat): (r: seq<real>)
    ensures |r| == n
  {
    seq(n, i => 1.0)
  }

  /** A read that ends inside a frame lets its last sample through unprocessed. */
  lemma OddChunk(s: bool, n: nat, c: nat)
    requires c < n && c % 2 == 1
    ensures Outs(Mute, s, Ones(n)[..c])[c - 1] == 1.0 && Outs(Mute, s, Ones(n))[c - 1] == 0.0
  {
    hide EngineAt;
  }

  lemma {:induction false} OddReadIsHeard(s: bool, rs: seq<Round>)
    requires forall i :: 0 <= i < |rs| ==> rs[i].wrote && 0 < rs[i].count
    requires !WholeFrames(rs)
    ensures Emitted(Mute, s, Ones(Total(rs)), rs) != Outs(Mute, s, Ones(Total(rs)))
    decreases |rs|
  {
    hide Outs, EngineAfter;
    var c, n := rs[0].count, Total(rs);
    var xs := Ones(n);
    var u, v := xs[..c], xs[c..];
    var s' := EngineAfter(Mute, s, u);
    var rest := Emitted(Mute, s', v, rs[1..]);
    assert Emitted(Mute, s, xs, rs) == Outs(Mute, s, u) + rest;
    if c % 2 == 1 && 1 < |rs| {
      assert rs[1..][0] == rs[1];
      OddChunk(s, n, c);
      assert (Outs(Mute, s, u) + rest)[c - 1] == Outs(Mute, s, u)[c - 1];
    } else {
      var i :| 0 <= i < |rs| - 1 && rs[i].count % 2 == 1;
      assert rs[1..][i - 1] == rs[i];
      assert v == Ones(Total(rs[1..])) && xs == u + v;
      OddReadIsHeard(s', rs[1..]);
      OutsOfConcat(Mute, s, u, v);
      assert (Outs(Mute, s, u) + rest)[c..] == rest && (Outs(Mute, s, u) + Outs(Mute, s', v))[c..] == Outs(Mute, s', v);
    }
  }

  /** With nothing dropped, the output is the processed stream for every engine and input exactly when
      every read but the last ends on a frame. */
  lemma CutsInaudibleIffWholeFrames(rs: seq<Round>)
    requires forall i :: 0 <= i < |rs| ==> rs[i].wrote && 0 < rs[i].count
    ensures WholeFrames(rs) <==>
            forall f: Engine<bool>, s: bool, xs: seq<real> ::
              |xs| == Total(rs) ==> Emitted(f, s, xs, rs) == Outs(f, s, xs)
  {
    if WholeFrames(rs) {
      forall f: Engine<bool>, s: bool, xs: seq<real> | |xs| == Total(rs)
        ensures Emitted(f, s, xs, rs) == Outs(f, s, xs)
      {
        EmittedIsProcessedStream(f, s, xs, rs);
        KeptEverything(Outs(f, s, xs), rs);
      }
    } else {
      OddReadIsHeard(true, rs);
    }
  }

  // ---- what is reported ----

  datatype Report = Report(ok: bool, consumed: nat, produced: nat)

  function ReportOf(r: Round): Report { Report(r.wrote, r.count, if r.wrote then r.count else 0) }

  function ReportsOf(rs: seq<Round>): seq<Report> {
    if rs == [] then [] else (if rs[0].reported then [ReportOf(rs[0])] else []) + ReportsOf(rs[1..])
  }

  function Consumed(ps: seq<Report>): nat { if ps == [] then 0 else ps[0].consumed + Consumed(ps[1..]) }

  function Produced(ps: seq<Report>): nat { if ps == [] then 0 else ps[0].produced + Produced(ps[1..]) }

  /** When every report found room, the reported totals are what was read and what was written, and each
      report says of its own round whether its chunk was. */
  lemma {:induction false} ReportsMatch<S>(f: Engine<S>, s: S, xs: seq<real>, rs: seq<Round>)
    requires Total(rs) <= |xs| && forall i :: 0 <= i < |rs| ==> rs[i].reported
    ensures Consumed(ReportsOf(rs)) == Total(rs) && Produced(ReportsOf(rs)) == |Emitted(f, s, xs, rs)|
    ensures |ReportsOf(rs)| == |rs| && forall i :: 0 <= i < |rs| ==> (ReportsOf(rs)[i].ok <==> rs[i].wrote)
    decreases |rs|
  {
    hide Outs, EngineAfter;
    if rs != [] {
      ReportsMatch(f, EngineAfter(f, s, xs[..rs[0].count]), xs[rs[0].count..], rs[1..]);
      assert ReportsOf(rs)[1..] == ReportsOf(rs[1..]);
    }
  }

  // ---- the program ----

  const BLOCK: nat := 4096

  class Worker<!S> {
    const f: Engine<S>
    var dsp: S
    var input: seq<real>       // the input queue
    var output: seq<real>      // the output queue
    var reports: seq<Report>   // what was put into the status queue

    constructor (f: Engine<S>, dsp: S)
      ensures this.f == f && this.dsp == dsp && input == [] && output == [] && reports == []
    {
      this.f, this.dsp := f, dsp;
      input, output, reports := [], [], [];
    }

    /** `JamesDSPProcess` on n frames of planar channels. */
    method EngineBlock(left: array<real>, right: array<real>, n: nat, ghost xs: seq<real>, ghost s: S, ghost off: nat)
      requires left != right && n <= left.Length && n <= right.Length
      requires 2 * (off + n) <= |xs| && dsp == EngineAt(f, s, xs, off)
      requires forall i :: 0 <= i < n ==> left[i] == xs[2 * (off + i)] && right[i] == xs[2 * (off + i) + 1]
      modifies `dsp, left, right
      ensures dsp == EngineAt(f, s, xs, off + n)
      ensures forall i :: 0 <= i < n ==>
                left[i] == SampleOut(f, s, xs, 2 * (off + i)) && right[i] == SampleOut(f, s, xs, 2 * (off + i) + 1)
    {
      for i := 0 to n
        invariant dsp == EngineAt(f, s, xs, off + i)
        invariant forall k :: 0 <= k < i ==>
                    left[k] == SampleOut(f, s, xs, 2 * (off + k)) && right[k] == SampleOut(f, s, xs, 2 * (off + k) + 1)
        invariant forall k :: i <= k < n ==> left[k] == xs[2 * (off + k)] && right[k] == xs[2 * (off + k) + 1]
      {
        FrameStep(f, s, xs, off + i);
        var out := f(dsp, left[i], right[i]);
        hide SampleOut, EngineAt;
        dsp, left[i], right[i] := out.0, out.1, out.2;
      }
    }

    /** The loop over engine-sized blocks: deinterleave, process, interleave, all in the chunk itself. */
    method ProcessChunk(chunk: array<real>)
      modifies `dsp, chunk
      ensures chunk[..] == Outs(f, old(dsp), old(chunk[..])) && dsp == EngineAfter(f, old(dsp), old(chunk[..]))
    {
      hide EngineAt, SampleOut;
      ghost var s, xs := dsp, chunk[..];
      var left, right := new real[BLOCK](_ => 0.0), new real[BLOCK](_ => 0.0);
      var frames := chunk.Length / 2;
      var off: nat := 0;
      EngineStart(f, s, xs);
      while off < frames
        invariant off <= frames && dsp == EngineAt(f, s, xs, off)
        invariant forall i :: 0 <= i < chunk.Length ==>
                    chunk[i] == if i < 2 * off then SampleOut(f, s, xs, i) else xs[i]
        decreases frames - off
      {
        var n := if BLOCK <= frames - off then BLOCK else frames - off;
        Deinterleave(chunk, left, right, off, n);
        EngineBlock(left, right, n, xs, s, off);
        Interleave(chunk, left, right, off, n);
        forall p | 2 * off <= p < 2 * (off + n) ensures chunk[p] == SampleOut(f, s, xs, p) {
          var k := p / 2 - off;
          assert chunk[2 * (off + k)] == left[k] && chunk[2 * (off + k) + 1] == right[k];
          assert p == 2 * (off + k) || p == 2 * (off + k) + 1;
        }
        off := off + n;
      }
      Leftover(f, s, xs);
    }

    method Deinterleave(chunk: array<real>, left: array<real>, right: array<real>, off: nat, n: nat)
      requires left != right && chunk != left && chunk != right
      requires n <= left.Length && n <= right.Length && 2 * (off + n) <= chunk.Length
      modifies left, right
      ensures forall i :: 0 <= i < n ==> left[i] == chunk[2 * (off + i)] && right[i] == chunk[2 * (off + i) + 1]
    {
      for i := 0 to n
        invariant forall k :: 0 <= k < i ==> left[k] == chunk[2 * (off + k)] && right[k] == chunk[2 * (off + k) + 1]
      {
        left[i] := chunk[(off + i) * 2];
        right[i] := chunk[(off + i) * 2 + 1];
      }
    }

    method Interleave(chunk: array<real>, left: array<real>, right: array<real>, off: nat, n: nat)
      requires chunk != left && chunk != right
      requires n <= left.Length && n <= right.Length && 2 * (off + n) <= chunk.Length
      modifies chunk
      ensures forall i :: 0 <= i < n ==> chunk[2 * (off + i)] == left[i] && chunk[2 * (off + i) + 1] == right[i]
      ensures forall k :: 0 <= k < chunk.Length && !(2 * off <= k < 2 * (off + n)) ==> chunk[k] == old(chunk[k])
    {
      for i := 0 to n
        invariant forall k :: 0 <= k < i ==> chunk[2 * (off + k)] == left[k] && chunk[2 * (off + k) + 1] == right[k]
        invariant forall k :: 0 <= k < chunk.Length && !(2 * off <= k < 2 * (off + i)) ==> chunk[k] == old(chunk[k])
      {
        chunk[(off + i) * 2] := left[i];
        chunk[(off + i) * 2 + 1] := right[i];
      }
    }

    /** One round that found `r.count` samples queued. */
    method Serve(r: Round)
      requires r.count <= |input|
      modifies this
      ensures input == old(input)[r.count..]
      ensures dsp == EngineAfter(f, old(dsp), old(input)[..r.count])
      ensures output == old(output) + if r.wrote then Outs(f, old(dsp), old(input)[..r.count]) else []
      ensures reports == old(reports) + if r.reported then [ReportOf(r)] else []
    {
      hide Outs, EngineAfter;
      ghost var taken := input[..r.count];
      var chunk := new real[r.count](i requires 0 <= i < r.count reads this => if i < |input| then input[i] else 0.0);
      assert chunk[..] == taken;
      input := input[r.count..];
      ProcessChunk(chunk);
      if r.wrote {
        output := output + chunk[..];
      }
      if r.reported {
        reports := reports + [Report(r.wrote, r.count, if r.wrote then r.count else 0)];
      }
    }

    /** `workerLoop` over the rounds that read something. */
    method Run(rs: seq<Round>)
      requires Total(rs) <= |input|
      modifies this
      ensures input == old(input)[Total(rs)..]
      ensures dsp == EngineAfterRounds(f, old(dsp), old(input), rs)
      ensures output == old(output) + Emitted(f, old(dsp), old(input), rs)
      ensures reports == old(reports) + ReportsOf(rs)
    {
      hide Outs, EngineAfter, Emitted, ReportsOf, Total, ReportOf, EngineAfterRounds;
      ghost var emitted, reported := output + Emitted(f, dsp, input, rs), reports + ReportsOf(rs);
      ghost var left, last := input[Total(rs)..], EngineAfterRounds(f, dsp, input, rs);
      assert rs[0..] == rs;
      for i := 0 to |rs|
        invariant Total(rs[i..]) <= |input| && input[Total(rs[i..])..] == left
        invariant EngineAfterRounds(f, dsp, input, rs[i..]) == last
        invariant output + Emitted(f, dsp, input, rs[i..]) == emitted
        invariant reports + ReportsOf(rs[i..]) == reported
      {
        assert rs[i..][1..] == rs[i + 1..];
        RoundByRound(f, dsp, input, rs[i..]);
        ghost var rest := input[rs[i].count..];
        ghost var now := if rs[i].wrote then Outs(f, dsp, input[..rs[i].count]) else [];
        ghost var said := if rs[i].reported then [ReportOf(rs[i])] else [];
        AppendAssociates(output, now, Emitted(f, EngineAfter(f, dsp, input[..rs[i].count]), rest, rs[i + 1..]));
        AppendAssociates(reports, said, ReportsOf(rs[i + 1..]));
        Serve(rs[i]);
      }
      NoRounds(f, dsp, input, rs[|rs|..]);
    }
  }

  lemma AppendAssociates<T>(u: seq<T>, v: seq<T>, w: seq<T>)
    ensures u + (v + w) == (u + v) + w
  {
  }

  lemma NoRounds<S>(f: Engine<S>, s: S, xs: seq<real>, rs: seq<Round>)
    requires rs == []
    ensures Total(rs) == 0 && EngineAfterRounds(f, s, xs, rs) == s && Emitted(f, s, xs, rs) == [] && ReportsOf(rs) == []
    ensures xs[0..] == xs
  {
  }

  lemma RoundByRound<S>(f: Engine<S>, s: S, xs: seq<real>, rs: seq<Round>)
    requires rs != [] && Total(rs) <= |xs|
    ensures Total(rs) == rs[0].count + Total(rs[1..])
    ensures xs[Total(rs)..] == xs[rs[0].count..][Total(rs[1..])..]
    ensures Emitted(f, s, xs, rs)
         == (if rs[0].wrote then Outs(f, s, xs[..rs[0].count]) else [])
              + Emitted(f, EngineAfter(f, s, xs[..rs[0].count]), xs[rs[0].count..], rs[1..])
    ensures EngineAfterRounds(f, s, xs, rs)
         == EngineAfterRounds(f, EngineAfter(f, s, xs[..rs[0].count]), xs[rs[0].count..], rs[1..])
    ensures ReportsOf(rs) == (if rs[0].reported then [ReportOf(rs[0])] else []) + ReportsOf(rs[1..])
  {
    hide Outs, EngineAfter;
  }

  lemma EngineStart<S>(f: Engine<S>, s: S, xs: seq<real>)
    ensures EngineAt(f, s, xs, 0) == s
  {
  }

  lemma Leftover<S>(f: Engine<S>, s: S, xs: seq<real>)
    ensures |xs| % 2 == 1 ==> SampleOut(f, s, xs, |xs| - 1) == xs[|xs| - 1]
  {
  }

  lemma FrameStep<S>(f: Engine<S>, s: S, xs: seq<real>, k: nat)
    requires 2 * k + 1 < |xs|
    ensures var out := f(EngineAt(f, s, xs, k), xs[2 * k], xs[2 * k + 1]);
            && EngineAt(f, s, xs, k + 1) == out.0
            && SampleOut(f, s, xs, 2 * k) == out.1 && SampleOut(f, s, xs, 2 * k + 1) == out.2
  {
  }
}
