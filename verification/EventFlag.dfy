/**
 The futex event flag of `magisk/aidl/fmq/EventFlag.cpp` as a state machine: every atomic
 operation on the futex word and every system call is one step, and any number of threads take
 their steps in any order. A 32-bit mask is the set of its bit positions.
 */
module EventFlag {

  type Bit = b: int | 0 <= b < 32 witness 0
  type Mask = set<Bit>
  type Tid = nat

  datatype Status = NoError | BadValue | Again | Interrupted | TimedOut | Failed

  /** The arguments of one call of `wait`. */
  datatype Call = Call(mask: Mask, nullState: bool, hasTimeout: bool, retry: bool)

  /** Where a thread stands between two atomic operations. */
  datatype Thread =
    | Idle
    | Waking(bits: Mask)                                  // after fetch_or, before FUTEX_WAKE_BITSET
    | Entering(call: Call)                                // before the first fetch_and
    | Checking(call: Call, expected: Mask)                // before FUTEX_WAIT_BITSET
    | Sleeping(call: Call)                                // queued by the kernel
    | Awake(call: Call)                                   // the call returned 0, before the second fetch_and
    | Deciding(call: Call, status: Status, held: Mask)    // waitHelper has returned to wait

  datatype Event =
    | Raised(bits: Mask)                                  // bits a wake turned from 0 to 1
    | Returned(tid: Tid, call: Call, status: Status, got: Mask)   // what a call of wait handed to its caller

  datatype State = State(word: Mask, threads: map<Tid, Thread>, log: seq<Event>)

  datatype Step =
    | CallWake(tid: Tid, mask: Mask)
    | FutexWake(tid: Tid)
    | CallWait(tid: Tid, call: Call)
    | FirstFetchAnd(tid: Tid)
    | FutexWait(tid: Tid)
    | WaitFails(tid: Tid)
    | Timeout(tid: Tid)
    | Signal(tid: Tid)
    | SpuriousWake(tid: Tid)
    | SecondFetchAnd(tid: Tid)
    | Decide(tid: Tid, expired: bool)

  predicate Enabled(s: State, step: Step) {
    && step.tid in s.threads
    && var th := s.threads[step.tid];
       match step
       case CallWake(_, _) => th.Idle?
       case FutexWake(_) => th.Waking?
       case CallWait(_, _) => th.Idle?
       case FirstFetchAnd(_) => th.Entering?
       case FutexWait(_) => th.Checking?
       case WaitFails(_) => th.Checking?
       case Timeout(_) => th.Sleeping? && th.call.hasTimeout
       case Signal(_) => th.Sleeping?
       case SpuriousWake(_) => th.Sleeping?
       case SecondFetchAnd(_) => th.Awake?
       case Decide(_, _) => th.Deciding?
  }

  /** FUTEX_WAKE_BITSET with an unlimited count: every sleeper sharing a bit is dequeued. */
  function WakeSleepers(threads: map<Tid, Thread>, bits: Mask): map<Tid, Thread> {
    map t | t in threads ::
      if threads[t].Sleeping? && threads[t].call.mask * bits != {} then Awake(threads[t].call) else threads[t]
  }

  function Goto(s: State, t: Tid, th: Thread): State {
    s.(threads := s.threads[t := th])
  }

  function Finish(s: State, t: Tid, call: Call, status: Status, got: Mask): State {
    Goto(s, t, Idle).(log := s.log + [Returned(t, call, status, got)])
  }

  function Apply(s: State, step: Step): State
    requires Enabled(s, step)
  {
    var t := step.tid;
    var th := s.threads[t];
    match step
    case CallWake(_, mask) =>
      if mask == {} then s
      else
        var s' := s.(word := s.word + mask, log := s.log + [Raised(mask - s.word)]);
        if mask - s.word != {} then Goto(s', t, Waking(mask)) else s'
    case FutexWake(_) =>
      Goto(s.(threads := WakeSleepers(s.threads, th.bits)), t, Idle)
    case CallWait(_, call) =>
      if call.mask == {} || call.nullState then Goto(s, t, Deciding(call, BadValue, {}))
      else Goto(s, t, Entering(call))
    case FirstFetchAnd(_) =>
      var bits := s.word * th.call.mask;
      var s' := s.(word := s.word - th.call.mask);
      if bits != {} then Goto(s', t, Deciding(th.call, NoError, bits))
      else Goto(s', t, Checking(th.call, s.word - th.call.mask))
    case FutexWait(_) =>
      if s.word == th.expected then Goto(s, t, Sleeping(th.call))
      else Goto(s, t, Deciding(th.call, Again, {}))
    case WaitFails(_) => Goto(s, t, Deciding(th.call, Failed, {}))
    case Timeout(_) => Goto(s, t, Deciding(th.call, TimedOut, {}))
    case Signal(_) => Goto(s, t, Deciding(th.call, Interrupted, {}))
    case SpuriousWake(_) => Goto(s, t, Awake(th.call))
    case SecondFetchAnd(_) =>
      var bits := s.word * th.call.mask;
      Goto(s.(word := s.word - th.call.mask), t,
           Deciding(th.call, if bits == {} then Interrupted else NoError, bits))
    case Decide(_, expired) =>
      if !th.call.retry || !Retryable(th.status) then Finish(s, t, th.call, th.status, th.held)
      else if th.call.hasTimeout && expired then Finish(s, t, th.call, TimedOut, {})
      else Goto(s, t, Entering(th.call))
  }

  predicate Initial(s: State) {
    (forall t :: t in s.threads ==> s.threads[t].Idle?) && s.log == []
  }

  ghost predicate IsRun(s: State, run: seq<Step>)
    decreases |run|
  {
    run == [] || (Enabled(s, run[0]) && IsRun(Apply(s, run[0]), run[1..]))
  }

  ghost function After(s: State, run: seq<Step>): State
    requires IsRun(s, run)
    decreases |run|
  {
    if run == [] then s else After(Apply(s, run[0]), run[1..])
  }

  // ---- no lost wake-up ----

  ghost predicate Covered(s: State, b: Bit) {
    exists w :: w in s.threads && s.threads[w].Waking? && b in s.threads[w].bits
  }

  /** Every bit a sleeper waits for that is set belongs to a waker that has yet to make its system
      call; and a thread about to sleep expects a word without the bits it waits for. */
  ghost predicate NoLostWakeup(s: State) {
    && (forall t, b: Bit :: t in s.threads && s.threads[t].Sleeping? && b in s.word && b in s.threads[t].call.mask
          ==> Covered(s, b))
    && (forall t :: t in s.threads && s.threads[t].Checking? ==> s.threads[t].expected !! s.threads[t].call.mask)
  }

  lemma CoverSurvives(s: State, s': State, t: Tid, b: Bit)
    requires Covered(s, b) && t in s.threads && !s.threads[t].Waking?
    requires s'.threads.Keys == s.threads.Keys
    requires forall u :: u in s.threads && u != t ==> s'.threads[u] == s.threads[u]
    ensures Covered(s', b)
  {
    var w :| w in s.threads && s.threads[w].Waking? && b in s.threads[w].bits;
    assert s'.threads[w].Waking? && b in s'.threads[w].bits;
  }

  lemma WakePreserves(s: State, t: Tid, mask: Mask)
    requires NoLostWakeup(s) && Enabled(s, CallWake(t, mask))
    ensures NoLostWakeup(Apply(s, CallWake(t, mask)))
  {
    var s' := Apply(s, CallWake(t, mask));
    forall u, b: Bit | u in s'.threads && s'.threads[u].Sleeping? && b in s'.word && b in s'.threads[u].call.mask
      ensures Covered(s', b)
    {
      if b in s.word {
        CoverSurvives(s, s', t, b);
      } else {
        assert b in mask - s.word;
        assert s'.threads[t].Waking? && b in s'.threads[t].bits;
      }
    }
  }

  lemma FutexWakePreserves(s: State, t: Tid)
    requires NoLostWakeup(s) && Enabled(s, FutexWake(t))
    ensures NoLostWakeup(Apply(s, FutexWake(t)))
  {
    var s' := Apply(s, FutexWake(t));
    forall u, b: Bit | u in s'.threads && s'.threads[u].Sleeping? && b in s'.word && b in s'.threads[u].call.mask
      ensures Covered(s', b)
    {
      assert s.threads[u].Sleeping? && s.threads[u] == s'.threads[u];
      var w :| w in s.threads && s.threads[w].Waking? && b in s.threads[w].bits;
      assert s.threads[u].call.mask * s.threads[t].bits == {};
      assert b !in s.threads[u].call.mask * s.threads[t].bits;
      assert w != t;
      assert s'.threads[w].Waking? && b in s'.threads[w].bits;
    }
  }

  lemma OtherStepPreserves(s: State, step: Step)
    requires NoLostWakeup(s) && Enabled(s, step) && !step.CallWake? && !step.FutexWake?
    ensures NoLostWakeup(Apply(s, step))
  {
    var s' := Apply(s, step);
    var t := step.tid;
    assert s'.word <= s.word;
    assert forall u :: u in s.threads && u != t ==> s'.threads[u] == s.threads[u];
    assert s'.threads[t].Checking? ==> s'.threads[t].expected !! s'.threads[t].call.mask;
    assert s'.threads[t].Sleeping? ==> s'.word !! s'.threads[t].call.mask;
    forall u, b: Bit | u in s'.threads && s'.threads[u].Sleeping? && b in s'.word && b in s'.threads[u].call.mask
      ensures Covered(s', b)
    {
      assert u != t;
      CoverSurvives(s, s', t, b);
    }
  }

  lemma StepPreserves(s: State, step: Step)
    requires NoLostWakeup(s) && Enabled(s, step)
    ensures NoLostWakeup(Apply(s, step))
  {
    hide NoLostWakeup, Apply;
    if step.CallWake? {
      WakePreserves(s, step.tid, step.mask);
    } else if step.FutexWake? {
      FutexWakePreserves(s, step.tid);
    } else {
      OtherStepPreserves(s, step);
    }
  }

  lemma {:induction false} NoLostWakeupInEveryRun(s: State, run: seq<Step>)
    requires NoLostWakeup(s) && IsRun(s, run)
    ensures NoLostWakeup(After(s, run))
    decreases |run|
  {
    if run != [] {
      hide NoLostWakeup, Enabled, Apply;
      StepPreserves(s, run[0]);
      NoLostWakeupInEveryRun(Apply(s, run[0]), run[1..]);
    }
  }

  /** Once no waker is between its two operations, nobody sleeps on a bit that is set. */
  lemma NobodySleepsOnASetBit(s: State, run: seq<Step>, t: Tid)
    requires Initial(s) && IsRun(s, run)
    requires forall w :: w in After(s, run).threads ==> !After(s, run).threads[w].Waking?
    requires t in After(s, run).threads && After(s, run).threads[t].Sleeping?
    ensures After(s, run).word !! After(s, run).threads[t].call.mask
  {
    assert NoLostWakeup(s);
    NoLostWakeupInEveryRun(s, run);
    var e := After(s, run);
    assert forall b: Bit :: !Covered(e, b);
  }

  // ---- conservation of bits ----

  function RaisedCount(log: seq<Event>, b: Bit): nat {
    if log == [] then 0
    else RaisedCount(log[..|log| - 1], b) + (if log[|log| - 1].Raised? && b in log[|log| - 1].bits then 1 else 0)
  }

  function ReturnedCount(log: seq<Event>, b: Bit): nat {
    if log == [] then 0
    else ReturnedCount(log[..|log| - 1], b) + (if log[|log| - 1].Returned? && b in log[|log| - 1].got then 1 else 0)
  }

  lemma CountsOfAppend(log: seq<Event>, e: Event, b: Bit)
    ensures RaisedCount(log + [e], b) == RaisedCount(log, b) + (if e.Raised? && b in e.bits then 1 else 0)
    ensures ReturnedCount(log + [e], b) == ReturnedCount(log, b) + (if e.Returned? && b in e.got then 1 else 0)
  {
    assert (log + [e])[..|log|] == log;
  }

  predicate Holds(th: Thread, b: Bit) {
    th.Deciding? && b in th.held
  }

  /** The threads that have cleared b from the word and not yet returned it. */
  function Holders(threads: map<Tid, Thread>, b: Bit): set<Tid> {
    set t | t in threads && Holds(threads[t], b)
  }

  function Indicator(p: bool): nat { if p then 1 else 0 }

  /** Raised bits minus returned, held and still set ones: what every step keeps. */
  ghost function Balance(s: State, b: Bit): int {
    RaisedCount(s.log, b) - ReturnedCount(s.log, b) - |Holders(s.threads, b)| - Indicator(b in s.word)
  }

  /** A call hands bits to its caller exactly when it reports success, and only bits it asked for. */
  ghost predicate SuccessMeansBits(s: State) {
    && (forall t :: t in s.threads && s.threads[t].Deciding? ==>
          && (s.threads[t].status == NoError <==> s.threads[t].held != {})
          && s.threads[t].held <= s.threads[t].call.mask)
    && (forall i :: 0 <= i < |s.log| && s.log[i].Returned? ==>
          && (s.log[i].status == NoError <==> s.log[i].got != {})
          && s.log[i].got <= s.log[i].call.mask)
  }

  lemma OneThreadMoves(threads: map<Tid, Thread>, t: Tid, th: Thread, b: Bit)
    requires t in threads
    ensures |Holders(threads[t := th], b)|
         == |Holders(threads, b)| - Indicator(Holds(threads[t], b)) + Indicator(Holds(th, b))
  {
    var before, after := Holders(threads, b), Holders(threads[t := th], b);
    var rest := before - {t};
    assert after == if Holds(th, b) then rest + {t} else rest;
    assert before == if Holds(threads[t], b) then rest + {t} else rest;
  }

  lemma WakingHoldsNothing(threads: map<Tid, Thread>, bits: Mask, b: Bit)
    ensures Holders(WakeSleepers(threads, bits), b) == Holders(threads, b)
  {
  }

  lemma StepKeepsSuccess(s: State, step: Step)
    requires SuccessMeansBits(s) && Enabled(s, step)
    ensures SuccessMeansBits(Apply(s, step))
  {
  }

  /** Steps that leave the word and the log alone. */
  lemma QuietStepKeepsBalance(s: State, t: Tid, th: Thread, b: Bit)
    requires t in s.threads && Holds(s.threads[t], b) == Holds(th, b)
    ensures Balance(Goto(s, t, th), b) == Balance(s, b)
  {
    OneThreadMoves(s.threads, t, th, b);
  }

  /** A fetch_and moves the bits it clears into the hands of the thread that cleared them. */
  lemma FetchKeepsBalance(s: State, t: Tid, th: Thread, b: Bit)
    requires t in s.threads && !s.threads[t].Deciding? && (s.threads[t].Entering? || s.threads[t].Awake?)
    requires Holds(th, b) <==> b in s.word * s.threads[t].call.mask
    ensures Balance(Goto(s.(word := s.word - s.threads[t].call.mask), t, th), b) == Balance(s, b)
  {
    OneThreadMoves(s.threads, t, th, b);
  }

  lemma FinishKeepsBalance(s: State, t: Tid, call: Call, status: Status, got: Mask, b: Bit)
    requires t in s.threads && (Holds(s.threads[t], b) <==> b in got)
    ensures Balance(Finish(s, t, call, status, got), b) == Balance(s, b)
  {
    OneThreadMoves(s.threads, t, Idle, b);
    CountsOfAppend(s.log, Returned(t, call, status, got), b);
  }

  lemma WakeKeepsBalance(s: State, t: Tid, mask: Mask, b: Bit)
    requires Enabled(s, CallWake(t, mask))
    ensures Balance(Apply(s, CallWake(t, mask)), b) == Balance(s, b)
  {
    if mask != {} {
      CountsOfAppend(s.log, Raised(mask - s.word), b);
      OneThreadMoves(s.threads, t, Waking(mask), b);
    }
  }

  lemma StepKeepsBalance(s: State, step: Step, b: Bit)
    requires SuccessMeansBits(s) && Enabled(s, step)
    ensures Balance(Apply(s, step), b) == Balance(s, b)
  {
    hide Balance, Holders;
    var t := step.tid;
    var s' := Apply(s, step);
    match step
    case CallWake(_, mask) => WakeKeepsBalance(s, t, mask, b);
    case FutexWake(_) => FutexWakeKeepsBalance(s, t, b);
    case FirstFetchAnd(_) => FetchKeepsBalance(s, t, s'.threads[t], b);
    case SecondFetchAnd(_) => FetchKeepsBalance(s, t, s'.threads[t], b);
    case Decide(_, expired) =>
      var th := s.threads[t];
      if s'.threads[t] == Idle {
        var (status, got) := if !th.call.retry || !Retryable(th.status)
                           then (th.status, th.held) else (TimedOut, {});
        FinishKeepsBalance(s, t, th.call, status, got, b);
      } else {
        QuietStepKeepsBalance(s, t, s'.threads[t], b);
      }
    case _ => QuietStepKeepsBalance(s, t, s'.threads[t], b);
  }

  lemma FutexWakeKeepsBalance(s: State, t: Tid, b: Bit)
    requires Enabled(s, FutexWake(t))
    ensures Balance(Apply(s, FutexWake(t)), b) == Balance(s, b)
  {
    var bits := s.threads[t].bits;
    WakingHoldsNothing(s.threads, bits, b);
    OneThreadMoves(WakeSleepers(s.threads, bits), t, Idle, b);
  }

  lemma {:induction false} BalanceInEveryRun(s: State, run: seq<Step>, b: Bit)
    requires SuccessMeansBits(s) && IsRun(s, run)
    ensures SuccessMeansBits(After(s, run)) && Balance(After(s, run), b) == Balance(s, b)
    decreases |run|
  {
    if run != [] {
      hide SuccessMeansBits, Enabled, Apply, Balance;
      StepKeepsSuccess(s, run[0]);
      StepKeepsBalance(s, run[0], b);
      BalanceInEveryRun(Apply(s, run[0]), run[1..], b);
    }
  }

  /** Over every run, with every exit and retry: the initial bit plus the times a wake raised it
      equals the times it was returned, plus the threads about to return it, plus its present value. */
  lemma BitsAreConserved(s: State, run: seq<Step>, b: Bit)
    requires Initial(s) && IsRun(s, run)
    ensures var e := After(s, run);
            Indicator(b in s.word) + RaisedCount(e.log, b)
              == ReturnedCount(e.log, b) + |Holders(e.threads, b)| + Indicator(b in e.word)
  {
    assert Holders(s.threads, b) == {};
    BalanceInEveryRun(s, run, b);
  }

  // ---- what a call of wait reports ----

  predicate Refused(call: Call) { call.mask == {} || call.nullState }

  /** A thread inside a call has a mask and a place for the result; it is refused exactly without them,
      and only a call with a timeout can run out of it. */
  predicate ThreadKeepsWord(th: Thread) {
    match th
    case Deciding(call, status, _) =>
      (status == BadValue <==> Refused(call)) && (status == TimedOut ==> call.hasTimeout)
    case Entering(call) => !Refused(call)
    case Checking(call, _) => !Refused(call)
    case Sleeping(call) => !Refused(call)
    case Awake(call) => !Refused(call)
    case _ => true
  }

  /** What each status means to the caller: the call was refused; its timeout ran out; or it ended on a
      change of the word or a spurious wake, which only a call without retry does. */
  predicate EventKeepsWord(e: Event) {
    e.Returned? ==>
      && (e.status == BadValue <==> Refused(e.call))
      && (e.status == TimedOut ==> e.call.hasTimeout)
      && (e.status == Again || e.status == Interrupted ==> !e.call.retry)
  }

  ghost predicate WordKept(s: State) {
    && (forall t :: t in s.threads ==> ThreadKeepsWord(s.threads[t]))
    && (forall i :: 0 <= i < |s.log| ==> EventKeepsWord(s.log[i]))
  }

  lemma StepKeepsWord(s: State, step: Step)
    requires WordKept(s) && Enabled(s, step)
    ensures WordKept(Apply(s, step))
  {
  }

  /** Over every run a call that asked for retries never reports a changed word or a spurious wake, a call
      without timeout never reports one, and a call is refused exactly for an empty mask or a null result. */
  lemma {:induction false} StatusesInEveryRun(s: State, run: seq<Step>)
    requires WordKept(s) && IsRun(s, run)
    ensures WordKept(After(s, run))
    decreases |run|
  {
    if run != [] {
      hide WordKept, Enabled, Apply;
      StepKeepsWord(s, run[0]);
      StatusesInEveryRun(Apply(s, run[0]), run[1..]);
    }
  }

  /** What the end of an attempt is called tells what ended it. */
  lemma StatusTellsCause(s: State, step: Step)
    requires Enabled(s, step) && WordKept(s) && Apply(s, step).threads[step.tid].Deciding?
    ensures var th, d := s.threads[step.tid], Apply(s, step).threads[step.tid];
            && (d.status == TimedOut <==> step.Timeout?) && (d.status == Failed <==> step.WaitFails?)
            && (d.status == Again <==> step.FutexWait? && s.word != th.expected)
            && (d.status == BadValue <==> step.CallWait? && Refused(step.call))
            && (d.status == NoError <==> (step.FirstFetchAnd? || step.SecondFetchAnd?) && s.word * th.call.mask != {})
            && (d.status == Interrupted <==>
                  step.Signal? || (step.SecondFetchAnd? && s.word * th.call.mask == {}))
  {
  }

  /** A wake sets its bits, all of them and no others, whatever was set before. */
  lemma WakeSetsItsBits(s: State, t: Tid, mask: Mask)
    requires Enabled(s, CallWake(t, mask))
    ensures Apply(s, CallWake(t, mask)).word == s.word + mask
  {
    assert s.word + {} == s.word;
  }

  /** Nobody in this run wakes for any bit of the mask. */
  predicate NoWakeFor(run: seq<Step>, mask: Mask) {
    forall i :: 0 <= i < |run| && run[i].CallWake? ==> run[i].mask !! mask
  }

  /** Nothing happens to thread t itself. */
  predicate LeftAlone(run: seq<Step>, t: Tid) {
    forall i :: 0 <= i < |run| ==> run[i].tid != t
  }

  /** The thread sleeps, and no waker under way has a bit for it. */
  ghost predicate SoundAsleep(s: State, t: Tid) {
    && t in s.threads && s.threads[t].Sleeping?
    && forall w :: w in s.threads && s.threads[w].Waking? ==> s.threads[w].bits !! s.threads[t].call.mask
  }

  lemma StepLetsSleep(s: State, step: Step, t: Tid)
    requires Enabled(s, step) && SoundAsleep(s, t) && step.tid != t
    requires step.CallWake? ==> step.mask !! s.threads[t].call.mask
    ensures SoundAsleep(Apply(s, step), t) && Apply(s, step).threads[t] == s.threads[t]
  {
  }

  /** A sleeper for whose bits nobody calls, and which no timeout, signal or spurious wake reaches, sleeps on,
      however many wakes for other bits pass. */
  lemma {:induction false} SleepsThroughOtherWakes(s: State, run: seq<Step>, t: Tid)
    requires IsRun(s, run) && SoundAsleep(s, t) && LeftAlone(run, t) && NoWakeFor(run, s.threads[t].call.mask)
    ensures SoundAsleep(After(s, run), t) && After(s, run).threads[t] == s.threads[t]
    decreases |run|
  {
    if run != [] {
      hide Enabled, Apply, SoundAsleep;
      StepLetsSleep(s, run[0], t);
      assert forall i :: 0 <= i < |run[1..]| ==> run[1..][i] == run[i + 1];
      SleepsThroughOtherWakes(Apply(s, run[0]), run[1..], t);
    }
  }

  /** Thread t starts no further call in this run. */
  predicate NoFurtherCall(run: seq<Step>, t: Tid) {
    forall i :: 0 <= i < |run| && run[i].tid == t ==> !run[i].CallWake? && !run[i].CallWait?
  }

  /** The thread is past the only attempt of a call without retry, or the call is over. */
  predicate PastAttempt(th: Thread) {
    th.Idle? || ((th.Checking? || th.Sleeping? || th.Awake? || th.Deciding?) && !th.call.retry)
  }

  lemma StepStaysPast(s: State, step: Step, t: Tid)
    requires Enabled(s, step) && t in s.threads && PastAttempt(s.threads[t])
    requires step.tid == t ==> !step.CallWake? && !step.CallWait?
    ensures step != FirstFetchAnd(t)
    ensures t in Apply(s, step).threads && PastAttempt(Apply(s, step).threads[t])
  {
  }

  /** A call without retry makes one attempt: past its first fetch_and it never makes another. */
  lemma {:induction false} OneAttemptWithoutRetry(s: State, run: seq<Step>, t: Tid)
    requires IsRun(s, run) && NoFurtherCall(run, t) && t in s.threads && PastAttempt(s.threads[t])
    ensures forall i :: 0 <= i < |run| ==> run[i] != FirstFetchAnd(t)
    ensures t in After(s, run).threads && PastAttempt(After(s, run).threads[t])
    decreases |run|
  {
    if run != [] {
      hide Enabled, Apply, PastAttempt;
      StepStaysPast(s, run[0], t);
      OneAttemptWithoutRetry(Apply(s, run[0]), run[1..], t);
      assert forall i :: 0 < i < |run| ==> run[i] == run[1..][i - 1];
    }
  }

  /** The answer stands: the thread still has it to give, or has given it. */
  ghost predicate Answers(s: State, t: Tid, answer: Thread)
    requires answer.Deciding?
  {
    && t in s.threads
    && (s.threads[t] == answer
        || (s.threads[t].Idle? && Returned(t, answer.call, answer.status, answer.held) in s.log))
  }

  lemma StepKeepsAnswer(s: State, step: Step, t: Tid, answer: Thread)
    requires answer.Deciding? && (!answer.call.retry || (answer.status != Again && answer.status != Interrupted))
    requires Enabled(s, step) && Answers(s, t, answer)
    requires step.tid == t ==> !step.CallWake? && !step.CallWait?
    ensures Answers(Apply(s, step), t, answer)
    ensures s.threads[t] == answer && step.tid == t ==> Apply(s, step).threads[t].Idle?
  {
    var s' := Apply(s, step);
    assert s.log <= s'.log;
    assert forall e :: e in s.log ==> e in s'.log;
    if s.threads[t] == answer && step.tid == t {
      assert s'.log[|s.log|] == Returned(t, answer.call, answer.status, answer.held);
    }
  }

  /** Without retry, or with an answer that is final anyway, what the attempt came to is what the caller
      gets: the same status and the same bits. */
  lemma {:induction false} FirstAnswerStands(s: State, run: seq<Step>, t: Tid, answer: Thread)
    requires answer.Deciding? && (!answer.call.retry || (answer.status != Again && answer.status != Interrupted))
    requires IsRun(s, run) && NoFurtherCall(run, t) && Answers(s, t, answer)
    ensures Answers(After(s, run), t, answer)
    decreases |run|
  {
    if run != [] {
      hide Enabled, Apply, Answers;
      StepKeepsAnswer(s, run[0], t, answer);
      FirstAnswerStands(Apply(s, run[0]), run[1..], t, answer);
    }
  }

  /** No timeout passes and no system call fails in this run. */
  predicate Untroubled(run: seq<Step>) {
    forall i :: 0 <= i < |run| ==> !run[i].Timeout? && !run[i].WaitFails? && (run[i].Decide? ==> !run[i].expired)
  }

  predicate Trouble(status: Status) { status == TimedOut || status == Failed }

  ghost predicate NoTrouble(s: State) {
    && (forall t :: t in s.threads && s.threads[t].Deciding? ==> !Trouble(s.threads[t].status))
    && (forall i :: 0 <= i < |s.log| && s.log[i].Returned? ==> !Trouble(s.log[i].status))
  }

  lemma StepKeepsPeace(s: State, step: Step)
    requires NoTrouble(s) && Enabled(s, step)
    requires !step.Timeout? && !step.WaitFails? && (step.Decide? ==> !step.expired)
    ensures NoTrouble(Apply(s, step))
  {
  }

  /** A call reports a timeout or a failure only if one has happened. */
  lemma {:induction false} NoTroubleOutOfNothing(s: State, run: seq<Step>)
    requires NoTrouble(s) && IsRun(s, run) && Untroubled(run)
    ensures NoTrouble(After(s, run))
    decreases |run|
  {
    if run != [] {
      hide NoTrouble, Enabled, Apply;
      assert !run[0].Timeout?;
      StepKeepsPeace(s, run[0]);
      assert forall i :: 0 <= i < |run[1..]| ==> run[1..][i] == run[i + 1];
      NoTroubleOutOfNothing(Apply(s, run[0]), run[1..]);
    }
  }

  /** A waiter that nobody disturbs between its two operations goes to sleep. */
  lemma UndisturbedWaitSleeps(s: State, t: Tid)
    requires Enabled(s, FirstFetchAnd(t)) && s.word !! s.threads[t].call.mask
    ensures var s' := Apply(s, FirstFetchAnd(t));
            Enabled(s', FutexWait(t)) && Apply(s', FutexWait(t)).threads[t] == Sleeping(s.threads[t].call)
  {
  }

  // ---- system calls of wakers ----

  function Wakers(threads: map<Tid, Thread>): set<Tid> {
    set t | t in threads && threads[t].Waking?
  }

  /** How many times bits were raised, not counting wakes that found them all set. */
  function NewRaises(log: seq<Event>): nat {
    if log == [] then 0
    else NewRaises(log[..|log| - 1]) + Indicator(log[|log| - 1].Raised? && log[|log| - 1].bits != {})
  }

  function WakeCalls(run: seq<Step>): nat {
    if run == [] then 0 else Indicator(run[0].FutexWake?) + WakeCalls(run[1..])
  }

  lemma RaisesOfAppend(log: seq<Event>, e: Event)
    ensures NewRaises(log + [e]) == NewRaises(log) + Indicator(e.Raised? && e.bits != {})
  {
    assert (log + [e])[..|log|] == log;
  }

  lemma OneWakerMoves(threads: map<Tid, Thread>, t: Tid, th: Thread)
    requires t in threads
    ensures |Wakers(threads[t := th])| == |Wakers(threads)| - Indicator(threads[t].Waking?) + Indicator(th.Waking?)
  {
    var before, after := Wakers(threads), Wakers(threads[t := th]);
    var rest := before - {t};
    assert after == if th.Waking? then rest + {t} else rest;
    assert before == if threads[t].Waking? then rest + {t} else rest;
  }

  lemma WakingWakesNoWaker(threads: map<Tid, Thread>, bits: Mask)
    ensures Wakers(WakeSleepers(threads, bits)) == Wakers(threads)
  {
  }

  lemma StepCountsCalls(s: State, step: Step)
    requires Enabled(s, step)
    ensures var s' := Apply(s, step);
            Indicator(step.FutexWake?) + |Wakers(s'.threads)| - NewRaises(s'.log)
              == |Wakers(s.threads)| - NewRaises(s.log)
  {
    hide Wakers, NewRaises;
    var t, s' := step.tid, Apply(s, step);
    match step
    case CallWake(_, mask) =>
      RaisesOfAppend(s.log, Raised(mask - s.word));
      OneWakerMoves(s.threads, t, Waking(mask));
    case FutexWake(_) =>
      WakingWakesNoWaker(s.threads, s.threads[t].bits);
      OneWakerMoves(WakeSleepers(s.threads, s.threads[t].bits), t, Idle);
    case Decide(_, _) =>
      OneWakerMoves(s.threads, t, s'.threads[t]);
      if s'.log != s.log {
        RaisesOfAppend(s.log, s'.log[|s.log|]);
      }
    case _ => OneWakerMoves(s.threads, t, s'.threads[t]);
  }

  lemma {:induction false} CallsInEveryRun(s: State, run: seq<Step>)
    requires IsRun(s, run)
    ensures var e := After(s, run);
            WakeCalls(run) + |Wakers(e.threads)| - NewRaises(e.log) == |Wakers(s.threads)| - NewRaises(s.log)
    decreases |run|
  {
    if run != [] {
      hide Enabled, Apply, Wakers, NewRaises;
      StepCountsCalls(s, run[0]);
      CallsInEveryRun(Apply(s, run[0]), run[1..]);
    }
  }

  /** Over every run, a wake makes its system call exactly when it set a bit that was not set: the calls
      made, and those still to come, are as many as the wakes that raised something. */
  lemma OneCallPerRaise(s: State, run: seq<Step>)
    requires Initial(s) && IsRun(s, run)
    ensures WakeCalls(run) + |Wakers(After(s, run).threads)| == NewRaises(After(s, run).log)
  {
    assert Wakers(s.threads) == {};
    CallsInEveryRun(s, run);
  }

  // ---- time ----

  const NANOS_PER_SECOND: int := 1_000_000_000

  /** Division and remainder that truncate toward zero, as the source's do. */
  function Quotient(x: int, d: int): int
    requires 0 < d
  {
    if 0 <= x then x / d else -(-x / d)
  }

  function Remainder(x: int, d: int): int
    requires 0 < d
  {
    x - d * Quotient(x, d)
  }

  datatype Timespec = Timespec(sec: int, nsec: int) {
    function Total(): int { sec * NANOS_PER_SECOND + nsec }
    predicate Normalised() { 0 <= nsec < NANOS_PER_SECOND }
  }

  /** The deadline: the clock plus the timeout, with at most one second carried upwards and none
      borrowed. */
  function Deadline(now: Timespec, nanoSeconds: int): (d: Timespec)
    requires now.Normalised()
    ensures d.Total() == now.Total() + nanoSeconds
    ensures d.nsec < NANOS_PER_SECOND
  {
    var sec := now.sec + Quotient(nanoSeconds, NANOS_PER_SECOND);
    var nsec := now.nsec + Remainder(nanoSeconds, NANOS_PER_SECOND);
    if NANOS_PER_SECOND <= nsec then Timespec(sec + 1, nsec - NANOS_PER_SECOND) else Timespec(sec, nsec)
  }

  /** Which timeouts are safe to wait with: the deadline is normalised whenever the call is made
      exactly for those that are not negative or are whole seconds. */
  lemma DeadlineNormalisedIff(nanoSeconds: int)
    ensures (forall now: Timespec :: now.Normalised() ==> Deadline(now, nanoSeconds).Normalised())
       <==> 0 <= nanoSeconds || Remainder(nanoSeconds, NANOS_PER_SECOND) == 0
  {
    if nanoSeconds < 0 && Remainder(nanoSeconds, NANOS_PER_SECOND) != 0 {
      var now := Timespec(0, 0);
      assert now.Normalised() && Deadline(now, nanoSeconds).nsec == Remainder(nanoSeconds, NANOS_PER_SECOND) < 0;
    }
  }

  /** `addNanosecondsToCurrentTime`, given the clock reading. */
  method AddNanoseconds(now: Timespec, nanoSeconds: int) returns (waitTime: Timespec)
    requires now.Normalised()
    ensures waitTime == Deadline(now, nanoSeconds) && waitTime.Total() == now.Total() + nanoSeconds
    ensures 0 <= nanoSeconds ==> waitTime.Normalised()
  {
    var sec := now.sec + Quotient(nanoSeconds, NANOS_PER_SECOND);
    var nsec := now.nsec + Remainder(nanoSeconds, NANOS_PER_SECOND);
    if NANOS_PER_SECOND <= nsec {
      sec := sec + 1;
      nsec := nsec - NANOS_PER_SECOND;
    }
    waitTime := Timespec(sec, nsec);
  }

  /** A negative timeout can leave the deadline with a negative nanosecond field. */
  lemma NegativeTimeoutNotNormalised()
    ensures Timespec(5, 0).Normalised() && Deadline(Timespec(5, 0), -1) == Timespec(5, -1)
    ensures !Deadline(Timespec(5, 0), -1).Normalised()
  {
    assert Remainder(-1, NANOS_PER_SECOND) == -1;
  }

  /** What one waitHelper call reported, and the clock read after it. */
  datatype Attempt = Attempt(status: Status, got: Mask, clock: int)

  datatype Outcome = Done(status: Status, got: Mask, attempts: nat) | StillWaiting

  predicate Retryable(status: Status) { status == Again || status == Interrupted }

  /** The budget is used up by the time attempt i has been read off the clock. */
  predicate Expired(timeout: int, start: int, attempts: seq<Attempt>, i: nat)
    requires i < |attempts|
  {
    timeout != 0 && timeout <= attempts[i].clock - start
  }

  predicate Ends(timeout: int, start: int, attempts: seq<Attempt>, i: nat)
    requires i < |attempts|
  {
    !Retryable(attempts[i].status) || Expired(timeout, start, attempts, i)
  }

  /** The retry loop of `wait`. `attempts` are the answers the environment gives to successive
      waitHelper calls; the loop asks for one more until an answer ends it. `given` collects the
      timeouts the calls were made with. */
  method Wait(timeout: int, start: int, attempts: seq<Attempt>) returns (r: Outcome, given: seq<int>)
    ensures r.StillWaiting? <==> forall i :: 0 <= i < |attempts| ==> !Ends(timeout, start, attempts, i)
    ensures r.Done? ==>
              && 0 < r.attempts <= |attempts|
              && Ends(timeout, start, attempts, r.attempts - 1)
              && (forall i :: 0 <= i < r.attempts - 1 ==> !Ends(timeout, start, attempts, i))
              && (if Retryable(attempts[r.attempts - 1].status) then r.status == TimedOut && r.got == {}
                  else r.status == attempts[r.attempts - 1].status && r.got == attempts[r.attempts - 1].got)
    ensures |given| == if r.Done? then r.attempts else |attempts|
    ensures forall i :: 0 <= i < |given| ==>
              given[i] == if timeout == 0 || i == 0 then timeout else timeout - (attempts[i - 1].clock - start)
    ensures timeout > 0 ==> forall i :: 0 <= i < |given| ==> 0 < given[i]
  {
    var shouldTimeOut := timeout != 0;
    var remaining, prev := timeout, start;
    given := [];
    for i := 0 to |attempts|
      invariant |given| == i
      invariant shouldTimeOut ==> remaining == timeout - (prev - start)
      invariant !shouldTimeOut ==> remaining == 0
      invariant prev == if i == 0 || !shouldTimeOut then start else attempts[i - 1].clock
      invariant forall k :: 0 <= k < i ==> !Ends(timeout, start, attempts, k)
      invariant forall k :: 0 <= k < i ==>
                  given[k] == if timeout == 0 || k == 0 then timeout else timeout - (attempts[k - 1].clock - start)
      invariant timeout > 0 ==> 0 < remaining && forall k :: 0 <= k < i ==> 0 < given[k]
    {
      given := given + [remaining];
      var status := attempts[i].status;
      if !Retryable(status) {
        assert Ends(timeout, start, attempts, i);
        return Done(status, attempts[i].got, i + 1), given;
      }
      if shouldTimeOut {
        var current := attempts[i].clock;
        remaining := remaining - (current - prev);
        prev := current;
        if remaining <= 0 {
          assert Ends(timeout, start, attempts, i);
          return Done(TimedOut, {}, i + 1), given;
        }
      }
    }
    return StillWaiting, given;
  }
}
