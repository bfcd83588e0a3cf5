/** The barrier: any number of threads sleep on and awake the barrier of one group, while
    flushes toggle the other bit of the same `flags`. Each update of `flags` is one step. */
module Barrier {
  import opened Flags

  // ---- Threads -------------------------------------------------------------------------

  /** `mark` is the length of the barrier log right after the sleeper raised the barrier. */
  datatype Pc =
    | Outside
    | SleepRaise                // set_barrier
    | SleepTest(mark: nat)      // wait_event: first test of the condition
    | SleepEnqueue(mark: nat)   // prepare_to_wait
    | SleepRetest(mark: nat)    // the condition again, now enqueued
    | SleepPark(mark: nat)      // schedule: goes on once a wake-up has dequeued it
    | SleepLeave(mark: nat)     // finish_wait, return 0
    | AwakeTest                 // is_barrier_up
    | AwakeLower                // clear_barrier
    | AwakeActive               // waitqueue_active
    | AwakeAll                  // wake_up_all
    | FlushRaise                // set_flushing
    | FlushLower                // clear_flushing

  datatype Mark = Raised(who: nat) | Lowered(who: nat)

  datatype State = State(flags: Char, queue: set<nat>, threads: seq<Pc>, log: seq<Mark>)

  datatype Event = Sleep(t: nat) | Awake(t: nat) | Flush(t: nat) | Go(t: nat)

  function Init(n: nat): State { State(0, {}, seq(n, _ => Outside), []) }

  predicate Up(s: State) { CheckBit(s.flags, BARRIER_BIT) }

  predicate Enabled(s: State, e: Event) {
    && e.t < |s.threads|
    && match e
       case Go(t) => !s.threads[t].Outside? && (s.threads[t].SleepPark? ==> t !in s.queue)
       case _ => s.threads[e.t].Outside?
  }

  function Goto(s: State, t: nat, pc: Pc): State
    requires t < |s.threads|
  {
    s.(threads := s.threads[t := pc])
  }

  function Apply(s: State, e: Event): State
    requires Enabled(s, e)
  {
    match e
    case Sleep(t) => Goto(s, t, SleepRaise)
    case Awake(t) => Goto(s, t, AwakeTest)
    case Flush(t) => Goto(s, t, FlushRaise)
    case Go(t) => Advance(s, t)
  }

  function Advance(s: State, t: nat): State
    requires t < |s.threads| && !s.threads[t].Outside?
  {
    match s.threads[t]
    case SleepRaise =>
      Goto(s.(flags := SetBit(s.flags, BARRIER_BIT), log := s.log + [Raised(t)]), t, SleepTest(|s.log| + 1))
    case SleepTest(k) => Goto(s, t, if Up(s) then SleepEnqueue(k) else Outside)
    case SleepEnqueue(k) => Goto(s.(queue := s.queue + {t}), t, SleepRetest(k))
    case SleepRetest(k) => Goto(s, t, if Up(s) then SleepPark(k) else SleepLeave(k))
    case SleepPark(k) => Goto(s, t, SleepEnqueue(k))
    case SleepLeave(_) => Goto(s.(queue := s.queue - {t}), t, Outside)
    case AwakeTest => Goto(s, t, if Up(s) then AwakeLower else AwakeActive)
    case AwakeLower =>
      Goto(s.(flags := ClearBit(s.flags, BARRIER_BIT), log := s.log + [Lowered(t)]), t, AwakeActive)
    case AwakeActive => Goto(s, t, if s.queue != {} then AwakeAll else Outside)
    case AwakeAll => Goto(s.(queue := {}), t, Outside)
    case FlushRaise => Goto(s.(flags := SetBit(s.flags, FLUSHING_BIT)), t, FlushLower)
    case FlushLower => Goto(s.(flags := ClearBit(s.flags, FLUSHING_BIT)), t, Outside)
  }

  ghost predicate IsRun(s: State, es: seq<Event>, s': State)
    decreases es
  {
    if es == [] then s == s'
    else Enabled(s, es[0]) && IsRun(Apply(s, es[0]), es[1..], s')
  }

  ghost predicate Reachable(s: State) {
    exists n: nat, es: seq<Event> :: IsRun(Init(n), es, s)
  }

  // ---- Invariants ----------------------------------------------------------------------

  predicate Sleeping(pc: Pc) {
    pc.SleepTest? || pc.SleepEnqueue? || pc.SleepRetest? || pc.SleepPark? || pc.SleepLeave?
  }

  /** Someone lowered the barrier at position `k` of the log or later. */
  ghost predicate LoweredSince(log: seq<Mark>, k: nat) {
    exists i :: k <= i < |log| && log[i].Lowered?
  }

  /** The barrier bit shows the last barrier event; flush traffic has no influence on it. */
  ghost predicate BitShowsLog(up: bool, log: seq<Mark>) {
    up <==> log != [] && log[|log| - 1].Raised?
  }

  ghost predicate ThreadOk(pc: Pc, t: nat, queued: bool, log: seq<Mark>) {
    && (Sleeping(pc) ==> 0 < pc.mark <= |log| && log[pc.mark - 1] == Raised(t))
    && (pc.SleepLeave? ==> LoweredSince(log, pc.mark))
    && (queued ==> pc.SleepRetest? || pc.SleepPark? || pc.SleepLeave?)
  }

  ghost predicate ThreadsOk(threads: seq<Pc>, queue: set<nat>, log: seq<Mark>) {
    && (forall t: nat :: t < |threads| ==> ThreadOk(threads[t], t, t in queue, log))
    && (forall t :: t in queue ==> t < |threads|)
  }

  /** A waker that has still to look at the wait queue or to wake it. */
  predicate Waking(pc: Pc) { pc.AwakeActive? || pc.AwakeAll? }

  ghost predicate SomeoneWakes(threads: seq<Pc>) {
    exists u :: 0 <= u < |threads| && Waking(threads[u])
  }

  predicate Blocked(pc: Pc, queued: bool) { pc.SleepPark? && queued }

  /** No lost wake-up: a thread blocked on a barrier that is down is about to be woken. */
  ghost predicate NoLostWakeup(threads: seq<Pc>, queue: set<nat>, up: bool) {
    forall t: nat :: t < |threads| && Blocked(threads[t], t in queue) && !up ==> SomeoneWakes(threads)
  }

  ghost predicate Inv(s: State) {
    && BitShowsLog(Up(s), s.log)
    && ThreadsOk(s.threads, s.queue, s.log)
    && NoLostWakeup(s.threads, s.queue, Up(s))
  }

  // ---- Preservation --------------------------------------------------------------------

  /** Only a sleeper's raise and a waker's lowering change the barrier bit and the log. */
  lemma BitStep(s: State, t: nat)
    requires t < |s.threads| && !s.threads[t].Outside?
    ensures var s' := Advance(s, t);
            match s.threads[t]
            case SleepRaise => Up(s') && s'.log == s.log + [Raised(t)]
            case AwakeLower => !Up(s') && s'.log == s.log + [Lowered(t)]
            case _ => Up(s') == Up(s) && s'.log == s.log
  {
    BitsAreIndependent(s.flags, BARRIER_BIT, BARRIER_BIT);
    BitsAreIndependent(s.flags, FLUSHING_BIT, BARRIER_BIT);
  }

  /** A sleeper that sees the barrier down sees a lowering after its own raise. */
  lemma SeesLowering(pc: Pc, t: nat, queued: bool, log: seq<Mark>)
    requires BitShowsLog(false, log) && ThreadOk(pc, t, queued, log) && Sleeping(pc)
    ensures LoweredSince(log, pc.mark)
  {
    var i := |log| - 1;
    assert log[i].Lowered?;
  }

  lemma LogGrows(pc: Pc, t: nat, queued: bool, queued': bool, log: seq<Mark>, m: Mark)
    requires ThreadOk(pc, t, queued, log) && (queued' ==> queued)
    ensures ThreadOk(pc, t, queued', log + [m])
  {
    if pc.SleepLeave? {
      var i :| pc.mark <= i < |log| && log[i].Lowered?;
      assert (log + [m])[i] == log[i];
    }
  }

  /** Where thread `t` goes. */
  lemma OwnMove(s: State, t: nat)
    requires t < |s.threads| && !s.threads[t].Outside?
    ensures var s' := Advance(s, t);
            && t < |s'.threads|
            && (Sleeping(s.threads[t]) ==>
                  s'.threads[t].Outside? || (Sleeping(s'.threads[t]) && s'.threads[t].mark == s.threads[t].mark))
            && (s'.threads[t].SleepLeave? ==> s.threads[t].SleepRetest? && !Up(s))
            && (s.threads[t].SleepRaise? ==> s'.threads[t] == SleepTest(|s.log| + 1))
            && (!Sleeping(s.threads[t]) && !s.threads[t].SleepRaise? ==> !Sleeping(s'.threads[t]))
            && (t in s'.queue ==>
                  s'.threads[t].SleepRetest? || s'.threads[t].SleepPark? || s'.threads[t].SleepLeave?
                  || (t in s.queue && !(s.threads[t].SleepRetest? || s.threads[t].SleepLeave?)))
  {
  }

  lemma OwnThread(s: State, t: nat)
    requires t < |s.threads| && !s.threads[t].Outside? && (s.threads[t].SleepPark? ==> t !in s.queue)
    requires BitShowsLog(Up(s), s.log) && ThreadOk(s.threads[t], t, t in s.queue, s.log)
    ensures var s' := Advance(s, t);
            t < |s'.threads| && ThreadOk(s'.threads[t], t, t in s'.queue, s'.log)
  {
    OwnMove(s, t);
    BitStep(s, t);
    if s.threads[t].SleepRetest? && !Up(s) {
      SeesLowering(s.threads[t], t, t in s.queue, s.log);
    }
  }

  /** The step of `t` changes no other thread, and enqueues no other. */
  lemma OtherThreads(s: State, t: nat)
    requires t < |s.threads| && !s.threads[t].Outside?
    ensures var s' := Advance(s, t);
            && |s'.threads| == |s.threads| && s'.threads == s.threads[t := s'.threads[t]]
            && s'.queue <= s.queue + {t}
  {
    SameOthers(s, t);
  }

  lemma SameOthers(s: State, t: nat)
    requires t < |s.threads| && !s.threads[t].Outside?
    ensures var ts := Advance(s, t).threads; |ts| == |s.threads| && ts == s.threads[t := ts[t]]
  {
  }

  lemma ThreadsStep(s: State, t: nat)
    requires Inv(s) && Enabled(s, Go(t))
    ensures var s' := Advance(s, t); ThreadsOk(s'.threads, s'.queue, s'.log)
  {
    var s' := Advance(s, t);
    OwnThread(s, t);
    OtherThreads(s, t);
    BitStep(s, t);
    forall u: nat | u < |s'.threads| && u != t ensures ThreadOk(s'.threads[u], u, u in s'.queue, s'.log) {
      LogGrows(s.threads[u], u, u in s.queue, u in s'.queue, s.log, Raised(t));
      LogGrows(s.threads[u], u, u in s.queue, u in s'.queue, s.log, Lowered(t));
    }
  }

  /** A waker stays one until it has emptied the queue or found it empty. */
  lemma WakerStays(s: State, t: nat)
    requires t < |s.threads| && !s.threads[t].Outside?
    ensures var s' := Advance(s, t);
            && t < |s'.threads|
            && (Waking(s.threads[t]) ==> Waking(s'.threads[t]) || s'.queue == {})
            && (s.threads[t].AwakeLower? ==> Waking(s'.threads[t]))
            && (s'.threads[t].SleepPark? ==> Up(s'))
  {
    if Sleeping(s.threads[t]) {
      ParksBehind(s, t);
    }
  }

  /** A sleeper parks only behind a barrier it has just seen up. */
  lemma ParksBehind(s: State, t: nat)
    requires t < |s.threads| && Sleeping(s.threads[t])
    ensures var s' := Advance(s, t); t < |s'.threads| && (s'.threads[t].SleepPark? ==> Up(s'))
  {
  }

  lemma WakeupStep(s: State, t: nat)
    requires Inv(s) && t < |s.threads| && !s.threads[t].Outside?
    ensures var s' := Advance(s, t); NoLostWakeup(s'.threads, s'.queue, Up(s'))
  {
    var s' := Advance(s, t);
    WakerStays(s, t);
    OtherThreads(s, t);
    BitStep(s, t);
    forall u: nat | u < |s'.threads| && Blocked(s'.threads[u], u in s'.queue) && !Up(s')
      ensures SomeoneWakes(s'.threads)
    {
      if s.threads[t].AwakeLower? {
        assert Waking(s'.threads[t]);
      } else {
        assert Blocked(s.threads[u], u in s.queue) && !Up(s);
        var v :| 0 <= v < |s.threads| && Waking(s.threads[v]);
        assert Waking(s'.threads[v]);
      }
    }
  }

  lemma CallInv(s: State, t: nat, pc: Pc)
    requires Inv(s) && t < |s.threads| && s.threads[t].Outside?
    requires pc.SleepRaise? || pc.AwakeTest? || pc.FlushRaise?
    ensures Inv(Goto(s, t, pc))
  {
    var s' := Goto(s, t, pc);
    forall u: nat | u < |s'.threads| && Blocked(s'.threads[u], u in s'.queue) && !Up(s')
      ensures SomeoneWakes(s'.threads)
    {
      assert Blocked(s.threads[u], u in s.queue);
      var v :| 0 <= v < |s.threads| && Waking(s.threads[v]);
      assert Waking(s'.threads[v]);
    }
  }

  lemma StepInv(s: State, e: Event)
    requires Inv(s) && Enabled(s, e)
    ensures Inv(Apply(s, e))
  {
    match e
    case Go(t) =>
      BitStep(s, t);
      ThreadsStep(s, t);
      WakeupStep(s, t);
    case Sleep(t) => CallInv(s, t, SleepRaise);
    case Awake(t) => CallInv(s, t, AwakeTest);
    case Flush(t) => CallInv(s, t, FlushRaise);
  }

  lemma {:induction false} RunInv(s: State, es: seq<Event>, s': State)
    requires Inv(s) && IsRun(s, es, s')
    ensures Inv(s')
    decreases es
  {
    if es != [] {
      StepInv(s, es[0]);
      RunInv(Apply(s, es[0]), es[1..], s');
    }
  }

  lemma ReachableInv(s: State)
    requires Reachable(s)
    ensures Inv(s)
  {
    var n: nat, es: seq<Event> :| IsRun(Init(n), es, s);
    RunInv(Init(n), es, s);
  }

  // ---- Main results --------------------------------------------------------------------

  /** No early return: a thread leaves its sleep only if the barrier was lowered after that
      thread itself raised it. */
  lemma NoEarlyReturn(s: State, t: nat)
    requires Reachable(s) && Enabled(s, Go(t)) && Sleeping(s.threads[t])
    requires var s' := Apply(s, Go(t)); t < |s'.threads| && s'.threads[t].Outside?
    ensures var k := s.threads[t].mark;
            0 < k <= |s.log| && s.log[k - 1] == Raised(t) && LoweredSince(s.log, k)
  {
    ReachableInv(s);
    assert ThreadOk(s.threads[t], t, t in s.queue, s.log);
    if s.threads[t].SleepTest? {
      SeesLowering(s.threads[t], t, t in s.queue, s.log);
    }
  }

  /** Whenever the barrier is down and a thread is blocked, some waker has still to wake it. */
  lemma BlockedIsAboutToWake(s: State, t: nat)
    requires Reachable(s) && t < |s.threads| && Blocked(s.threads[t], t in s.queue) && !Up(s)
    ensures exists u: nat :: u < |s.threads| && Waking(s.threads[u]) && Enabled(s, Go(u))
  {
    ReachableInv(s);
    var u :| 0 <= u < |s.threads| && Waking(s.threads[u]);
    assert Enabled(s, Go(u));
  }
}
