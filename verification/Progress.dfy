/** Deadlock freedom and termination: under any scheduler every call returns after a bounded
    number of steps of the threads, the worker and the timers already running. */
module Progress {
  import opened Lists
  import opened Model
  import opened Threads
  import opened Locks
  import H = Handover

  /** Events that carry on work already begun: no new call and no change of time or limits. */
  predicate Ongoing(e: Event) { e.Step? || e.WorkerStep? || e.Expire? }

  /** Steps of threads and the worker. */
  predicate Active(e: Event) { e.Step? || e.WorkerStep? }

  /** All calls have returned and the worker has nothing to run. */
  ghost predicate Settled(s: State) {
    && (forall t :: 0 <= t < |s.threads| ==> s.threads[t].Idle?)
    && s.worker.KIdle? && s.ready == []
  }

  // ---- Deadlock freedom ----------------------------------------------------------------

  /** The worker never waits for `wq_sem`, so only the two message semaphores can stop it. */
  lemma WorkerFree(s: State)
    requires Locked(s) && s.messageSem.Free? && s.pendingSem.Free? && (!s.worker.KIdle? || s.ready != [])
    ensures WorkerCanStep(s)
  {
  }

  /** A holder of one of the semaphores, found in the order message, pending, wq. */
  lemma HolderSteps(s: State) returns (e: Event)
    requires Locked(s) && !s.fault && (s.messageSem.Held? || s.pendingSem.Held? || s.wqSem.Held?)
    ensures Active(e) && Enabled(s, e)
  {
    var sem := if s.messageSem.Held? then s.messageSem else if s.pendingSem.Held? then s.pendingSem else s.wqSem;
    match sem.holder
    case Worker => e := WorkerStep;
    case User(t) =>
      if CanStep(s, t) {
        e := Step(t, true);
      } else {
        assert s.threads[t].fl.FWait? || s.threads[t].fl.FDrain?;
        WorkerFree(s);
        e := WorkerStep;
      }
  }

  /** In every state with an unfinished call or work, some thread or the worker can step. */
  lemma NoDeadlock(s: State) returns (e: Event)
    requires Locked(s) && !s.fault && !Settled(s)
    ensures Active(e) && Enabled(s, e)
  {
    if s.messageSem.Held? || s.pendingSem.Held? || s.wqSem.Held? {
      e := HolderSteps(s);
    } else if !s.worker.KIdle? || s.ready != [] {
      WorkerFree(s);
      e := WorkerStep;
    } else {
      var t :| 0 <= t < |s.threads| && !s.threads[t].Idle?;
      assert !InMessage(s.threads[t]) && !InPending(s.threads[t]) && !InWq(s.threads[t]);
      e := Step(t, true);
    }
  }

  // ---- A measure every such step lowers ------------------------------------------------

  function Weight(pc: Pc): nat {
    match pc
    case Idle(_, _) => 0
    case Writing(w) =>
      (match w
       case WDown(_) => 20 case WAccept(_) => 19 case WDownPending(_) => 18 case WPend(_) => 17
       case WAlloc(_) => 16 case WDownWq(_) => 15 case WQueue(_) => 14 case WLink(_, _) => 4)
    case Reading(r) =>
      (match r case RDown(_) => 3 case RTake(_) => 2 case RCopy(_, _) => 1)
    case Flushing(f, _) =>
      (match f
       case FDownPending => 8 case FDownMessage => 7 case FSplice => 6 case FDownWq => 5
       case FBegin => 4 case FLoop(_) => 3 case FKick(_, _) => 5 case FWait(_, _) => 4
       case FDrain => 2 case FEnd => 1)
  }

  function WorkerWeight(k: WorkerPc): nat {
    match k
    case KIdle => 0 case KFree(_) => 1 case KUnlink(_) => 2 case KFlag(_) => 3
    case KPublish(_, _) => 4 case KDownMessage(_, _) => 5 case KTake(_) => 6 case KDownPending(_) => 7
  }

  /** What is left to do apart from the threads themselves. */
  function Rest(s: State): nat {
    WorkerWeight(s.worker) + 8 * |s.ready| + 9 * |s.armed| + 3 * |s.dev.delayList|
    + (if s.fault then 0 else 1)
  }

  function Total(s: State): nat { Rest(s) + Sum(s.threads, Weight) }

  ghost predicate Lighter(s: State, t: nat, s': State)
    requires t < |s.threads|
  {
    t < |s'.threads| && Rest(s') + Weight(s'.threads[t]) < Rest(s) + Weight(s.threads[t])
  }

  lemma AcceptLighter(s: State, t: nat, data: seq<Byte>, ok: bool)
    requires t < |s.threads| && s.threads[t] == Writing(WAccept(data))
    ensures Lighter(s, t, AcceptStep(s, t, data, ok))
  {
  }

  lemma WriteLighter(s: State, t: nat, ok: bool)
    requires !s.fault && t < |s.threads| && s.threads[t].Writing? && CanStep(s, t)
    ensures Lighter(s, t, WriteStep(s, t, ok))
  {
    match s.threads[t].wr
    case WAccept(data) => AcceptLighter(s, t, data, ok);
    case WQueue(m) => QueueLighter(s, t, m);
    case WLink(m, w) => LinkLighter(s, t, m, w);
    case _ =>
  }

  lemma QueueLighter(s: State, t: nat, m: Message)
    requires !s.fault && t < |s.threads| && s.threads[t] == Writing(WQueue(m))
    ensures Lighter(s, t, QueueStep(s, t, m))
  {
    assert |s.armed + {|s.works|}| <= |s.armed| + 1;
  }

  lemma LinkLighter(s: State, t: nat, m: Message, w: nat)
    requires !s.fault && t < |s.threads| && s.threads[t] == Writing(WLink(m, w))
    ensures Lighter(s, t, LinkStep(s, t, m, w))
  {
  }

  lemma ReadLighter(s: State, t: nat, ok: bool)
    requires !s.fault && t < |s.threads| && s.threads[t].Reading? && CanStep(s, t)
    ensures Lighter(s, t, ReadStep(s, t, ok))
  {
  }

  lemma KickLighter(s: State, t: nat)
    requires !s.fault && t < |s.threads| && s.threads[t].Flushing? && s.threads[t].fl.FKick?
    ensures Lighter(s, t, FlushStep(s, t))
  {
  }

  lemma TraverseLighter(s: State, t: nat, at: Cursor, before: set<Message>)
    requires !s.fault && t < |s.threads| && s.threads[t] == Flushing(FLoop(at), before)
    ensures Lighter(s, t, TraverseStep(s, t, at, before))
  {
  }

  lemma FlushLighter(s: State, t: nat)
    requires !s.fault && t < |s.threads| && s.threads[t].Flushing? && CanStep(s, t)
    ensures Lighter(s, t, FlushStep(s, t))
  {
    match s.threads[t].fl
    case FKick(_, _) => KickLighter(s, t);
    case FLoop(at) => TraverseLighter(s, t, at, s.threads[t].before);
    case _ =>
  }

  lemma WorkerLighter(s: State)
    requires !s.fault && WorkerCanStep(s)
    ensures Rest(WorkStep(s)) < Rest(s)
  {
  }

  lemma UserLighter(s: State, t: nat, ok: bool)
    requires Enabled(s, Step(t, ok))
    ensures Lighter(s, t, Apply(s, Step(t, ok)))
  {
    match s.threads[t]
    case Writing(_) => WriteLighter(s, t, ok);
    case Reading(_) => ReadLighter(s, t, ok);
    case Flushing(_, _) => FlushLighter(s, t);
  }

  lemma StepLighter(s: State, e: Event)
    requires Enabled(s, e) && Ongoing(e)
    ensures Total(Apply(s, e)) < Total(s)
  {
    OneThread(s, e);
    match e
    case Step(t, ok) =>
      UserLighter(s, t, ok);
      SumUpdate(s.threads, Weight, t, Apply(s, e).threads[t]);
    case WorkerStep => WorkerLighter(s);
    case Expire(w) =>
  }

  // ---- Runs ----------------------------------------------------------------------------

  /** However the steps interleave, work already begun ends within `Total(s)` steps. */
  lemma {:induction false} BoundedWork(s: State, es: seq<Event>, s': State)
    requires IsRun(s, es, s') && forall i :: 0 <= i < |es| ==> Ongoing(es[i])
    ensures |es| + Total(s') <= Total(s)
    decreases es
  {
    if es != [] {
      StepLighter(s, es[0]);
      BoundedWork(Apply(s, es[0]), es[1..], s');
    }
  }

  lemma {:induction false} LockedRun(s: State, es: seq<Event>, s': State)
    requires Locked(s) && IsRun(s, es, s')
    ensures Locked(s')
    decreases es
  {
    if es != [] {
      StepLocked(s, es[0]);
      LockedRun(Apply(s, es[0]), es[1..], s');
    }
  }

  /** A run of such steps after which no thread and no worker can step has finished every call,
      unless a work was misused on the way. */
  lemma EveryCallReturns(s: State, es: seq<Event>, s': State)
    requires Locked(s) && IsRun(s, es, s') && forall i :: 0 <= i < |es| ==> Ongoing(es[i])
    requires forall e :: Active(e) ==> !Enabled(s', e)
    ensures |es| <= Total(s)
    ensures Settled(s') || s'.fault
  {
    BoundedWork(s, es, s');
    LockedRun(s, es, s');
    if !Settled(s') && !s'.fault {
      var e := NoDeadlock(s');
    }
  }

  // ---- The hand-over condition never stops the device ----------------------------------

  /** A holder of one of the two message semaphores can step, and no clause concerns it. */
  lemma MessageHolderSteps(s: State) returns (e: Event)
    requires Locked(s) && !s.fault && (s.messageSem.Held? || s.pendingSem.Held?)
    ensures Active(e) && Enabled(s, e) && H.Disciplined(s, e)
  {
    var sem := if s.messageSem.Held? then s.messageSem else s.pendingSem;
    match sem.holder
    case Worker => e := WorkerStep;
    case User(t) => e := Step(t, true);
  }

  /** The worker, unless its next work is still being linked: then the linker. */
  lemma WorkerOrLinkerSteps(s: State) returns (e: Event)
    requires Locked(s) && H.Tidy(H.YardOf(s)) && !s.fault && s.messageSem.Free? && s.pendingSem.Free?
    requires !s.worker.KIdle? || s.ready != []
    ensures Active(e) && Enabled(s, e) && H.Disciplined(s, e)
  {
    WorkerFree(s);
    e := WorkerStep;
    if s.worker.KIdle? && H.Is(H.YardOf(s), s.ready[0], Queued) {
      assert H.YardOf(s).role == H.Linker(s.ready[0]);
      e := Step(s.wqSem.holder.tid, true);
    } else {
      assert s.worker.KIdle? ==> s.ready[0] in s.ready;
    }
  }

  /** In every disciplined state with an unfinished call or work, a disciplined step is possible. */
  lemma DisciplinedProgress(s: State) returns (e: Event)
    requires Locked(s) && H.Tidy(H.YardOf(s)) && !s.fault && !Settled(s)
    ensures Active(e) && Enabled(s, e) && H.Disciplined(s, e)
  {
    if s.messageSem.Held? || s.pendingSem.Held? {
      e := MessageHolderSteps(s);
    } else if !s.worker.KIdle? || s.ready != [] {
      e := WorkerOrLinkerSteps(s);
    } else if s.wqSem.Held? {
      e := Step(s.wqSem.holder.tid, true);
    } else {
      var t :| 0 <= t < |s.threads| && !s.threads[t].Idle?;
      assert !InMessage(s.threads[t]) && !InPending(s.threads[t]) && !InWq(s.threads[t]);
      e := Step(t, true);
    }
  }
}
