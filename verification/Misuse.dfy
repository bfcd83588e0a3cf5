/** The hand-over condition is exact: a step that breaks it can be followed, with all further
    care, to the misuse of a work. */
module Misuse {
  import opened Lists
  import opened Model
  import opened Locks
  import opened Handover
  import P = Progress

  /** Some disciplined continuation misuses a work. */
  ghost predicate CanFault(s: State) {
    exists es, s' :: IsDisciplinedRun(s, es, s') && s'.fault
  }

  lemma FaultNow(s: State)
    requires s.fault
    ensures CanFault(s)
  {
    assert IsDisciplinedRun(s, [], s);
  }

  lemma FaultLater(s: State, e: Event)
    requires Enabled(s, e) && Disciplined(s, e) && CanFault(Apply(s, e))
    ensures CanFault(s)
  {
    var es, s' :| IsDisciplinedRun(Apply(s, e), es, s') && s'.fault;
    assert ([e] + es)[1..] == es;
    assert IsDisciplinedRun(s, [e] + es, s');
  }

  /** A disciplined continuation of `s` reaches `s'`, which is locked and has seen no misuse. */
  ghost predicate Reaches(s: State, s': State) {
    Locked(s') && !s'.fault && (CanFault(s') ==> CanFault(s))
  }

  lemma StepReaches(s: State, e: Event)
    requires Locked(s) && Enabled(s, e) && Disciplined(s, e)
    ensures !Apply(s, e).fault ==> Reaches(s, Apply(s, e))
  {
    StepLocked(s, e);
    if CanFault(Apply(s, e)) {
      FaultLater(s, e);
    }
  }

  // ---- The worker gets on --------------------------------------------------------------

  /** A holder of a message semaphore steps on without touching any work. */
  lemma HolderQuiet(s: State, t: nat)
    requires Locked(s) && t < |s.threads| && CanStep(s, t) && !s.fault
    requires InMessage(s.threads[t]) || InPending(s.threads[t])
    ensures Disciplined(s, Step(t, true)) && Yields(s, Apply(s, Step(t, true)), YardOf(s))
    ensures Apply(s, Step(t, true)).worker == s.worker
  {
    match s.threads[t] {
      case Writing(_) => WriteQuiet(s, t, true);
      case Reading(_) => ReadYields(s, t, true);
      case Flushing(_, _) => FlushQuiet(s, t);
    }
    SameWorker(s, t);
  }

  lemma SameWorker(s: State, t: nat)
    requires Enabled(s, Step(t, true))
    ensures Apply(s, Step(t, true)).worker == s.worker
  {
    AnyTurn(s, Step(t, true));
  }

  /** A thread that keeps the worker waiting can step. */
  lemma InTheWay(s: State) returns (t: nat)
    requires Locked(s) && !s.worker.KIdle? && !WorkerCanStep(s)
    ensures t < |s.threads| && CanStep(s, t) && (InMessage(s.threads[t]) || InPending(s.threads[t]))
  {
    var sem := if s.messageSem.Held? then s.messageSem else s.pendingSem;
    t := sem.holder.tid;
  }

  /** However long others keep the semaphores, the worker comes to read the flag. */
  lemma {:induction false} ReachesFlag(s: State) returns (s': State)
    requires Locked(s) && !s.fault && PhaseOf(s.worker).Running?
    ensures Reaches(s, s') && s'.worker == KFlag(s.worker.w) && YardOf(s') == YardOf(s)
    decreases P.Total(s)
  {
    if s.worker.KFlag? {
      s' := s;
    } else if WorkerCanStep(s) {
      WorkerYields(s);
      StepReaches(s, WorkerStep);
      P.StepLighter(s, WorkerStep);
      s' := ReachesFlag(WorkStep(s));
    } else {
      var t := InTheWay(s);
      HolderQuiet(s, t);
      StepReaches(s, Step(t, true));
      P.StepLighter(s, Step(t, true));
      s' := ReachesFlag(Apply(s, Step(t, true)));
    }
  }

  // ---- The worker finishes a work ------------------------------------------------------

  lemma FinishFree(s: State, w: nat) returns (s': State)
    requires Locked(s) && !s.fault && s.worker == KFree(w) && Is(YardOf(s), w, Unlinked)
    ensures Reaches(s, s') && YardOf(s') == YardOf(s).(works := s.works[w := Freed], phase := Resting)
  {
    s' := WorkStep(s);
    WorkerYields(s);
    StepReaches(s, WorkerStep);
  }

  lemma FinishUnlink(s: State, w: nat) returns (s': State)
    requires Locked(s) && !s.fault && s.worker == KUnlink(w) && Is(YardOf(s), w, Linked) && w in s.dev.delayList
    ensures Reaches(s, s')
    ensures YardOf(s') == YardOf(s).(works := s.works[w := Freed], list := Without(s.dev.delayList, w), phase := Resting)
  {
    WorkerYields(s);
    StepReaches(s, WorkerStep);
    s' := FinishFree(WorkStep(s), w);
    assert s.works[w := Unlinked][w := Freed] == s.works[w := Freed];
  }

  lemma FinishRun(s: State, w: nat) returns (s': State)
    requires Locked(s) && !s.fault && PhaseOf(s.worker) == Running(w) && s.dev.flushing && Is(YardOf(s), w, Unlinked)
    ensures Reaches(s, s') && YardOf(s') == YardOf(s).(works := s.works[w := Freed], phase := Resting)
  {
    var s1 := ReachesFlag(s);
    assert s1.dev.flushing == YardOf(s1).flushing && s1.works == YardOf(s1).works;
    WorkerYields(s1);
    StepReaches(s1, WorkerStep);
    s' := FinishFree(WorkStep(s1), w);
  }

  lemma StartNext(s: State) returns (s': State)
    requires Locked(s) && !s.fault && s.worker.KIdle? && s.ready != []
    requires s.ready[0] < |s.works| && !s.works[s.ready[0]].Queued?
    ensures Reaches(s, s') && YardOf(s') == YardOf(s).(phase := Running(s.ready[0]), ready := s.ready[1..])
  {
    s' := WorkStep(s);
    WorkerYields(s);
    StepReaches(s, WorkerStep);
  }

  /** The worker finishes what it is at, where that is no misuse. */
  ghost predicate Sound(y: Yard) {
    match y.phase
    case Resting => true
    case Running(w) => y.flushing && Is(y, w, Unlinked)
    case Unlinking(w) => Is(y, w, Linked) && w in y.list
    case Freeing(w) => Is(y, w, Unlinked)
  }

  /** ... after which everything else is as before. */
  ghost function Rested(y: Yard): Yard
    requires Sound(y)
  {
    match y.phase
    case Resting => y
    case Running(w) => y.(works := y.works[w := Freed], phase := Resting)
    case Unlinking(w) => y.(works := y.works[w := Freed], list := Without(y.list, w), phase := Resting)
    case Freeing(w) => y.(works := y.works[w := Freed], phase := Resting)
  }

  lemma FinishCurrent(s: State) returns (s': State)
    requires Locked(s) && !s.fault && Sound(YardOf(s))
    ensures Reaches(s, s') && YardOf(s') == Rested(YardOf(s))
  {
    match PhaseOf(s.worker)
    case Resting => s' := s;
    case Running(w) => s' := FinishRun(s, w);
    case Unlinking(w) => s' := FinishUnlink(s, w);
    case Freeing(w) => s' := FinishFree(s, w);
  }

  // ---- Ways to a misuse ----------------------------------------------------------------

  /** A linked work that runs during a traversal is freed while linked. */
  lemma LinkedRunFaults(s: State, w: nat)
    requires Locked(s) && !s.fault && PhaseOf(s.worker) == Running(w) && s.dev.flushing && Is(YardOf(s), w, Linked)
    ensures CanFault(s)
  {
    var s1 := ReachesFlag(s);
    assert s1.dev.flushing == YardOf(s1).flushing && s1.works == YardOf(s1).works;
    var s2 := WorkStep(s1);
    var s3 := WorkStep(s2);
    FaultNow(s3);
    FaultLater(s2, WorkerStep);
    FaultLater(s1, WorkerStep);
  }

  lemma LinkedReadyFaults(s: State)
    requires Locked(s) && !s.fault && s.worker.KIdle? && s.dev.flushing
    requires s.ready != [] && Is(YardOf(s), s.ready[0], Linked)
    ensures CanFault(s)
  {
    var w := s.ready[0];
    var s1 := StartNext(s);
    assert s1.dev.flushing == YardOf(s1).flushing && s1.works == YardOf(s1).works;
    assert PhaseOf(s1.worker) == YardOf(s1).phase;
    LinkedRunFaults(s1, w);
  }

  /** A work that runs before it is linked is linked after it was freed. */
  lemma UnlinkedRunFaults(s: State, w: nat)
    requires Locked(s) && !s.fault && PhaseOf(s.worker) == Running(w) && !s.dev.flushing
    requires Is(YardOf(s), w, Queued) && YardOf(s).role == Linker(w) && w !in s.dev.delayList
    ensures CanFault(s)
  {
    var s1 := ReachesFlag(s);
    assert YardOf(s1).flushing == YardOf(s).flushing && YardOf(s1).works == YardOf(s).works;
    assert YardOf(s1).role == Linker(w) && YardOf(s1).list == s.dev.delayList;
    FlaggedFaults(s1, w);
  }

  lemma FlaggedFaults(s: State, w: nat)
    requires !s.fault && s.worker == KFlag(w) && !s.dev.flushing && w !in s.dev.delayList
    requires Is(YardOf(s), w, Queued) && YardOf(s).role == Linker(w)
    ensures CanFault(s)
  {
    var s1 := WorkStep(s);
    var s2 := WorkStep(s1);
    var s3 := WorkStep(s2);
    var t := s.wqSem.holder.tid;
    assert s3.threads[t].wr.WLink? && s3.threads[t].wr.w == w;
    FaultNow(Apply(s3, Step(t, true)));
    FaultLater(s3, Step(t, true));
    FaultLater(s2, WorkerStep);
    FaultLater(s1, WorkerStep);
    FaultLater(s, WorkerStep);
  }

  /** A work that is freed before the flush expedites it. */
  lemma FreedKickFaults(s: State, w: nat)
    requires Locked(s) && !s.fault && YardOf(s).role.Kicker? && YardOf(s).role.w == w && Is(YardOf(s), w, Freed)
    ensures CanFault(s)
  {
    var t := s.wqSem.holder.tid;
    FaultNow(Apply(s, Step(t, true)));
    FaultLater(s, Step(t, true));
  }

  /** A traversal that comes to a work already freed. */
  lemma FreedWalkFaults(s: State, w: nat)
    requires Locked(s) && !s.fault && YardOf(s).role == Walker(At(w)) && Is(YardOf(s), w, Freed)
    ensures CanFault(s)
  {
    var t := s.wqSem.holder.tid;
    FaultNow(Apply(s, Step(t, true)));
    FaultLater(s, Step(t, true));
  }

  // ---- Every broken clause opens such a way --------------------------------------------

  lemma LinkedFirstBroken(s: State)
    requires Locked(s) && Tidy(YardOf(s)) && Enabled(s, WorkerStep) && !Keeps(LinkedFirst, s, WorkerStep)
    ensures CanFault(WorkStep(s))
  {
    var y, w := YardOf(s), s.ready[0];
    assert w in y.ready && Is(y, w, Queued);
    WorkerYields(s);
    StepLocked(s, WorkerStep);
    var s1 := WorkStep(s);
    assert YardOf(s1).works == y.works && YardOf(s1).list == y.list && YardOf(s1).role == y.role;
    assert w !in y.list;
    UnlinkedRunFaults(s1, w);
  }

  /** The worker has rested and its next work is linked, in the middle of a traversal. */
  lemma RestedFaults(s: State, w: nat)
    requires Locked(s) && !s.fault && Sound(YardOf(s)) && s.dev.flushing
    requires s.ready != [] && s.ready[0] == w && Is(YardOf(s), w, Linked)
    requires s.worker.KIdle? || s.worker.w != w
    ensures CanFault(s)
  {
    var y := YardOf(s);
    var s1 := FinishCurrent(s);
    var y1 := YardOf(s1);
    assert y1.ready == s.ready && y1.flushing && y1.phase == Resting && Is(y1, w, Linked);
    assert s1.ready == y1.ready && s1.works == y1.works && s1.dev.flushing == y1.flushing;
    LinkedReadyFaults(s1);
  }

  lemma BeginYard(s: State, t: nat)
    requires Locked(s) && !s.fault && t < |s.threads| && s.threads[t].Flushing? && s.threads[t].fl.FBegin?
    ensures YardOf(s).role == Entrant && Locked(FlushStep(s, t)) && FlushStep(s, t).worker == s.worker
    ensures Yields(s, FlushStep(s, t), FlushYard(s, FBegin))
  {
    RoleIs(s, t);
    FlushYields(s, t);
    StepLocked(s, Step(t, true));
  }

  lemma CalmBeginBroken(s: State, t: nat)
    requires Locked(s) && Tidy(YardOf(s)) && !s.fault
    requires t < |s.threads| && s.threads[t].Flushing? && s.threads[t].fl.FBegin?
    requires s.ready != [] || !Harmless(PhaseOf(s.worker), s.dev.delayList)
    ensures CanFault(FlushStep(s, t))
  {
    var y, s1 := YardOf(s), FlushStep(s, t);
    BeginYard(s, t);
    var y1 := YardOf(s1);
    assert y1 == y.(flushing := true, role := y1.role);
    assert forall w, st :: Is(y1, w, st) <==> Is(y, w, st);
    assert s1.ready == y1.ready && s1.dev.flushing == y1.flushing && s1.works == y1.works;
    match y.phase {
      case Running(w) => LinkedRunFaults(s1, w);
      case Unlinking(w) =>
        assert w in y.list;
        if s.ready == [] {
          NearTailBroken(s, t, w);
        } else {
          assert s.ready[0] in y.ready;
          RestedFaults(s1, s.ready[0]);
        }
      case _ =>
        assert s.ready[0] in y.ready;
        RestedFaults(s1, s.ready[0]);
    }
  }

  /** The traversal begins at a work, or next to a work, that the worker is about to unlink. */
  lemma NearTailBroken(s: State, t: nat, w: nat)
    requires Locked(s) && Tidy(YardOf(s)) && !s.fault && s.ready == []
    requires t < |s.threads| && s.threads[t].Flushing? && s.threads[t].fl.FBegin?
    requires s.worker == KUnlink(w) && NearTail(s.dev.delayList, w)
    ensures CanFault(FlushStep(s, t))
  {
    var y, s1 := YardOf(s), FlushStep(s, t);
    BeginYard(s, t);
    var v := Last(y.list);
    assert v in y.list && Is(y, v, Linked);
    assert YardOf(s1) == y.(flushing := true, role := Walker(At(v)));
    if v == w {
      AtTailFaults(s1, w);
    } else {
      assert v in y.armed;
      NextToTailFaults(s1, v, w);
    }
  }

  /** The flush unlinks the work under the worker's hands. */
  lemma AtTailFaults(s: State, w: nat)
    requires Locked(s) && !s.fault && s.worker == KUnlink(w) && YardOf(s).role == Walker(At(w))
    requires Distinct(s.dev.delayList) && s.dev.delayList != [] && w == Last(s.dev.delayList) && Is(YardOf(s), w, Linked)
    ensures CanFault(s)
  {
    var t := s.wqSem.holder.tid;
    var s1 := FlushStep(s, t);
    FlushYields(s, t);
    assert YardOf(s1).works == s.works[w := Unlinked] && PhaseOf(s1.worker) == Unlinking(w);
    FaultNow(WorkStep(s1));
    FaultLater(s1, WorkerStep);
    FaultLater(s, Step(t, true));
  }

  /** The flush remembers the work as its next one, and the worker frees it meanwhile. */
  lemma NextToTailFaults(s: State, v: nat, w: nat)
    requires Locked(s) && !s.fault && s.worker == KUnlink(w) && s.ready == [] && v in s.armed && v != w
    requires YardOf(s).role == Walker(At(v)) && s.dev.flushing && Distinct(s.dev.delayList)
    requires |s.dev.delayList| >= 2 && Last(s.dev.delayList) == v && s.dev.delayList[|s.dev.delayList| - 2] == w
    requires Is(YardOf(s), v, Linked) && Is(YardOf(s), w, Linked)
    ensures CanFault(s)
  {
    var l, y := s.dev.delayList, YardOf(s);
    var rest := l[..|l| - 1];
    assert Last(rest) == w && w in rest;
    var s1 := WalkStep(s, v);
    assert YardOf(s1) == y.(list := rest, works := s.works[v := Unlinked], role := Kicker(v, At(w)));
    KickedFaults(s1, v, w);
  }

  lemma KickedFaults(s: State, v: nat, w: nat)
    requires Locked(s) && !s.fault && PhaseOf(s.worker) == Unlinking(w) && s.ready == [] && v in s.armed && v != w
    requires YardOf(s).role == Kicker(v, At(w)) && s.dev.flushing && w in s.dev.delayList
    requires Is(YardOf(s), v, Unlinked) && Is(YardOf(s), w, Linked)
    ensures CanFault(s)
  {
    var s1 := KickStep(s, v, At(w));
    assert YardOf(s1) == YardOf(s).(armed := s.armed - {v}, ready := [v], role := Waiter(v, At(w)));
    ExpeditedFaults(s1, v, w);
  }

  lemma WalkStep(s: State, v: nat) returns (s': State)
    requires Locked(s) && !s.fault && YardOf(s).role == Walker(At(v)) && FlushFits(s, FLoop(At(v)))
    ensures Reaches(s, s') && YardOf(s') == FlushYard(s, FLoop(At(v)))
  {
    var t := s.wqSem.holder.tid;
    FlushYields(s, t);
    StepReaches(s, Step(t, true));
    s' := FlushStep(s, t);
  }

  lemma KickStep(s: State, v: nat, next: Cursor) returns (s': State)
    requires Locked(s) && !s.fault && YardOf(s).role == Kicker(v, next) && FlushFits(s, FKick(v, next))
    ensures Reaches(s, s') && YardOf(s') == FlushYard(s, FKick(v, next))
  {
    var t := s.wqSem.holder.tid;
    FlushYields(s, t);
    StepReaches(s, Step(t, true));
    s' := FlushStep(s, t);
  }

  lemma WaitStep(s: State, v: nat, next: Cursor) returns (s': State)
    requires Locked(s) && !s.fault && YardOf(s).role == Waiter(v, next) && v !in s.ready && s.worker.KIdle?
    ensures Reaches(s, s') && YardOf(s') == YardOf(s).(role := Walker(next))
  {
    var t := s.wqSem.holder.tid;
    FlushYields(s, t);
    StepReaches(s, Step(t, true));
    s' := FlushStep(s, t);
  }

  lemma ExpeditedFaults(s: State, v: nat, w: nat)
    requires Locked(s) && !s.fault && s.worker == KUnlink(w) && s.ready == [v] && s.dev.flushing && v != w
    requires YardOf(s).role == Waiter(v, At(w)) && w in s.dev.delayList
    requires Is(YardOf(s), v, Unlinked) && Is(YardOf(s), w, Linked)
    ensures CanFault(s)
  {
    var y := YardOf(s);
    var s1 := FinishCurrent(s);
    var y1 := YardOf(s1);
    assert s1.ready == y1.ready && s1.works == y1.works && PhaseOf(s1.worker) == y1.phase;
    var s2 := StartNext(s1);
    var y2 := YardOf(s2);
    assert s2.works == y2.works && PhaseOf(s2.worker) == y2.phase && s2.dev.flushing == y2.flushing;
    var s3 := FinishRun(s2, v);
    var y3 := YardOf(s3);
    assert s3.ready == y3.ready && PhaseOf(s3.worker) == y3.phase && Is(y3, w, Freed);
    var s4 := WaitStep(s3, v, At(w));
    FreedWalkFaults(s4, w);
  }

  lemma QuietTimersBroken(s: State, w: nat)
    requires Locked(s) && Tidy(YardOf(s)) && Enabled(s, Expire(w)) && s.dev.flushing
    ensures CanFault(Apply(s, Expire(w)))
  {
    var y, s1 := YardOf(s), Apply(s, Expire(w));
    StepLocked(s, Expire(w));
    var y1 := YardOf(s1);
    assert y1 == y.(armed := y.armed - {w}, ready := y.ready + [w]);
    assert y.phase.Unlinking? ==> Is(y, y.phase.w, Linked) && y.phase.w in y.list;
    assert Sound(y1);
    assert Is(y, w, Linked) ==> w in y.list;
    if y.ready == [] {
      ExpiredFaults(s1, w);
    } else {
      var v := y.ready[0];
      assert v in y.ready && v != w && y.ready == [v];
      assert y.role.Waiter? && Is(y, w, Linked);
      ExpiredBehindFaults(s1, v, w);
    }
  }

  /** The expired work is the worker's next. */
  lemma ExpiredFaults(s: State, w: nat)
    requires Locked(s) && !s.fault && Sound(YardOf(s)) && s.dev.flushing && s.ready == [w]
    requires s.worker.KIdle? || s.worker.w != w
    requires Is(YardOf(s), w, Linked) || (Is(YardOf(s), w, Unlinked) && YardOf(s).role.Kicker? && YardOf(s).role.w == w)
    ensures CanFault(s)
  {
    if Is(YardOf(s), w, Linked) {
      RestedFaults(s, w);
    } else {
      var s1 := FinishCurrent(s);
      var y1 := YardOf(s1);
      assert s1.ready == y1.ready && s1.works == y1.works && PhaseOf(s1.worker) == y1.phase;
      var s2 := StartNext(s1);
      var y2 := YardOf(s2);
      assert s2.works == y2.works && PhaseOf(s2.worker) == y2.phase && s2.dev.flushing == y2.flushing;
      var s3 := FinishRun(s2, w);
      FreedKickFaults(s3, w);
    }
  }

  /** ... or the next but one, behind the work the flush waits for. */
  lemma ExpiredBehindFaults(s: State, v: nat, w: nat)
    requires Locked(s) && !s.fault && Sound(YardOf(s)) && s.dev.flushing && s.ready == [v, w] && v != w
    requires s.worker.KIdle? || (s.worker.w != w && s.worker.w != v)
    requires Is(YardOf(s), w, Linked) && Is(YardOf(s), v, Unlinked)
    ensures CanFault(s)
  {
    var s1 := FinishCurrent(s);
    var y1 := YardOf(s1);
    assert s1.ready == y1.ready && s1.works == y1.works && PhaseOf(s1.worker) == y1.phase;
    var s2 := StartNext(s1);
    var y2 := YardOf(s2);
    assert s2.works == y2.works && PhaseOf(s2.worker) == y2.phase && s2.dev.flushing == y2.flushing;
    assert s2.ready == y2.ready && y2.ready == [w];
    RestedFaults(s2, w);
  }

  /** Every step that breaks the condition can be continued to a misuse. */
  lemma BrokenFaults(s: State, e: Event)
    requires Locked(s) && Tidy(YardOf(s)) && Enabled(s, e) && !Disciplined(s, e)
    ensures CanFault(Apply(s, e))
  {
    match e
    case Expire(w) => QuietTimersBroken(s, w);
    case Step(t, _) => CalmBeginBroken(s, t);
    case WorkerStep => LinkedFirstBroken(s);
  }

  /** And no disciplined step can. */
  lemma KeptIsSafe(s: State, e: Event)
    requires Locked(s) && Tidy(YardOf(s)) && Enabled(s, e) && Disciplined(s, e)
    ensures !CanFault(Apply(s, e))
  {
    StepLocked(s, e);
    StepTidy(s, e);
    forall es, s' | IsDisciplinedRun(Apply(s, e), es, s') ensures !s'.fault {
      DisciplinedRun(Apply(s, e), es, s');
    }
  }
}
