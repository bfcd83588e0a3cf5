/** When sleepers return: once the barrier is down and nobody raises it every sleeper returns,
    and with no awake in progress none returns otherwise. */
module Release {
  import opened Lists
  import opened Barrier

  // ---- Once the barrier is down --------------------------------------------------------

  function Weight(pc: Pc): nat {
    match pc
    case Outside => 0
    case SleepRaise => 0
    case SleepTest(_) => 1
    case SleepPark(_) => 4
    case SleepEnqueue(_) => 3
    case SleepRetest(_) => 2
    case SleepLeave(_) => 1
    case AwakeTest => 4
    case AwakeLower => 3
    case AwakeActive => 2
    case AwakeAll => 1
    case FlushRaise => 2
    case FlushLower => 1
  }

  lemma SleeperMoves(s: State, t: nat)
    requires t < |s.threads| && Sleeping(s.threads[t]) && !Up(s)
    ensures var ts := Advance(s, t).threads;
            t < |ts| && !ts[t].SleepRaise? && Weight(ts[t]) < Weight(s.threads[t])
  {
  }

  lemma ReleasedMove(s: State, t: nat)
    requires t < |s.threads| && !s.threads[t].Outside? && !s.threads[t].SleepRaise? && !Up(s)
    ensures var ts := Advance(s, t).threads;
            t < |ts| && !ts[t].SleepRaise? && Weight(ts[t]) < Weight(s.threads[t])
  {
    if Sleeping(s.threads[t]) {
      SleeperMoves(s, t);
    }
  }

  /** A run in which nobody raises the barrier. */
  ghost predicate IsRaiseFree(s: State, es: seq<Event>, s': State)
    decreases es
  {
    if es == [] then s == s'
    else
      && Enabled(s, es[0]) && !(es[0].Go? && s.threads[es[0].t].SleepRaise?)
      && IsRaiseFree(Apply(s, es[0]), es[1..], s')
  }

  lemma ReleasedStep(s: State, t: nat)
    requires !Up(s) && Enabled(s, Go(t)) && !s.threads[t].SleepRaise?
    ensures var s' := Apply(s, Go(t));
            && !Up(s') && Sum(s'.threads, Weight) < Sum(s.threads, Weight)
            && |s'.threads| == |s.threads|
            && forall u: nat :: u < |s.threads| && !s.threads[u].SleepRaise? ==> !s'.threads[u].SleepRaise?
  {
    var s' := Advance(s, t);
    ReleasedMove(s, t);
    OtherThreads(s, t);
    BitStep(s, t);
    SumUpdate(s.threads, Weight, t, s'.threads[t]);
  }

  /** Nobody can go on, apart from threads that would raise the barrier. */
  ghost predicate Ended(s: State) {
    forall u: nat :: Enabled(s, Go(u)) ==> s.threads[u].SleepRaise?
  }

  lemma EndedIsReturned(s: State, t: nat)
    requires Inv(s) && !Up(s) && Ended(s) && t < |s.threads|
    ensures s.threads[t].Outside? || s.threads[t].SleepRaise?
  {
    if !s.threads[t].Outside? && !s.threads[t].SleepRaise? {
      if Blocked(s.threads[t], t in s.queue) {
        var u :| 0 <= u < |s.threads| && Waking(s.threads[u]);
        assert Enabled(s, Go(u));
      } else {
        assert Enabled(s, Go(t));
      }
    }
  }

  /** Once the barrier is down and nobody raises it, every sleeper returns, under any scheduler
      and within a bound given by the number and positions of unfinished threads. */
  lemma {:induction false} AllSleepersReturn(s: State, es: seq<Event>, s': State)
    requires Inv(s) && !Up(s) && IsRaiseFree(s, es, s') && forall i :: 0 <= i < |es| ==> es[i].Go?
    ensures |es| + Sum(s'.threads, Weight) <= Sum(s.threads, Weight)
    ensures |s'.threads| == |s.threads|
    ensures Ended(s') ==> forall t: nat :: t < |s.threads| && !s.threads[t].SleepRaise? ==> s'.threads[t].Outside?
    decreases es
  {
    if es == [] {
      forall t: nat | Ended(s) && t < |s.threads| && !s.threads[t].SleepRaise? ensures s.threads[t].Outside? {
        EndedIsReturned(s, t);
      }
    } else {
      StepInv(s, es[0]);
      ReleasedStep(s, es[0].t);
      AllSleepersReturn(Apply(s, es[0]), es[1..], s');
    }
  }

  /** An awake takes the barrier down: from its test on, as long as nobody raises the barrier,
      either the awake has yet to lower it or it is down. So when the awake has returned with no
      raise in between, the barrier is down and `AllSleepersReturn` applies. */
  lemma {:induction false} AwakeLeavesItDown(s: State, t: nat, es: seq<Event>, s': State)
    requires t < |s.threads| && (s.threads[t].AwakeTest? || s.threads[t].AwakeLower? || !Up(s))
    requires IsRaiseFree(s, es, s')
    ensures t < |s'.threads| && (s'.threads[t].AwakeTest? || s'.threads[t].AwakeLower? || !Up(s'))
    decreases es
  {
    if es != [] {
      var s1 := Apply(s, es[0]);
      if es[0].Go? {
        BitStep(s, es[0].t);
        OtherThreads(s, es[0].t);
        AwakeMoves(s, es[0].t);
      }
      AwakeLeavesItDown(s1, t, es[1..], s');
    }
  }

  lemma AwakeMoves(s: State, t: nat)
    requires t < |s.threads| && !s.threads[t].Outside?
    ensures var s' := Advance(s, t);
            && t < |s'.threads|
            && (s.threads[t].AwakeTest? && Up(s) ==> s'.threads[t].AwakeLower?)
  {
  }

  lemma {:induction false} RaiseFreeInv(s: State, es: seq<Event>, s': State)
    requires Inv(s) && IsRaiseFree(s, es, s')
    ensures Inv(s')
    decreases es
  {
    if es != [] {
      StepInv(s, es[0]);
      RaiseFreeInv(Apply(s, es[0]), es[1..], s');
    }
  }

  /** An awake that has returned with no raise since its call frees every sleeper: however the
      threads then go on, as long as nobody raises the barrier they come to an end within a bound,
      and at that end every thread that slept when the awake returned has returned too. */
  lemma {:induction false} AwakeFreesSleepers(s: State, t: nat, es: seq<Event>, s1: State, es1: seq<Event>, s': State)
    requires Reachable(s) && Enabled(s, Awake(t))
    requires IsRaiseFree(Apply(s, Awake(t)), es, s1) && t < |s1.threads| && s1.threads[t].Outside?
    requires IsRaiseFree(s1, es1, s') && forall i :: 0 <= i < |es1| ==> es1[i].Go?
    ensures |es1| <= Sum(s1.threads, Weight) && |s'.threads| == |s1.threads|
    ensures Ended(s') ==> forall u: nat :: u < |s1.threads| && Sleeping(s1.threads[u]) ==> s'.threads[u].Outside?
  {
    ReachableInv(s);
    var s0 := Apply(s, Awake(t));
    StepInv(s, Awake(t));
    AwakeLeavesItDown(s0, t, es, s1);
    RaiseFreeInv(s0, es, s1);
    AllSleepersReturn(s1, es1, s');
  }

  // ---- Exactly when a sleeper returns --------------------------------------------------

  predicate Awaking(pc: Pc) { pc.AwakeTest? || pc.AwakeLower? || Waking(pc) }

  /** No awake is in progress and nobody is about to raise the barrier. */
  ghost predicate Calm(s: State) {
    forall t: nat :: t < |s.threads| ==> !Awaking(s.threads[t]) && !s.threads[t].SleepRaise?
  }

  /** A sleeper that has not yet seen the barrier down. */
  predicate Waits(pc: Pc) { Sleeping(pc) && !pc.SleepLeave? }

  ghost predicate IsGoRun(s: State, es: seq<Event>, s': State) {
    IsRun(s, es, s') && forall i :: 0 <= i < |es| ==> es[i].Go?
  }

  ghost predicate Stuck(s: State) { forall u: nat :: !Enabled(s, Go(u)) }

  predicate Returned(s: State, t: nat) { t < |s.threads| && s.threads[t].Outside? }

  /** Some schedule of the unfinished threads returns `t`. */
  ghost predicate MayReturn(s: State, t: nat) {
    exists es, s' :: IsGoRun(s, es, s') && Returned(s', t)
  }

  /** Every schedule returns `t` by the time nobody can go on. */
  ghost predicate MustReturn(s: State, t: nat) {
    forall es, s' :: IsGoRun(s, es, s') && Stuck(s') ==> Returned(s', t)
  }

  lemma CalmStep(s: State, t: nat)
    requires Calm(s) && Enabled(s, Go(t))
    ensures var s' := Apply(s, Go(t)); Calm(s') && Up(s') == Up(s)
  {
    OtherThreads(s, t);
    BitStep(s, t);
    CalmMove(s, t);
  }

  lemma CalmMove(s: State, t: nat)
    requires t < |s.threads| && !s.threads[t].Outside? && !Awaking(s.threads[t]) && !s.threads[t].SleepRaise?
    ensures var ts := Advance(s, t).threads; t < |ts| && !Awaking(ts[t]) && !ts[t].SleepRaise?
  {
  }

  lemma AsleepMove(s: State, t: nat)
    requires t < |s.threads| && Up(s) && Waits(s.threads[t])
    ensures var ts := Advance(s, t).threads; t < |ts| && Waits(ts[t])
  {
  }

  lemma {:induction false} CalmRun(s: State, es: seq<Event>, s': State)
    requires Calm(s) && IsGoRun(s, es, s')
    ensures IsRaiseFree(s, es, s')
    decreases es
  {
    if es != [] {
      CalmStep(s, es[0].t);
      CalmRun(Apply(s, es[0]), es[1..], s');
    }
  }

  /** Behind a raised barrier with no awake in progress no schedule gets a sleeper past its test. */
  lemma {:induction false} StaysAsleep(s: State, t: nat, es: seq<Event>, s': State)
    requires Calm(s) && Up(s) && t < |s.threads| && Waits(s.threads[t]) && IsGoRun(s, es, s')
    ensures t < |s'.threads| && Waits(s'.threads[t])
    decreases es
  {
    if es != [] {
      CalmStep(s, es[0].t);
      OtherThreads(s, es[0].t);
      if es[0].t == t {
        AsleepMove(s, t);
      }
      StaysAsleep(Apply(s, es[0]), t, es[1..], s');
    }
  }

  // ---- Calm threads come to an end -----------------------------------------------------

  datatype Place = Place(pc: Pc, queued: bool)

  ghost function Places(s: State): seq<Place> {
    seq(|s.threads|, t requires 0 <= t < |s.threads| => Place(s.threads[t], t in s.queue))
  }

  /** Steps left to a thread while no awake is in progress. */
  function Left(p: Place): nat {
    match p.pc
    case SleepTest(_) => 6
    case SleepRetest(_) => if p.queued then 2 else 5
    case SleepPark(_) => if p.queued then 0 else 4
    case SleepEnqueue(_) => 3
    case SleepLeave(_) => 1
    case FlushRaise => 2
    case FlushLower => 1
    case _ => 0
  }

  lemma PlaceMoves(s: State, t: nat)
    requires Calm(s) && Enabled(s, Go(t))
    ensures var s' := Apply(s, Go(t));
            && |Places(s')| == |Places(s)| && Places(s') == Places(s)[t := Places(s')[t]]
            && Left(Places(s')[t]) < Left(Places(s)[t])
  {
    OtherThreads(s, t);
    QueueMoves(s, t);
    var s' := Advance(s, t);
    assert forall u: nat :: u < |s.threads| && u != t ==> Places(s')[u] == Places(s)[u];
  }

  lemma QueueMoves(s: State, t: nat)
    requires t < |s.threads| && !s.threads[t].Outside? && !Awaking(s.threads[t]) && !s.threads[t].SleepRaise?
    requires s.threads[t].SleepPark? ==> t !in s.queue
    ensures var s' := Advance(s, t);
            && t < |s'.threads| && s'.queue - {t} == s.queue - {t}
            && Left(Place(s'.threads[t], t in s'.queue)) < Left(Place(s.threads[t], t in s.queue))
  {
  }

  /** Some schedule goes on until nobody can. */
  lemma {:induction false} RunsOut(s: State) returns (es: seq<Event>, s': State)
    requires Calm(s)
    ensures IsGoRun(s, es, s') && Stuck(s')
    decreases Sum(Places(s), Left)
  {
    es, s' := [], s;
    if u: nat :| Enabled(s, Go(u)) {
      var s1 := Apply(s, Go(u));
      CalmStep(s, u);
      PlaceMoves(s, u);
      SumUpdate(Places(s), Left, u, Places(s1)[u]);
      es, s' := RunsOut(s1);
      assert ([Go(u)] + es)[1..] == es;
      es := [Go(u)] + es;
    }
  }

  /** With no awake in progress and no raise to come, a sleeper returns if and only if the barrier
      is down: then every schedule returns it, otherwise none does. */
  lemma ReturnsExactlyWhenDown(s: State, t: nat)
    requires Reachable(s) && Calm(s) && t < |s.threads| && Waits(s.threads[t])
    ensures MustReturn(s, t) <==> !Up(s)
    ensures MayReturn(s, t) <==> !Up(s)
  {
    ReachableInv(s);
    var es0, s0 := RunsOut(s);
    if Up(s) {
      StaysAsleep(s, t, es0, s0);
      forall es, s' | IsGoRun(s, es, s') ensures !Returned(s', t) {
        StaysAsleep(s, t, es, s');
      }
    } else {
      forall es, s' | IsGoRun(s, es, s') && Stuck(s') ensures Returned(s', t) {
        CalmRun(s, es, s');
        AllSleepersReturn(s, es, s');
      }
      assert IsGoRun(s, es0, s0) && Returned(s0, t);
    }
  }

  // ---- A raise after the awake ---------------------------------------------------------

  /** A thread left blocked with no waker on the way is blocked by a barrier raised after every
      lowering so far. */
  lemma BlockedOnlyByLaterRaise(s: State, t: nat)
    requires Reachable(s) && t < |s.threads| && Blocked(s.threads[t], t in s.queue) && !SomeoneWakes(s.threads)
    ensures Up(s) && s.log != [] && s.log[|s.log| - 1].Raised?
  {
    ReachableInv(s);
  }

  ghost predicate LeadsTo(s: State, goal: State) { exists es :: IsRun(s, es, goal) }

  lemma Via(s: State, e: Event, s': State, goal: State)
    requires Enabled(s, e) && s'.threads == Apply(s, e).threads && LeadsTo(s', goal)
    requires s'.flags == Apply(s, e).flags && s'.queue == Apply(s, e).queue && s'.log == Apply(s, e).log
    ensures LeadsTo(s, goal)
  {
    var es :| IsRun(s', es, goal);
    assert s' == Apply(s, e) && ([e] + es)[1..] == es;
    assert IsRun(s, [e] + es, goal);
  }

  /** Thread 0 raises the barrier. */
  lemma LeadsToRaised(goal: State)
    requires LeadsTo(State(1, {}, [SleepTest(1), Outside, Outside], [Raised(0)]), goal)
    ensures LeadsTo(State(0, {}, [Outside, Outside, Outside], []), goal)
  {
    var s0 := State(0, {}, [Outside, Outside, Outside], []);
    var s1 := State(0, {}, [SleepRaise, Outside, Outside], []);
    var s2 := State(1, {}, [SleepTest(1), Outside, Outside], [Raised(0)]);
    Via(s1, Go(0), s2, goal);
    Via(s0, Sleep(0), s1, goal);
  }

  /** Thread 0 parks behind it. */
  lemma LeadsToParked(goal: State)
    requires LeadsTo(State(1, {0}, [SleepPark(1), Outside, Outside], [Raised(0)]), goal)
    ensures LeadsTo(State(1, {}, [SleepTest(1), Outside, Outside], [Raised(0)]), goal)
  {
    var s0 := State(1, {}, [SleepTest(1), Outside, Outside], [Raised(0)]);
    var s1 := State(1, {}, [SleepEnqueue(1), Outside, Outside], [Raised(0)]);
    var s2 := State(1, {0}, [SleepRetest(1), Outside, Outside], [Raised(0)]);
    var s3 := State(1, {0}, [SleepPark(1), Outside, Outside], [Raised(0)]);
    Via(s2, Go(0), s3, goal);
    Via(s1, Go(0), s2, goal);
    Via(s0, Go(0), s1, goal);
  }

  /** Thread 1 lowers the barrier. */
  lemma LeadsToLowered(goal: State)
    requires LeadsTo(State(0, {0}, [SleepPark(1), AwakeActive, Outside], [Raised(0), Lowered(1)]), goal)
    ensures LeadsTo(State(1, {0}, [SleepPark(1), Outside, Outside], [Raised(0)]), goal)
  {
    var s0 := State(1, {0}, [SleepPark(1), Outside, Outside], [Raised(0)]);
    var s1 := State(1, {0}, [SleepPark(1), AwakeTest, Outside], [Raised(0)]);
    var s2 := State(1, {0}, [SleepPark(1), AwakeLower, Outside], [Raised(0)]);
    var s3 := State(0, {0}, [SleepPark(1), AwakeActive, Outside], [Raised(0), Lowered(1)]);
    Via(s2, Go(1), s3, goal);
    Via(s1, Go(1), s2, goal);
    Via(s0, Awake(1), s1, goal);
  }

  /** Thread 1 wakes thread 0 and returns. */
  lemma LeadsToWoken(goal: State)
    requires LeadsTo(State(0, {}, [SleepPark(1), Outside, Outside], [Raised(0), Lowered(1)]), goal)
    ensures LeadsTo(State(1, {0}, [SleepPark(1), Outside, Outside], [Raised(0)]), goal)
  {
    var s0 := State(0, {0}, [SleepPark(1), AwakeActive, Outside], [Raised(0), Lowered(1)]);
    var s1 := State(0, {0}, [SleepPark(1), AwakeAll, Outside], [Raised(0), Lowered(1)]);
    var s2 := State(0, {}, [SleepPark(1), Outside, Outside], [Raised(0), Lowered(1)]);
    Via(s1, Go(1), s2, goal);
    Via(s0, Go(1), s1, goal);
    LeadsToLowered(goal);
  }

  /** Thread 2 raises the barrier before thread 0 tests it again. */
  lemma LeadsToReblocked(goal: State)
    requires LeadsTo(State(1, {0}, [SleepPark(1), Outside, SleepTest(3)], [Raised(0), Lowered(1), Raised(2)]), goal)
    ensures LeadsTo(State(0, {}, [SleepPark(1), Outside, Outside], [Raised(0), Lowered(1)]), goal)
  {
    var s0 := State(0, {}, [SleepPark(1), Outside, Outside], [Raised(0), Lowered(1)]);
    var s1 := State(0, {}, [SleepPark(1), Outside, SleepRaise], [Raised(0), Lowered(1)]);
    var s2 := State(1, {}, [SleepPark(1), Outside, SleepTest(3)], [Raised(0), Lowered(1), Raised(2)]);
    var s3 := State(1, {}, [SleepEnqueue(1), Outside, SleepTest(3)], [Raised(0), Lowered(1), Raised(2)]);
    var s4 := State(1, {0}, [SleepRetest(1), Outside, SleepTest(3)], [Raised(0), Lowered(1), Raised(2)]);
    var s5 := State(1, {0}, [SleepPark(1), Outside, SleepTest(3)], [Raised(0), Lowered(1), Raised(2)]);
    Via(s4, Go(0), s5, goal);
    Via(s3, Go(0), s4, goal);
    Via(s2, Go(0), s3, goal);
    Via(s1, Go(2), s2, goal);
    Via(s0, Sleep(2), s1, goal);
  }

  lemma FromInit(goal: State)
    requires LeadsTo(State(1, {0}, [SleepPark(1), Outside, Outside], [Raised(0)]), goal)
    ensures Reachable(goal)
  {
    LeadsToParked(goal);
    LeadsToRaised(goal);
    assert Init(3) == State(0, {}, [Outside, Outside, Outside], []);
  }

  /** An awake that has returned does not free a sleeper if another thread raises the barrier
      before the sleeper tests it again: thread 0 is blocked although thread 1's awake, which
      began after thread 0 had gone to sleep, is complete. */
  lemma AwakeMayLeaveASleeper()
    ensures var s := State(1, {0}, [SleepPark(1), Outside, SleepTest(3)], [Raised(0), Lowered(1), Raised(2)]);
            Reachable(s) && Blocked(s.threads[0], 0 in s.queue) && !SomeoneWakes(s.threads)
  {
    var s := State(1, {0}, [SleepPark(1), Outside, SleepTest(3)], [Raised(0), Lowered(1), Raised(2)]);
    assert IsRun(s, [], s);
    LeadsToReblocked(s);
    LeadsToWoken(s);
    FromInit(s);
  }
}
