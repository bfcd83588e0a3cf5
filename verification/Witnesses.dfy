/** Each clause of the hand-over condition is needed: a run that breaks only that clause makes
    the code free a linked work, or link a freed one. */
module Witnesses {
  import opened Model
  import opened Handover

  /** Some run from `s` keeps every clause but `c` and misuses a work. */
  ghost predicate Misuses(c: Clause, s: State) {
    exists es, s' :: IsRunBut(c, s, es, s') && s'.fault
  }

  ghost predicate AllBut(c: Clause, s: State, e: Event)
    requires Enabled(s, e)
  {
    forall d :: d != c ==> Keeps(d, s, e)
  }

  ghost predicate IsRunBut(c: Clause, s: State, es: seq<Event>, s': State)
    decreases es
  {
    if es == [] then s == s'
    else Enabled(s, es[0]) && AllBut(c, s, es[0]) && IsRunBut(c, Apply(s, es[0]), es[1..], s')
  }

  lemma Now(c: Clause, s: State)
    requires s.fault
    ensures Misuses(c, s)
  {
    assert IsRunBut(c, s, [], s);
  }

  lemma Later(c: Clause, s: State, e: Event)
    requires Enabled(s, e) && AllBut(c, s, e) && Misuses(c, Apply(s, e))
    ensures Misuses(c, s)
  {
    var es, s' :| IsRunBut(c, Apply(s, e), es, s') && s'.fault;
    assert ([e] + es)[1..] == es;
    assert IsRunBut(c, s, [e] + es, s');
  }

  // ---- A delayed write up to the two operations under wq_sem ---------------------------

  const MSG := Message(0, [7])

  function Base(pending: seq<Message>, pc: Pc): State {
    Init(1, true, 8, 8).(dev := Store([], pending, [], 1, 1, false), threads := [pc],
                         log := Init(1, true, 8, 8).log.(accepted := [MSG]))
  }

  /** The work is queued and its timer runs, but it is not yet linked. */
  function Unlinked0(): State {
    var s := Base([MSG], Writing(WLink(MSG, 0)));
    s.(wqSem := Held(User(0)), armed := {0}, works := [Queued],
       log := s.log.(pended := [Stamp(MSG, 0)], queued := [Queueing(0, 1)]))
  }

  /** The work is linked and the write has returned. */
  function Linked0(): State {
    var s := Unlinked0();
    s.(dev := s.dev.(delayList := [0]), works := [Linked], wqSem := Free, threads := [Idle(1, [])],
       calls := Calls({MSG}, []))
  }

  /** The delay is set and the write is in its first critical section. */
  function Accepting0(): State {
    var s := Init(1, true, 8, 8);
    s.(dev := s.dev.(delay := 1), messageSem := Held(User(0)), threads := [Writing(WAccept([7]))])
  }

  lemma ReachAccepting(c: Clause)
    requires Misuses(c, Accepting0())
    ensures Misuses(c, Init(1, true, 8, 8))
  {
    var s0 := Init(1, true, 8, 8);
    var e0 := Call(0, SetDelay(1));
    var s1 := Apply(s0, e0);
    var e1 := Call(0, Write([7], true));
    var s2 := Apply(s1, e1);
    assert Prefix([7], 8) == [7];
    assert s2.threads == [Writing(WDown([7]))];
    var s3 := Apply(s2, Step(0, true));
    assert s3.threads == [Writing(WAccept([7]))];
    assert s3 == Accepting0();
    Later(c, s2, Step(0, true));
    Later(c, s1, e1);
    Later(c, s0, e0);
  }

  lemma ReachPend(c: Clause)
    requires Misuses(c, Base([], Writing(WPend(MSG))).(pendingSem := Held(User(0))))
    ensures Misuses(c, Accepting0())
  {
    var s0 := Accepting0();
    var s1 := Apply(s0, Step(0, true));
    assert s1.threads == [Writing(WDownPending(MSG))] && s1.log.accepted == [MSG];
    var s2 := Apply(s1, Step(0, true));
    assert s2.threads == [Writing(WPend(MSG))];
    assert s2 == Base([], Writing(WPend(MSG))).(pendingSem := Held(User(0)));
    Later(c, s1, Step(0, true));
    Later(c, s0, Step(0, true));
  }

  lemma ReachQueue(c: Clause)
    requires Misuses(c, Unlinked0())
    ensures Misuses(c, Base([], Writing(WPend(MSG))).(pendingSem := Held(User(0))))
  {
    var s0 := Base([], Writing(WPend(MSG))).(pendingSem := Held(User(0)));
    var s1 := Apply(s0, Step(0, true));
    var s2 := Apply(s1, Step(0, true));
    var s3 := Apply(s2, Step(0, true));
    var s4 := Apply(s3, Step(0, true));
    assert s4 == Unlinked0();
    Later(c, s3, Step(0, true));
    Later(c, s2, Step(0, true));
    Later(c, s1, Step(0, true));
    Later(c, s0, Step(0, true));
  }

  lemma ReachLinked(c: Clause)
    requires Misuses(c, Linked0())
    ensures Misuses(c, Unlinked0())
  {
    var s0 := Unlinked0();
    assert Apply(s0, Step(0, true)) == Linked0();
    Later(c, s0, Step(0, true));
  }

  // ---- A work that runs before it is linked --------------------------------------------

  /** The worker runs the unlinked work to its end. */
  function Freed0(): State {
    var s := Unlinked0();
    s.(now := 1, armed := {}, works := [Freed], dev := s.dev.(messageList := [MSG], pendingList := []),
       log := s.log.(fired := {0}, published := [Publication(MSG, Matured, 1)]))
  }

  lemma LinkFaults(c: Clause)
    ensures Misuses(c, Freed0())
  {
    var s0 := Freed0();
    Now(c, Apply(s0, Step(0, true)));
    Later(c, s0, Step(0, true));
  }

  function Taken0(): State {
    var s := Unlinked0();
    s.(now := 1, armed := {}, worker := KDownMessage(0, MSG), dev := s.dev.(pendingList := []),
       log := s.log.(fired := {0}))
  }

  lemma ReachFreed(c: Clause)
    requires Misuses(c, Freed0())
    ensures Misuses(c, Published0())
  {
    var s0 := Published0();
    var s1 := Apply(s0, WorkerStep);
    var s2 := Apply(s1, WorkerStep);
    var s3 := Apply(s2, WorkerStep);
    assert s3 == Freed0();
    Later(c, s2, WorkerStep);
    Later(c, s1, WorkerStep);
    Later(c, s0, WorkerStep);
  }

  function Published0(): State { Freed0().(works := [Queued], worker := KFlag(0)) }

  lemma ReachPublished(c: Clause)
    requires Misuses(c, Published0())
    ensures Misuses(c, Taken0())
  {
    var s0 := Taken0();
    var s1 := Apply(s0, WorkerStep);
    var s2 := Apply(s1, WorkerStep);
    assert s2 == Published0();
    Later(c, s1, WorkerStep);
    Later(c, s0, WorkerStep);
  }

  lemma ReachTaken()
    requires Misuses(LinkedFirst, Taken0())
    ensures Misuses(LinkedFirst, Unlinked0())
  {
    var c, s0 := LinkedFirst, Unlinked0();
    var s1 := Apply(s0, Tick);
    var s2 := Apply(s1, Expire(0));
    assert s2.ready == [0];
    var s3 := Apply(s2, WorkerStep);
    assert s3.ready == [];
    var s4 := Apply(s3, WorkerStep);
    var s5 := Apply(s4, WorkerStep);
    assert s5 == Taken0();
    Later(c, s4, WorkerStep);
    Later(c, s3, WorkerStep);
    Later(c, s2, WorkerStep);
    Later(c, s1, Expire(0));
    Later(c, s0, Tick);
  }

  /** Dropping `LinkedFirst`: the writer links a work that was already freed. */
  lemma LinkedFirstIsNeeded()
    ensures Misuses(LinkedFirst, Init(1, true, 8, 8))
  {
    LinkFaults(LinkedFirst);
    ReachFreed(LinkedFirst);
    ReachPublished(LinkedFirst);
    ReachTaken();
    ReachQueue(LinkedFirst);
    ReachPend(LinkedFirst);
    ReachAccepting(LinkedFirst);
  }

  // ---- A timer that expires during a traversal -----------------------------------------

  /** A flush holds `wq_sem` and has spliced. */
  function Begun0(): State {
    var s := Linked0();
    s.(dev := s.dev.(messageList := [MSG], pendingList := []), wqSem := Held(User(0)),
       threads := [Flushing(FBegin, {MSG})],
       log := s.log.(published := [Publication(MSG, Spliced, 0)], flushed := true))
  }

  /** A flush has both message semaphores. */
  function Splicing0(): State {
    Linked0().(pendingSem := Held(User(0)), messageSem := Held(User(0)), threads := [Flushing(FSplice, {MSG})])
  }

  lemma ReachSplicing(c: Clause)
    requires Misuses(c, Splicing0())
    ensures Misuses(c, Linked0())
  {
    var s0 := Linked0();
    var s1 := Apply(s0, Call(0, Revoke));
    assert s1.threads == [Flushing(FDownPending, {MSG})];
    var s2 := Apply(s1, Step(0, true));
    assert s2.threads == [Flushing(FDownMessage, {MSG})];
    var s3 := Apply(s2, Step(0, true));
    assert s3.threads == [Flushing(FSplice, {MSG})];
    assert s3 == Splicing0();
    Later(c, s2, Step(0, true));
    Later(c, s1, Step(0, true));
    Later(c, s0, Call(0, Revoke));
  }

  lemma ReachBegun(c: Clause)
    requires Misuses(c, Begun0())
    ensures Misuses(c, Splicing0())
  {
    var s0 := Splicing0();
    var s1 := Apply(s0, Step(0, true));
    assert s1.threads == [Flushing(FDownWq, {MSG})] && s1.log.published == [Publication(MSG, Spliced, 0)];
    var s2 := Apply(s1, Step(0, true));
    assert s2.threads == [Flushing(FBegin, {MSG})];
    assert s2 == Begun0();
    Later(c, s1, Step(0, true));
    Later(c, s0, Step(0, true));
  }

  /** A timer-fired work about to read the flag of a running traversal. */
  function Overlap0(now: nat): State {
    var s := Begun0();
    s.(now := now, armed := {}, worker := KFlag(0), dev := s.dev.(flushing := true),
       threads := [Flushing(FLoop(At(0)), {MSG})], log := s.log.(fired := {0}))
  }

  /** The worker leaves unlinking to the flush and frees the work the flush has yet to reach. */
  lemma OverlapFaults(c: Clause)
    ensures Misuses(c, Overlap0(1))
  {
    var s0 := Overlap0(1);
    var s1 := Apply(s0, WorkerStep);
    Now(c, Apply(s1, WorkerStep));
    Later(c, s1, WorkerStep);
    Later(c, s0, WorkerStep);
  }

  /** The worker takes the expired work `0` and finds nothing pending. */
  lemma WorkerReachesFlag(c: Clause, s: State, goal: State)
    requires !s.fault && s.worker.KIdle? && s.ready == [0] && s.pendingSem.Free? && s.dev.pendingList == []
    requires |s.works| == 1 && s.works[0] == Linked
    requires goal == s.(ready := [], worker := KFlag(0), log := s.log.(fired := s.log.fired + {0}))
    requires Misuses(c, goal)
    ensures Misuses(c, s)
  {
    var s1 := Apply(s, WorkerStep);
    assert s1.ready == [];
    var s2 := Apply(s1, WorkerStep);
    var s3 := Apply(s2, WorkerStep);
    assert s3 == goal;
    Later(c, s2, WorkerStep);
    Later(c, s1, WorkerStep);
    Later(c, s, WorkerStep);
  }

  /** Dropping `QuietTimers`: the timer expires after the traversal has begun. */
  lemma QuietTimersAreNeeded()
    ensures Misuses(QuietTimers, Begun0())
  {
    var c, s0 := QuietTimers, Begun0();
    var s1 := Apply(s0, Step(0, true));
    assert s1.threads == [Flushing(FLoop(At(0)), {MSG})];
    var s2 := Apply(s1, Tick);
    var s3 := Apply(s2, Expire(0));
    assert s3.ready == [0];
    OverlapFaults(c);
    WorkerReachesFlag(c, s3, Overlap0(1));
    Later(c, s2, Expire(0));
    Later(c, s1, Tick);
    Later(c, s0, Step(0, true));
  }

  /** Dropping `CalmBegin`: the work is already running when the traversal begins. */
  lemma CalmBeginIsNeeded()
    ensures Misuses(CalmBegin, Begun0())
  {
    var c, s0 := CalmBegin, Begun0();
    var s1 := Apply(s0, Tick);
    var s2 := Apply(s1, Expire(0));
    assert s2.ready == [0];
    var s3 := s2.(ready := [], worker := KFlag(0), log := s2.log.(fired := {0}));
    var s4 := Apply(s3, Step(0, true));
    assert s4.threads == [Flushing(FLoop(At(0)), {MSG})];
    assert s4 == Overlap0(1);
    OverlapFaults(c);
    Later(c, s3, Step(0, true));
    WorkerReachesFlag(c, s2, s3);
    Later(c, s1, Expire(0));
    Later(c, s0, Tick);
  }

  /** No clause of the hand-over condition can be dropped. */
  lemma EveryClauseIsNeeded(c: Clause)
    ensures Misuses(c, Init(1, true, 8, 8))
  {
    match c {
      case LinkedFirst => LinkedFirstIsNeeded();
      case CalmBegin => CalmBeginIsNeeded();
      case QuietTimers => QuietTimersAreNeeded();
    }
    if c != LinkedFirst {
      ReachBegun(c);
      ReachSplicing(c);
      ReachLinked(c);
      ReachQueue(c);
      ReachPend(c);
      ReachAccepting(c);
    }
  }
}
