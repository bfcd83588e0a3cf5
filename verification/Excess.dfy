/** A work without a message: it comes about when a flush splices between the two halves of a
    delayed write, and then takes a later message before its time. */
module Excess {
  import opened Lists
  import opened Model
  import opened Threads
  import opened Simulation
  import opened Works
  import opened Order
  import opened Progress
  import opened Handover
  import opened Locks
  import opened Renewal
  import Balance
  import Theorems

  // ---- Careful runs: disciplined and without a splice ----------------------------------

  ghost predicate IsCareful(s: State, es: seq<Event>, s': State)
    decreases es
  {
    if es == [] then s == s'
    else
      && Enabled(s, es[0]) && Disciplined(s, es[0]) && !Splices(s, es[0])
      && IsCareful(Apply(s, es[0]), es[1..], s')
  }

  ghost predicate Leads(s: State, s': State) { exists es :: IsCareful(s, es, s') }

  lemma {:induction false} CarefulJoin(s: State, es: seq<Event>, s1: State, es1: seq<Event>, s': State)
    requires IsCareful(s, es, s1) && IsCareful(s1, es1, s')
    ensures IsCareful(s, es + es1, s')
    decreases es
  {
    if es == [] {
      assert es + es1 == es1;
    } else {
      assert (es + es1)[0] == es[0] && (es + es1)[1..] == es[1..] + es1;
      CarefulJoin(Apply(s, es[0]), es[1..], s1, es1, s');
    }
  }

  lemma LeadsOn(s: State, s1: State, s': State)
    requires Leads(s, s1) && Leads(s1, s')
    ensures Leads(s, s')
  {
    var es, es1 :| IsCareful(s, es, s1) && IsCareful(s1, es1, s');
    CarefulJoin(s, es, s1, es1, s');
  }

  lemma LeadsBy(s: State, e: Event)
    requires Enabled(s, e) && Disciplined(s, e) && !Splices(s, e)
    ensures Leads(s, Apply(s, e))
  {
    assert IsCareful(s, [e], Apply(s, e));
  }

  lemma {:induction false} CarefulRun(s: State, es: seq<Event>, s': State)
    requires IsCareful(s, es, s')
    ensures IsSpliceFree(s, es, s') && IsDisciplinedRun(s, es, s') && IsRun(s, es, s')
    decreases es
  {
    if es != [] {
      CarefulRun(Apply(s, es[0]), es[1..], s');
    }
  }

  /** What holds in every state of a disciplined run. */
  ghost predicate Sane(s: State) { Theorems.Inv(s) && Tidy(YardOf(s)) && !s.fault }

  lemma LeadsSane(s: State, s': State)
    requires Sane(s) && Leads(s, s')
    ensures Sane(s')
  {
    var es :| IsCareful(s, es, s');
    CarefulRun(s, es, s');
    Theorems.RunInv(s, es, s');
    DisciplinedRun(s, es, s');
  }

  // ---- A work in excess takes a later message early ------------------------------------

  /** The pending list loses its oldest message to the worker, which publishes it. */
  function Moved(s: State, w: nat): State
    requires s.dev.pendingList != []
  {
    var m := Last(s.dev.pendingList);
    s.(dev := Publish(TakePending(s.dev), m), armed := s.armed - {w}, worker := KFlag(w),
       log := s.log.(fired := s.log.fired + {w}, published := s.log.published + [Publication(m, Matured, s.now)]))
  }

  /** A due work fires while nobody holds the message semaphores. */
  ghost predicate CanMove(s: State, w: nat) {
    && !s.fault && s.worker.KIdle? && s.ready == [] && !s.dev.flushing && s.messageSem.Free? && s.pendingSem.Free?
    && w in s.armed && w < |s.log.queued| && Due(s.log, w) <= s.now
    && w < |s.works| && !s.works[w].Queued? && s.dev.pendingList != []
  }

  lemma MoveOne(s: State, w: nat)
    requires CanMove(s, w)
    ensures Leads(s, Moved(s, w))
  {
    var s1 := Apply(s, Expire(w));
    assert s1.ready == [w];
    var s2 := WorkStep(s1);
    assert s2.ready == s.ready;
    var s3 := WorkStep(s2);
    LeadsBy(s, Expire(w));
    LeadsBy(s1, WorkerStep);
    LeadsBy(s2, WorkerStep);
    LeadsOn(s, s1, s2);
    LeadsOn(s, s2, s3);
    TakeOne(s3, w);
    LeadsOn(s, s3, Moved(s, w));
  }

  lemma TakeOne(s: State, w: nat)
    requires !s.fault && s.worker == KTake(w) && s.messageSem.Free? && s.dev.pendingList != []
    ensures Leads(s, Moved(s, w).(armed := s.armed, pendingSem := Free))
  {
    var s1 := WorkStep(s);
    var s2 := WorkStep(s1);
    var s3 := WorkStep(s2);
    LeadsBy(s, WorkerStep);
    LeadsBy(s1, WorkerStep);
    LeadsBy(s2, WorkerStep);
    LeadsOn(s, s1, s2);
    LeadsOn(s, s2, s3);
    assert s3 == Moved(s, w).(armed := s.armed, pendingSem := Free);
  }

  /** The worker then unlinks and frees its work. */
  lemma EndOne(s: State, w: nat)
    requires !s.fault && s.worker == KFlag(w) && !s.dev.flushing && w < |s.works| && s.works[w].Linked?
    requires w in s.dev.delayList
    ensures var s' := s.(dev := s.dev.(delayList := Without(s.dev.delayList, w)), works := s.works[w := Freed], worker := KIdle);
            Leads(s, s')
  {
    var s1 := WorkStep(s);
    var s2 := WorkStep(s1);
    var s3 := WorkStep(s2);
    LeadsBy(s, WorkerStep);
    LeadsBy(s1, WorkerStep);
    LeadsBy(s2, WorkerStep);
    LeadsOn(s, s1, s2);
    LeadsOn(s, s2, s3);
    assert s.works[w := Unlinked][w := Freed] == s.works[w := Freed];
  }

  /** A device at rest whose armed works are all due. */
  ghost predicate Ripe(s: State) {
    Sane(s) && Settled(s) && forall w :: w in s.armed ==> w < |s.log.queued| && Due(s.log, w) <= s.now
  }

  lemma HeldByOne(sem: Sem, ts: seq<Pc>, inside: Pc -> bool)
    requires Guards(sem, ts, inside, false)
    ensures sem.Free? || exists t :: 0 <= t < |ts| && inside(ts[t])
  {
    if sem.Held? {
      assert inside(ts[sem.holder.tid]);
    }
  }

  lemma RestIsFree(s: State)
    requires Locked(s) && Settled(s)
    ensures s.messageSem.Free? && s.pendingSem.Free? && s.wqSem.Free?
  {
    HeldByOne(s.messageSem, s.threads, InMessage);
    HeldByOne(s.pendingSem, s.threads, InPending);
    HeldByOne(s.wqSem, s.threads, InWq);
  }

  /** Every armed work of a device at rest is linked. */
  lemma RestIsLinked(s: State, w: nat)
    requires Tidy(YardOf(s)) && s.wqSem.Free? && w in s.armed
    ensures w < |s.works| && s.works[w].Linked? && w in s.dev.delayList && !s.dev.flushing
  {
    var y := YardOf(s);
    assert Is(y, w, Linked) && w in y.list;
  }

  lemma RipeMoves(s: State, w: nat)
    requires Ripe(s) && w in s.armed && s.dev.pendingList != []
    ensures CanMove(s, w) && s.works[w].Linked? && w in s.dev.delayList
  {
    RestIsFree(s);
    RestIsLinked(s, w);
  }

  lemma StillRipe(s: State, s': State)
    requires Ripe(s) && Leads(s, s') && Settled(s')
    requires s'.armed <= s.armed && s'.log.queued == s.log.queued && s.now <= s'.now
    ensures Ripe(s')
  {
    LeadsSane(s, s');
  }

  /** What the stages below leave alone. */
  ghost predicate Same(s: State, s': State) {
    s'.log.pended == s.log.pended && s'.log.queued == s.log.queued && |s'.threads| == |s.threads|
  }

  function Ended(s: State, w: nat): State
    requires s.dev.pendingList != [] && w < |s.works| && w in s.dev.delayList
  {
    var s1 := Moved(s, w);
    s1.(dev := s1.dev.(delayList := Without(s.dev.delayList, w)), works := s.works[w := Freed], worker := KIdle)
  }

  lemma LeadsToEnded(s: State, w: nat)
    requires CanMove(s, w) && s.works[w].Linked? && w in s.dev.delayList
    ensures Leads(s, Ended(s, w))
  {
    MoveOne(s, w);
    EndOne(Moved(s, w), w);
    LeadsOn(s, Moved(s, w), Ended(s, w));
  }

  lemma MatureOne(s: State, w: nat) returns (s': State)
    requires Ripe(s) && w in s.armed && s.dev.pendingList != []
    ensures Leads(s, s') && Ripe(s') && Same(s, s')
    ensures |s'.armed| == |s.armed| - 1 && |s'.dev.pendingList| == |s.dev.pendingList| - 1
    ensures |Maturities(s'.log.published)| == |Maturities(s.log.published)| + 1
  {
    RipeMoves(s, w);
    LeadsToEnded(s, w);
    s' := Ended(s, w);
    StillRipe(s, s');
    Appended(s.log.published, Publication(Last(s.dev.pendingList), Matured, s.now));
  }

  /** With more works than messages, all messages mature and some work is left. */
  lemma {:induction false} MatureAll(s: State) returns (s': State)
    requires Ripe(s) && |s.armed| > |s.dev.pendingList|
    ensures Leads(s, s') && Ripe(s') && Same(s, s') && s'.dev.pendingList == [] && s'.armed != {}
    ensures |Maturities(s'.log.published)| == |Maturities(s.log.published)| + |s.dev.pendingList|
    decreases |s.dev.pendingList|
  {
    if s.dev.pendingList == [] {
      s' := s;
      assert IsCareful(s, [], s);
    } else {
      var w :| w in s.armed;
      var s1 := MatureOne(s, w);
      s' := MatureAll(s1);
      LeadsOn(s, s1, s');
    }
  }

  // ---- Time passes ---------------------------------------------------------------------

  lemma {:induction false} Ticks(s: State, n: nat)
    requires !s.fault
    ensures Leads(s, s.(now := s.now + n))
    decreases n
  {
    if n == 0 {
      assert IsCareful(s, [], s);
    } else {
      LeadsBy(s, Tick);
      Ticks(Apply(s, Tick), n - 1);
      LeadsOn(s, Apply(s, Tick), s.(now := s.now + n));
    }
  }

  /** A time by which the first `k` works are due. */
  ghost function Horizon(log: Log, k: nat): (h: nat)
    requires k <= |log.queued|
    ensures forall w: nat :: w < k ==> Due(log, w) <= h
  {
    if k == 0 then 0 else Max(Due(log, k - 1), Horizon(log, k - 1))
  }

  lemma Ripen(s: State) returns (s': State)
    requires Sane(s) && Settled(s)
    ensures Leads(s, s') && Ripe(s') && Same(s, s')
    ensures s'.armed == s.armed && s'.dev == s.dev && s'.log == s.log
  {
    var h := Horizon(s.log, |s.log.queued|);
    Ticks(s, h);
    s' := s.(now := s.now + h);
    LeadsSane(s, s');
    Queued(s);
  }

  lemma Queued(s: State)
    requires Theorems.Inv(s)
    ensures forall w :: w in s.armed ==> w < |s.log.queued|
  {
    assert Placed(BoxOf(s));
  }

  // ---- One more message ----------------------------------------------------------------

  lemma Counts(s: State)
    requires Theorems.Inv(s) && Settled(s) && s.dev.pendingList == []
    ensures s.dev.messagesNumber == |s.dev.messageList|
  {
    BagOfNothing(s.threads, WriterHolds);
    var b := BoxOf(s);
    assert Balance.Accounted(b);
    ReadOrderElements(s.dev.messageList);
    assert |multiset(b.queue)| == |b.queue| && |multiset(s.dev.messageList)| == |s.dev.messageList|;
  }

  /** A read makes room where `messages_number` has reached its last value. */
  lemma MakeRoom(s: State) returns (s': State)
    requires Ripe(s) && s.dev.pendingList == [] && |s.threads| > 0
    ensures Leads(s, s') && Ripe(s') && Same(s, s') && s'.dev.pendingList == [] && s'.armed == s.armed
    ensures s'.log.published == s.log.published && s'.dev.messagesNumber < TWO_TO_THE_32 - 1
  {
    if s.dev.messagesNumber < TWO_TO_THE_32 - 1 {
      s' := s;
      assert IsCareful(s, [], s);
    } else {
      Counts(s);
      RestIsFree(s);
      s' := ReadAway(s);
      StillRipe(s, s');
    }
  }

  lemma ReadAway(s: State) returns (s': State)
    requires !s.fault && |s.threads| > 0 && s.threads[0].Idle? && s.messageSem.Free? && s.dev.messageList != []
    ensures Leads(s, s') && s'.dev == TakeOldest(s.dev)
    ensures s' == s.(dev := s'.dev, threads := s'.threads, log := s'.log)
    ensures |s'.threads| == |s.threads| && s'.threads == s.threads[0 := s'.threads[0]] && s'.threads[0].Idle?
    ensures s'.log == s.log.(removed := s'.log.removed, consumed := s'.log.consumed)
  {
    var s1 := Apply(s, Call(0, Read(0)));
    var s2 := Apply(s1, Step(0, true));
    var s3 := Apply(s2, Step(0, true));
    s' := Apply(s3, Step(0, true));
    LeadsBy(s, Call(0, Read(0)));
    LeadsBy(s1, Step(0, true));
    LeadsBy(s2, Step(0, true));
    LeadsBy(s3, Step(0, true));
    LeadsOn(s, s1, s2);
    LeadsOn(s, s2, s3);
    LeadsOn(s, s3, s');
  }

  /** A write pends its message and pauses before it queues a work. */
  lemma PendOne(s: State) returns (s': State, m: Message)
    requires !s.fault && |s.threads| > 0 && s.threads[0].Idle? && s.messageSem.Free? && s.pendingSem.Free?
    requires s.dev.messagesNumber < TWO_TO_THE_32 - 1 && s.dev.pendingList == []
    ensures Leads(s, s') && s'.dev.pendingList == [m] && s'.dev.flushing == s.dev.flushing
    ensures s'.log.pended == s.log.pended + [Stamp(m, s.now)]
    ensures s'.log.queued == s.log.queued && s'.log.published == s.log.published
    ensures s'.now == s.now && s'.armed == s.armed && s'.ready == s.ready && s'.works == s.works
    ensures s'.worker == s.worker && !s'.fault && s'.messageSem.Free? && s'.pendingSem.Free?
  {
    var s1 := Apply(s, SetLimits(1, TWO_TO_THE_32 - 1));
    var s2 := Apply(s1, Call(0, SetDelay(1)));
    var s3 := Apply(s2, Call(0, Write([0], true)));
    LeadsBy(s, SetLimits(1, TWO_TO_THE_32 - 1));
    LeadsBy(s1, Call(0, SetDelay(1)));
    LeadsBy(s2, Call(0, Write([0], true)));
    LeadsOn(s, s1, s2);
    LeadsOn(s, s2, s3);
    m := Message(|s.log.accepted|, [0]);
    assert Prefix([0], 1) == [0];
    s' := WriteAndPend(s3, [0]);
    LeadsOn(s, s3, s');
  }

  lemma WriteAndPend(s: State, data: seq<Byte>) returns (s': State)
    requires !s.fault && |s.threads| > 0 && s.threads[0] == Writing(WDown(data))
    requires s.messageSem.Free? && s.pendingSem.Free? && s.dev.messagesNumber < s.maxStorage && s.dev.delay != 0
    ensures var m := Message(|s.log.accepted|, data);
            && Leads(s, s')
            && s' == s.(dev := Pend(Count(s.dev), m), threads := s.threads[0 := Writing(WAlloc(m))],
                        log := s.log.(accepted := s.log.accepted + [m], pended := s.log.pended + [Stamp(m, s.now)]))
  {
    var s1 := Apply(s, Step(0, true));
    var s2 := Apply(s1, Step(0, true));
    var s3 := Apply(s2, Step(0, true));
    s' := Apply(s3, Step(0, true));
    LeadsBy(s, Step(0, true));
    LeadsBy(s1, Step(0, true));
    LeadsBy(s2, Step(0, true));
    LeadsBy(s3, Step(0, true));
    LeadsOn(s, s1, s2);
    LeadsOn(s, s2, s3);
    LeadsOn(s, s3, s');
  }

  // ---- Exactly when later messages are never early -------------------------------------

  /** At rest the unfired works are those whose timers run. */
  lemma RestIsUnfired(s: State)
    requires Reachable(s) && Settled(s)
    ensures Theorems.UnfiredWorks(s) == s.armed && Sum(s.threads, AboutToQueue) == 0 && NoFlush(s)
  {
    Theorems.NoStrandedMessage(s);
    SumOfNothing(s.threads, AboutToQueue);
    assert forall w: nat :: w in Theorems.UnfiredWorks(s) <==> w in s.armed;
  }

  /** The work in excess takes the new message at once. */
  lemma TakenAtOnce(s: State) returns (s': State, m: Message)
    requires Ripe(s) && s.dev.pendingList == [] && s.armed != {} && |s.threads| > 0
    requires s.dev.messagesNumber < TWO_TO_THE_32 - 1
    ensures Leads(s, s') && s'.log.queued == s.log.queued
    ensures s'.log.pended == s.log.pended + [Stamp(m, s.now)]
    ensures s'.log.published == s.log.published + [Publication(m, Matured, s.now)]
  {
    RestIsFree(s);
    var w :| w in s.armed;
    RestIsLinked(s, w);
    var s1, m1 := PendOne(s);
    MoveOne(s1, w);
    LeadsOn(s, s1, Moved(s1, w));
    s', m := Moved(s1, w), m1;
  }

  /** The stages together: time passes, the pending messages mature, one more message is pended. */
  lemma ExcessRun(s: State) returns (s': State, now: nat, m: Message)
    requires Sane(s) && Settled(s) && |s.threads| > 0 && |s.armed| > |s.dev.pendingList|
    ensures Leads(s, s') && s'.log.queued == s.log.queued && s'.log.pended == s.log.pended + [Stamp(m, now)]
    ensures |Maturities(s'.log.published)| == |Maturities(s.log.published)| + |s.dev.pendingList| + 1
    ensures Last(Maturities(s'.log.published)) == Publication(m, Matured, now)
  {
    var s1 := Ripen(s);
    var s2 := MatureAll(s1);
    LeadsOn(s, s1, s2);
    var s3 := MakeRoom(s2);
    LeadsOn(s, s2, s3);
    now := s3.now;
    s', m := TakenAtOnce(s3);
    LeadsOn(s, s3, s');
    Appended(s3.log.published, Publication(m, Matured, now));
  }

  lemma ExcessIsEarly(s: State, d: nat) returns (s': State)
    requires Sane(s) && Settled(s) && |s.threads| > 0 && |s.armed| > |s.dev.pendingList| && d > 0
    ensures Leads(s, s') && Slow(s, s', d) && !Punctual(s, s', d)
  {
    var now, m;
    s', now, m := ExcessRun(s);
    AtOnceIsEarly(s, s', now, m, d);
  }

  lemma AtOnceIsEarly(s: State, s': State, now: nat, m: Message, d: nat)
    requires s.worker.KIdle? && s'.log.pended == s.log.pended + [Stamp(m, now)] && d > 0
    requires |Maturities(s'.log.published)| == |Maturities(s.log.published)| + |s.dev.pendingList| + 1
    requires Last(Maturities(s'.log.published)) == Publication(m, Matured, now)
    ensures !Punctual(s, s', d)
  {
    var ms := Maturities(s'.log.published);
    assert ms[|ms| - 1].at == now && s'.log.pended[|s.log.pended|].at == now;
  }

  /** However the device goes on without a splice, messages pended from now on are not published
      before their delay. */
  ghost predicate NeverEarlyFrom(s: State, d: nat) {
    forall es, s' :: IsSpliceFree(s, es, s') && Slow(s, s', d) ==> Punctual(s, s', d)
  }

  /** A device at rest keeps the delay guarantee from now on if and only if the works whose timers
      run do not outnumber the pending messages. */
  lemma NeverEarlyExactly(s: State, d: nat)
    requires Theorems.DisciplinedReach(s) && Settled(s) && |s.threads| > 0 && d > 0
    ensures NeverEarlyFrom(s, d) <==> |s.armed| <= |s.dev.pendingList|
  {
    Theorems.DisciplinedInv(s);
    Theorems.DisciplinedIsReachable(s);
    RestIsUnfired(s);
    if |s.armed| <= |s.dev.pendingList| {
      forall es, s' | IsSpliceFree(s, es, s') && Slow(s, s', d) ensures Punctual(s, s', d) {
        NeverEarlySince(s, es, s', d);
      }
    } else {
      var s' := ExcessIsEarly(s, d);
      var es :| IsCareful(s, es, s');
      CarefulRun(s, es, s');
    }
  }

  // ---- How a work comes to be in excess ------------------------------------------------

  lemma {:induction false} OneStepMore(s: State, es: seq<Event>, s1: State, e: Event)
    requires IsDisciplinedRun(s, es, s1) && Enabled(s1, e) && Disciplined(s1, e)
    ensures IsDisciplinedRun(s, es + [e], Apply(s1, e))
    decreases es
  {
    if es == [] {
      assert IsDisciplinedRun(s, [e], Apply(s1, e));
    } else {
      assert (es + [e])[1..] == es[1..] + [e];
      OneStepMore(Apply(s, es[0]), es[1..], s1, e);
    }
  }

  lemma ReachesOn(s: State, e: Event)
    requires Theorems.DisciplinedReach(s) && Enabled(s, e) && Disciplined(s, e)
    ensures Theorems.DisciplinedReach(Apply(s, e))
  {
    var n: nat, wqLive: bool, mm: U32, ms: U32, es: seq<Event> :|
      IsDisciplinedRun(Init(n, wqLive, mm, ms), es, s);
    OneStepMore(Init(n, wqLive, mm, ms), es, s, e);
  }

  const MSG := Message(0, [7])

  /** Thread 0 has pended a message and thread 1 is outside. */
  function Halfway(): State {
    var s := Init(2, true, 8, 8);
    s.(dev := Store([], [MSG], [], 1, 10, false), threads := [Writing(WAlloc(MSG)), Idle(0, [])],
       log := s.log.(accepted := [MSG], pended := [Stamp(MSG, 0)]))
  }

  /** Its write has begun, with a delay of 10. */
  function Beginning(): State {
    var s := Init(2, true, 8, 8);
    s.(dev := Store([], [], [], 0, 10, false), threads := [Writing(WDown([7])), Idle(0, [])])
  }

  lemma ReachBeginning()
    ensures Theorems.DisciplinedReach(Beginning())
  {
    var s0 := Init(2, true, 8, 8);
    var s1 := Apply(s0, Call(0, SetDelay(10)));
    assert s0.threads == [Idle(0, []), Idle(0, [])];
    assert IsDisciplinedRun(s0, [], s0);
    ReachesOn(s0, Call(0, SetDelay(10)));
    ReachesOn(s1, Call(0, Write([7], true)));
    assert Prefix([7], 8) == [7];
    assert Apply(s1, Call(0, Write([7], true))) == Beginning();
  }

  lemma ReachHalfway()
    ensures Theorems.DisciplinedReach(Halfway())
  {
    ReachBeginning();
    var s0 := Beginning();
    var s1 := Apply(s0, Step(0, true));
    var s2 := Apply(s1, Step(0, true));
    ReachesOn(s0, Step(0, true));
    ReachesOn(s1, Step(0, true));
    assert s2.threads == [Writing(WDownPending(MSG)), Idle(0, [])] && s2.log.accepted == [MSG];
    PendHalfway(s2);
  }

  lemma PendHalfway(s: State)
    requires Theorems.DisciplinedReach(s)
    requires s == Halfway().(dev := Store([], [], [], 1, 10, false), threads := [Writing(WDownPending(MSG)), Idle(0, [])],
                             log := Halfway().log.(pended := []))
    ensures Theorems.DisciplinedReach(Halfway())
  {
    var s1 := Apply(s, Step(0, true));
    var s2 := Apply(s1, Step(0, true));
    ReachesOn(s, Step(0, true));
    ReachesOn(s1, Step(0, true));
    assert s2 == Halfway();
  }

  /** Thread 1 has spliced that message and its flush has returned. */
  function Overtaken(): State {
    var s := Halfway();
    s.(dev := Store([MSG], [], [], 1, 10, false), calls := Calls({}, [{}]),
       log := s.log.(published := [Publication(MSG, Spliced, 0)], flushed := true))
  }

  function Splicing(): State {
    Halfway().(threads := [Writing(WAlloc(MSG)), Flushing(FDownMessage, {})], pendingSem := Held(User(1)))
  }

  lemma ReachSplicing()
    ensures Theorems.DisciplinedReach(Splicing())
  {
    ReachHalfway();
    var s0 := Halfway();
    var s1 := Apply(s0, Call(1, Revoke));
    var s2 := Apply(s1, Step(1, true));
    ReachesOn(s0, Call(1, Revoke));
    ReachesOn(s1, Step(1, true));
    assert s2.threads == Splicing().threads;
    assert s2 == Splicing();
  }

  lemma ReachSpliced(s: State)
    requires s == Overtaken().(threads := [Writing(WAlloc(MSG)), Flushing(FDownWq, {})], calls := Calls({}, []))
    ensures Theorems.DisciplinedReach(s)
  {
    ReachSplicing();
    var s0 := Splicing();
    var s1 := Apply(s0, Step(1, true));
    var s2 := Apply(s1, Step(1, true));
    ReachesOn(s0, Step(1, true));
    ReachesOn(s1, Step(1, true));
    assert s2.threads == s.threads && s2.log.published == s.log.published;
    assert s2 == s;
  }

  lemma ReachOvertaken(s: State)
    requires Theorems.DisciplinedReach(s)
    requires s == Overtaken().(threads := [Writing(WAlloc(MSG)), Flushing(FDownWq, {})], calls := Calls({}, []))
    ensures Theorems.DisciplinedReach(Overtaken())
  {
    var s1 := Apply(s, Step(1, true));
    var s2 := Apply(s1, Step(1, true));
    var s3 := Apply(s2, Step(1, true));
    var s4 := Apply(s3, Step(1, true));
    ReachesOn(s, Step(1, true));
    ReachesOn(s1, Step(1, true));
    ReachesOn(s2, Step(1, true));
    ReachesOn(s3, Step(1, true));
    assert s4.threads == Overtaken().threads && s4.calls == Overtaken().calls;
    assert s4 == Overtaken();
  }

  /** A device at rest can have a work without a message: a flush came between the two halves of a
      delayed write, so the work is queued for a message already published. */
  lemma ExcessArises() returns (s: State)
    ensures Theorems.DisciplinedReach(s) && Settled(s) && |s.threads| > 0
    ensures |s.armed| > |s.dev.pendingList|
  {
    var s0 := Overtaken().(threads := [Writing(WAlloc(MSG)), Flushing(FDownWq, {})], calls := Calls({}, []));
    ReachSpliced(s0);
    ReachOvertaken(s0);
    s := QueueLate(Overtaken());
  }

  lemma QueueLate(s: State) returns (s': State)
    requires s == Overtaken() && Theorems.DisciplinedReach(s)
    ensures Theorems.DisciplinedReach(s') && Settled(s') && |s'.threads| == 2
    ensures s'.armed == {0} && s'.dev.pendingList == []
  {
    var s1 := Apply(s, Step(0, true));
    var s2 := Apply(s1, Step(0, true));
    ReachesOn(s, Step(0, true));
    ReachesOn(s1, Step(0, true));
    assert s2 == s.(threads := [Writing(WQueue(MSG)), Idle(0, [])], wqSem := Held(User(0)));
    s' := LinkLate(s2);
  }

  lemma LinkLate(s: State) returns (s': State)
    requires s == Overtaken().(threads := [Writing(WQueue(MSG)), Idle(0, [])], wqSem := Held(User(0)))
    requires Theorems.DisciplinedReach(s)
    ensures Theorems.DisciplinedReach(s') && Settled(s') && |s'.threads| == 2
    ensures s'.armed == {0} && s'.dev.pendingList == []
  {
    var s1 := Apply(s, Step(0, true));
    s' := Apply(s1, Step(0, true));
    ReachesOn(s, Step(0, true));
    ReachesOn(s1, Step(0, true));
  }
}
