/** The main results about the device, for every run from an empty device: any number of
    threads, any interleaving, any failures of the kernel services. */
module Theorems {
  import opened Lists
  import opened Model
  import opened Threads
  import opened Mailbox
  import opened Simulation
  import opened Balance
  import opened Works
  import opened Order
  import opened Flush
  import opened Locks
  import opened Progress
  import A = Afterwards
  import F = Fifo
  import H = Handover
  import T = Teardown
  import W = Witnesses
  import M = Misuse
  import S = Settings

  // ---- One invariant for all of them ---------------------------------------------------

  ghost predicate BoxInv(b: Box) {
    && Conserved(b) && Numbered(b) && Accounted(b)
    && Timely(b) && Covered(b)
    && Fifo(b) && InOrder(b)
    && Ordered(b) && FiredLate(b) && A.Suffixed(b)
    && forall d: nat :: NotEarly(b, d)
  }

  ghost predicate Inv(s: State) {
    && Marked(s) && Dormant(s) && Locked(s)
    && BoxInv(BoxOf(s)) && Tracked(s, ExtentOf(BoxOf(s)))
  }

  lemma DoInv(b: Box, a: Action)
    requires BoxInv(b) && Can(b, a)
    ensures BoxInv(Do(b, a))
  {
    DoConserves(b, a);
    DoNumbers(b, a);
    DoAccounts(b, a);
    DoTimely(b, a);
    DoCovers(b, a);
    DoFifo(b, a);
    DoInOrder(b, a);
    DoOrdered(b, a);
    DoFiredLate(b, a);
    A.DoSuffixed(b, a);
    forall d: nat ensures NotEarly(Do(b, a), d) {
      DoNotEarly(b, a, d);
    }
  }

  lemma StepInv(s: State, e: Event)
    requires Inv(s) && Enabled(s, e)
    ensures Inv(Apply(s, e))
  {
    SimStep(s, e);
    MarkedStep(s, e);
    StepDormant(s, e);
    StepLocked(s, e);
    StepTracked(s, e);
    DoInv(BoxOf(s), ActionOf(s, e));
  }

  lemma NewBoxInv(ms: U32)
    ensures BoxInv(NewBox(ms))
  {
  }

  lemma InitInv(n: nat, wqLive: bool, mm: U32, ms: U32)
    ensures Inv(Init(n, wqLive, mm, ms))
  {
    SimInit(n, wqLive, mm, ms);
    NewBoxInv(ms);
    InitLocked(n, wqLive, mm, ms);
  }

  lemma {:induction false} RunInv(s: State, es: seq<Event>, s': State)
    requires Inv(s) && IsRun(s, es, s')
    ensures Inv(s')
    decreases es
  {
    if es != [] {
      StepInv(s, es[0]);
      RunInv(Apply(s, es[0]), es[1..], s');
    }
  }

  lemma ReachableInv(s: State)
    requires Reachable(s)
    ensures Inv(s)
  {
    var n: nat, wqLive: bool, mm: U32, ms: U32, es: seq<Event> :| IsRun(Init(n, wqLive, mm, ms), es, s);
    InitInv(n, wqLive, mm, ms);
    RunInv(Init(n, wqLive, mm, ms), es, s);
  }

  // ---- Messages ------------------------------------------------------------------------

  /** Exactly once: every accepted message is published, pending, in a writer's or the worker's
      hands, or removed, and a removed one was consumed, dropped by a failed copy, or is being
      copied. No message is accepted, and so none is removed, twice. */
  lemma ExactlyOnce(s: State)
    requires Reachable(s)
    ensures multiset(s.log.accepted)
            == multiset(s.dev.messageList) + multiset(s.dev.pendingList) + multiset(WorkerHolds(s.worker))
               + Bag(s.threads, WriterHolds) + multiset(s.log.removed)
    ensures multiset(s.log.removed)
            == multiset(s.log.consumed) + multiset(s.log.dropped) + Bag(s.threads, ReaderHolds)
    ensures forall x :: multiset(s.log.accepted)[x] <= 1
  {
    ReachableInv(s);
    ReadOrderElements(s.dev.messageList);
    ReadOrderElements(s.dev.pendingList);
    OncePerId(s.log.accepted);
  }

  lemma {:induction false} OncePerId(l: seq<Message>)
    requires forall i :: 0 <= i < |l| ==> l[i].id == i
    ensures forall x :: multiset(l)[x] <= 1
    ensures forall x :: x in multiset(l) ==> x.id < |l|
  {
    if l != [] {
      var rest := l[..|l| - 1];
      OncePerId(rest);
      assert l == rest + [l[|l| - 1]];
      assert multiset(l) == multiset(rest) + multiset{l[|l| - 1]};
    }
  }

  /** `messages_number` counts exactly the stored messages, so it never wraps, and it never
      exceeds the largest `max_storage_size` in force so far. */
  lemma CountIsExact(s: State)
    requires Reachable(s)
    ensures s.dev.messagesNumber
            == |s.dev.messageList| + |s.dev.pendingList| + |WorkerHolds(s.worker)| + |Bag(s.threads, WriterHolds)|
    ensures s.dev.messagesNumber <= s.log.maxEver
    ensures s.dev.messageList != [] ==> s.dev.messagesNumber > 0
  {
    ReachableInv(s);
  }

  /** The count never exceeds a limit that was in force: that of the new device or one set since. */
  lemma CountIsBounded(n: nat, wqLive: bool, mm: U32, ms: U32, es: seq<Event>, s: State)
    requires IsRun(Init(n, wqLive, mm, ms), es, s)
    ensures s.dev.messagesNumber <= ms || exists i :: 0 <= i < |es| && es[i].SetLimits? && s.dev.messagesNumber <= es[i].maxStorage
  {
    CountIsExact(s);
    S.LargestLimit(Init(n, wqLive, mm, ms), es, s);
  }

  /** Messages on the two lists are distinct, so the splice of a reachable device follows the
      documentation exactly when one of the lists is empty. */
  lemma SpliceInReachable(s: State)
    requires Reachable(s)
    ensures Splice(s.dev) == DocumentedJoin(s.dev) <==> s.dev.pendingList == [] || s.dev.messageList == []
  {
    ExactlyOnce(s);
    var l := s.dev.messageList + s.dev.pendingList;
    assert multiset(l) == multiset(s.dev.messageList) + multiset(s.dev.pendingList);
    forall x ensures multiset(l)[x] <= 1 {
      assert multiset(l)[x] <= multiset(s.log.accepted)[x];
    }
    DistinctFromMultiset(l);
    SpliceAsDocumented(s.dev);
  }

  // ---- Delayed messages ----------------------------------------------------------------

  /** Before the first flush, removal log plus remaining read order is the publication log, and
      delayed messages are published in the order in which they were pended. */
  lemma PublishedInOrder(s: State)
    requires Reachable(s) && !s.log.flushed
    ensures Messages(s.log.published) == s.log.removed + ReadOrder(s.dev.messageList)
    ensures var ms := Maturities(s.log.published);
            && |ms| <= |s.log.pended|
            && (forall k :: 0 <= k < |ms| ==> ms[k].msg == s.log.pended[k].msg)
            && |s.log.pended| == |ms| + |WorkerHolds(s.worker)| + |s.dev.pendingList|
  {
    ReachableInv(s);
  }

  /** Before the first flush, if every work was queued with a delay of at least `d`, no delayed
      message is published less than `d` after it was pended. */
  lemma NeverEarly(s: State, d: nat)
    requires Reachable(s) && !s.log.flushed
    requires forall j :: 0 <= j < |s.log.queued| ==> s.log.queued[j].delay >= d
    ensures var ms := Maturities(s.log.published);
            && |ms| <= |s.log.pended|
            && forall k :: 0 <= k < |ms| ==>
                 ms[k].msg == s.log.pended[k].msg && s.log.pended[k].at + d <= ms[k].at
  {
    ReachableInv(s);
    assert AtLeast(BoxOf(s), d) && NotEarly(BoxOf(s), d);
  }

  /** Works queued that have not yet run their critical section on the pending list. */
  ghost function UnfiredWorks(s: State): set<nat> {
    set w | 0 <= w < |s.works| && w !in s.log.fired
  }

  lemma {:induction false} Complement(n: nat, f: set<nat>)
    requires forall w :: w in f ==> w < n
    ensures |set w | 0 <= w < n && w !in f| == n - |f|
  {
    var u := set w | 0 <= w < n && w !in f;
    if n > 0 {
      var g := f - {n - 1};
      Complement(n - 1, g);
      var v := set w | 0 <= w < n - 1 && w !in g;
      if n - 1 in f {
        assert f == g + {n - 1} && u == v;
      } else {
        assert f == g && u == v + {n - 1};
      }
    }
  }

  /** No stranded message: each pending message has an unfired work, a writer about to queue
      one, or a write that queued none for lack of memory or workqueue; exactly so before the
      first flush. Then a firing work always finds a message. */
  lemma NoStrandedMessage(s: State)
    requires Reachable(s)
    ensures |s.dev.pendingList| <= |UnfiredWorks(s)| + Sum(s.threads, AboutToQueue) + s.log.unqueued
    ensures !s.log.flushed ==>
              |s.dev.pendingList| == |UnfiredWorks(s)| + Sum(s.threads, AboutToQueue) + s.log.unqueued
    ensures !s.log.flushed && s.worker.KTake? ==> s.dev.pendingList != []
    ensures forall w: nat :: w in UnfiredWorks(s) <==>
              w in s.armed || w in s.ready || (BeforeTake(s.worker) && s.worker.w == w)
  {
    ReachableInv(s);
    var b := BoxOf(s);
    Complement(b.count, b.log.fired);
    if !s.log.flushed && s.worker.KTake? {
      FiringFindsMessage(b);
    }
  }

  predicate BeforeTake(k: WorkerPc) { k.KDownPending? || k.KTake? }

  // ---- Flush ---------------------------------------------------------------------------

  /** Every message whose write had returned when a flush was called has been on the message
      list when that flush returned. */
  lemma FlushIsComplete(s: State, i: nat, m: Message)
    requires Reachable(s) && i < |s.calls.flushes| && m in s.calls.flushes[i]
    ensures exists p :: p in s.log.published && p.msg == m
  {
    ReachableInv(s);
    assert m in Entered(BoxOf(s));
  }

  /** What a write answers: 0 when the device is full and -1 when the copy fails, both without
      effect; the stored length otherwise, and then its message is among those that a later flush
      accounts for. */
  lemma WriteAnswers(s: State, t: nat, ok: bool)
    requires Enabled(s, Step(t, ok)) && s.threads[t].Writing?
    ensures var s' := Apply(s, Step(t, ok));
            && |s'.threads| == |s.threads| && s.calls.completed <= s'.calls.completed
            && (s'.threads[t].Idle? ==>
                  || (s.threads[t].wr.WAccept? && s'.dev == s.dev && s'.log == s.log
                      && s'.threads[t] == Idle(if s.dev.messagesNumber >= s.maxStorage then 0 else -1, []))
                  || (s.threads[t].wr.WAccept? && s'.log.accepted != [] && Stored(s', t, Last(s'.log.accepted)))
                  || (Finishing(s.threads[t].wr) && Stored(s', t, s.threads[t].wr.m)))
  {
    OneThread(s, Step(t, ok));
    match s.threads[t].wr
    case WAccept(data) => AcceptAnswers(s, t, data, ok);
    case _ =>
  }

  ghost predicate Stored(s: State, t: nat, m: Message)
    requires t < |s.threads|
  {
    m in s.calls.completed && s.threads[t] == Idle(|m.data|, [])
  }

  lemma AcceptAnswers(s: State, t: nat, data: seq<Byte>, ok: bool)
    requires t < |s.threads|
    ensures var s' := AcceptStep(s, t, data, ok);
            && |s'.threads| == |s.threads| && s.calls.completed <= s'.calls.completed
            && (s'.threads[t].Idle? ==>
                  || (s'.dev == s.dev && s'.log == s.log
                      && s'.threads[t] == Idle(if s.dev.messagesNumber >= s.maxStorage then 0 else -1, []))
                  || (s'.log.accepted != [] && Stored(s', t, Last(s'.log.accepted))))
  {
  }

  // ---- Semaphores ----------------------------------------------------------------------

  /** No two threads are inside the section of the same semaphore. */
  lemma MutualExclusion(s: State, t: nat, u: nat)
    requires Reachable(s) && t < |s.threads| && u < |s.threads| && t != u
    ensures !(InMessage(s.threads[t]) && InMessage(s.threads[u]))
    ensures !(InPending(s.threads[t]) && InPending(s.threads[u]))
    ensures !(InWq(s.threads[t]) && InWq(s.threads[u]))
  {
    ReachableInv(s);
  }

  /** Every thread and the worker hold a semaphore exactly while inside its section, so the worker
      excludes every thread and a thread outside the device has released all it took. */
  lemma HeldExactlyInside(s: State, t: nat)
    requires Reachable(s) && t < |s.threads|
    ensures s.messageSem == Held(User(t)) <==> InMessage(s.threads[t])
    ensures s.pendingSem == Held(User(t)) <==> InPending(s.threads[t])
    ensures s.wqSem == Held(User(t)) <==> InWq(s.threads[t])
    ensures s.messageSem == Held(Worker) <==> s.worker.KPublish?
    ensures s.pendingSem == Held(Worker) <==> s.worker.KTake?
    ensures s.wqSem != Held(Worker)
    ensures s.worker.KPublish? ==> !InMessage(s.threads[t])
    ensures s.worker.KTake? ==> !InPending(s.threads[t])
    ensures s.threads[t].Idle? ==>
              s.messageSem != Held(User(t)) && s.pendingSem != Held(User(t)) && s.wqSem != Held(User(t))
  {
    ReachableInv(s);
  }

  /** Which section a waiting thread wants to enter. */
  predicate WantsMessage(pc: Pc) {
    (pc.Writing? && pc.wr.WDown?) || (pc.Reading? && pc.rd.RDown?) || (pc.Flushing? && pc.fl.FDownMessage?)
  }

  predicate WantsPending(pc: Pc) { (pc.Writing? && pc.wr.WDownPending?) || (pc.Flushing? && pc.fl.FDownPending?) }

  predicate WantsWq(pc: Pc) { (pc.Writing? && pc.wr.WDownWq?) || (pc.Flushing? && pc.fl.FDownWq?) }

  ghost predicate SomeoneIn(s: State, t: nat, inside: Pc -> bool) {
    exists u :: 0 <= u < |s.threads| && u != t && inside(s.threads[u])
  }

  /** No call waits without reason: a thread inside the device that cannot step wants a section in
      which another thread or the worker is, or it flushes and the worker is not done. */
  lemma WaitsOnlyForAHolder(s: State, t: nat)
    requires Reachable(s) && t < |s.threads| && !s.threads[t].Idle? && !CanStep(s, t)
    ensures var pc := s.threads[t];
            || (WantsMessage(pc) && (s.worker.KPublish? || SomeoneIn(s, t, InMessage)))
            || (WantsPending(pc) && (s.worker.KTake? || SomeoneIn(s, t, InPending)))
            || (WantsWq(pc) && SomeoneIn(s, t, InWq))
            || (pc.Flushing? && pc.fl.FWait? && (pc.fl.w in s.ready || Runs(s.worker, pc.fl.w)))
            || (pc.Flushing? && pc.fl.FDrain? && (s.ready != [] || !s.worker.KIdle?))
  {
    ReachableInv(s);
    LockedWaits(s, t);
  }

  lemma SomeoneHolds(s: State, t: nat, sem: Sem, inside: Pc -> bool, worker: bool)
    requires t < |s.threads| && Guards(sem, s.threads, inside, worker) && sem.Held? && !inside(s.threads[t])
    ensures worker || SomeoneIn(s, t, inside)
  {
    if sem.holder.User? {
      assert inside(s.threads[sem.holder.tid]);
    }
  }

  lemma LockedWaits(s: State, t: nat)
    requires Locked(s) && t < |s.threads| && !s.threads[t].Idle? && !CanStep(s, t)
    ensures var pc := s.threads[t];
            || (WantsMessage(pc) && (s.worker.KPublish? || SomeoneIn(s, t, InMessage)))
            || (WantsPending(pc) && (s.worker.KTake? || SomeoneIn(s, t, InPending)))
            || (WantsWq(pc) && SomeoneIn(s, t, InWq))
            || (pc.Flushing? && pc.fl.FWait? && (pc.fl.w in s.ready || Runs(s.worker, pc.fl.w)))
            || (pc.Flushing? && pc.fl.FDrain? && (s.ready != [] || !s.worker.KIdle?))
  {
    var pc := s.threads[t];
    if WantsMessage(pc) {
      SomeoneHolds(s, t, s.messageSem, InMessage, s.worker.KPublish?);
    } else if WantsPending(pc) {
      SomeoneHolds(s, t, s.pendingSem, InPending, s.worker.KTake?);
    } else if WantsWq(pc) {
      SomeoneHolds(s, t, s.wqSem, InWq, false);
    }
  }

  /** Nor does the worker. */
  lemma WorkerWaitsOnlyForAHolder(s: State)
    requires Reachable(s) && !WorkerCanStep(s) && (!s.worker.KIdle? || s.ready != [])
    ensures exists u :: 0 <= u < |s.threads| &&
              if s.worker.KDownPending? then InPending(s.threads[u]) else s.worker.KDownMessage? && InMessage(s.threads[u])
  {
    ReachableInv(s);
    if s.worker.KDownPending? {
      assert InPending(s.threads[s.pendingSem.holder.tid]);
    } else {
      assert InMessage(s.threads[s.messageSem.holder.tid]);
    }
  }

  /** A flush passes `flush_delayed_work` only when that work is neither queued nor running, and
      `drain_workqueue` only when no work is. */
  lemma FlushWaitsForWorks(s: State, t: nat, ok: bool)
    requires Enabled(s, Step(t, ok)) && s.threads[t].Flushing?
    ensures s.threads[t].fl.FWait? ==> s.threads[t].fl.w !in s.ready && !Runs(s.worker, s.threads[t].fl.w)
    ensures s.threads[t].fl.FDrain? ==> s.ready == [] && forall w :: !Runs(s.worker, w)
  {
  }

  /** While a call or a work is unfinished, some thread or the worker can step; no timer is
      needed for that. */
  lemma DeadlockFreedom(s: State)
    requires Reachable(s) && !s.fault && !Settled(s)
    ensures exists e :: Active(e) && Enabled(s, e)
  {
    ReachableInv(s);
    var e := NoDeadlock(s);
  }

  /** From any reachable state, work already begun ends within a bound that is known beforehand;
      a run that cannot go on has returned every call, unless a work was misused. */
  lemma CallsReturn(s: State, es: seq<Event>, s': State)
    requires Reachable(s) && IsRun(s, es, s') && forall i :: 0 <= i < |es| ==> Ongoing(es[i])
    ensures |es| <= Total(s)
    ensures (forall e :: Active(e) ==> !Enabled(s', e)) ==> Settled(s') || s'.fault
  {
    ReachableInv(s);
    BoundedWork(s, es, s');
    if forall e :: Active(e) ==> !Enabled(s', e) {
      EveryCallReturns(s, es, s');
    }
  }

  // ---- Delay zero ----------------------------------------------------------------------

  /** In a device whose delay is never raised, the operations in the order in which they take
      effect are a legal history of a bounded FIFO of byte strings, whatever the interleaving. */
  lemma DelayZeroIsFifo(n: nat, wqLive: bool, mm: U32, ms: U32, es: seq<Event>, s': State)
    requires IsRun(Init(n, wqLive, mm, ms), es, s') && forall i :: 0 <= i < |es| ==> F.KeepsZero(es[i])
    ensures F.Legal([], F.History(Init(n, wqLive, mm, ms), es, s'), F.QueueOf(s'))
  {
    SimInit(n, wqLive, mm, ms);
    NewBoxInv(ms);
    F.Linearises(Init(n, wqLive, mm, ms), es, s');
  }

  /** How a returned call, begun under the limits `l`, shows in the history `h` between its beginning
      and its return. */
  ghost predicate Answered(l: Limits, t: nat, req: Request, pc: Pc, h: seq<F.Served>) {
    match req
    case Write(buf, allocOk) =>
      && F.WriteServed(pc, h, t, Prefix(buf, l.maxMessage))
      && (|buf| == 0 || !allocOk ==> h == [])
    case Read(len) => F.ReadServed(pc, h, t, len)
    case _ => h == []
  }

  ghost predicate KeepZero(es: seq<Event>) { forall i :: 0 <= i < |es| ==> F.KeepsZero(es[i]) }

  /** Linearisability of calls, with delay zero. Split a run at the beginning and the return of a
      read or write of thread `t`: the history splits with it, it is a legal history of the FIFO,
      and the part in between holds exactly the one operation of that call, with its arguments and
      the answer it returned. A failed copy to user space has taken its message and returns -1; a
      write that returns -1 left no trace. Writes are bounded by the limits set last, which are
      those of the new device before any others are set. */
  lemma EveryCallLinearises(n: nat, wqLive: bool, mm: U32, ms: U32, es: seq<Event>, s: State,
                            t: nat, req: Request, es1: seq<Event>, s1: State, es2: seq<Event>, s2: State)
    requires (req.Write? || req.Read?) && KeepZero(es) && KeepZero(es1) && KeepZero(es2)
    requires IsRun(Init(n, wqLive, mm, ms), es, s) && Enabled(s, Call(t, req))
    requires IsRun(Apply(s, Call(t, req)), es1, s1) && IsRun(s1, es2, s2)
    requires F.NoCall(es1, t) && t < |s1.threads| && s1.threads[t].Idle?
    ensures var h := F.History(Apply(s, Call(t, req)), es1, s1);
            var l := S.LastLimits(Limits(mm, ms), es);
            && Answered(l, t, req, s1.threads[t], F.Of(h, t))
            && (req.Write? && F.SameLimit(es1) && F.Of(h, t) != [] ==> F.Of(h, t)[0].op.cap == l.maxStorage)
            && F.Legal([], F.History(Init(n, wqLive, mm, ms), es, s) + h + F.History(s1, es2, s2), F.QueueOf(s2))
  {
    DelayStaysZero(n, wqLive, mm, ms, es, s);
    S.InForceFromInit(n, wqLive, mm, ms, es, s);
    CallAnswered(s, t, req, es1, s1);
    CallJoins(s, t, req, es1, s1);
    PartsAreLegal(n, wqLive, mm, ms, es, s, [Call(t, req)] + es1, s1, es2, s2);
  }

  lemma CallAnswered(s: State, t: nat, req: Request, es: seq<Event>, s': State)
    requires (req.Write? || req.Read?) && s.dev.delay == 0 && KeepZero(es)
    requires Enabled(s, Call(t, req)) && IsRun(Apply(s, Call(t, req)), es, s')
    requires F.NoCall(es, t) && t < |s'.threads| && s'.threads[t].Idle?
    ensures var h := F.Of(F.History(Apply(s, Call(t, req)), es, s'), t);
            && Answered(S.LimitsOf(s), t, req, s'.threads[t], h)
            && (req.Write? && F.SameLimit(es) && h != [] ==> h[0].op.cap == s.maxStorage)
  {
    match req
    case Write(buf, allocOk) => F.WriteIsServedOnce(s, t, buf, allocOk, es, s');
    case Read(len) => F.ReadIsServedOnce(s, t, len, es, s');
  }

  lemma PartsAreLegal(n: nat, wqLive: bool, mm: U32, ms: U32, es: seq<Event>, s: State,
                      es1: seq<Event>, s1: State, es2: seq<Event>, s2: State)
    requires IsRun(Init(n, wqLive, mm, ms), es, s) && IsRun(s, es1, s1) && IsRun(s1, es2, s2)
    requires KeepZero(es) && KeepZero(es1) && KeepZero(es2)
    ensures F.Legal([], F.History(Init(n, wqLive, mm, ms), es, s) + F.History(s, es1, s1) + F.History(s1, es2, s2),
                    F.QueueOf(s2))
  {
    var s0 := Init(n, wqLive, mm, ms);
    F.HistoryJoin(s0, es, s, es1, s1);
    F.HistoryJoin(s0, es + es1, s1, es2, s2);
    DelayZeroIsFifo(n, wqLive, mm, ms, es + es1 + es2, s2);
  }

  lemma DelayStaysZero(n: nat, wqLive: bool, mm: U32, ms: U32, es: seq<Event>, s: State)
    requires IsRun(Init(n, wqLive, mm, ms), es, s) && KeepZero(es)
    ensures s.dev.delay == 0
  {
    SimInit(n, wqLive, mm, ms);
    NewBoxInv(ms);
    F.Linearises(Init(n, wqLive, mm, ms), es, s);
  }

  /** The call itself serves nothing. */
  lemma CallJoins(s: State, t: nat, req: Request, es: seq<Event>, s': State)
    requires Enabled(s, Call(t, req)) && IsRun(Apply(s, Call(t, req)), es, s')
    ensures IsRun(s, [Call(t, req)] + es, s')
    ensures F.History(s, [Call(t, req)] + es, s') == F.History(Apply(s, Call(t, req)), es, s')
  {
    F.HistoryCons(s, Call(t, req), es, s');
  }

  // ---- Works and teardown --------------------------------------------------------------

  ghost predicate DisciplinedReach(s: State) {
    exists n: nat, wqLive: bool, mm: U32, ms: U32, es: seq<Event> ::
      H.IsDisciplinedRun(Init(n, wqLive, mm, ms), es, s)
  }

  lemma DisciplinedInv(s: State)
    requires DisciplinedReach(s)
    ensures Inv(s) && H.Tidy(H.YardOf(s)) && !s.fault
  {
    var n: nat, wqLive: bool, mm: U32, ms: U32, es: seq<Event> :|
      H.IsDisciplinedRun(Init(n, wqLive, mm, ms), es, s);
    InitInv(n, wqLive, mm, ms);
    H.InitTidy(n, wqLive, mm, ms);
    H.DisciplinedRun(Init(n, wqLive, mm, ms), es, s);
    RunInv(Init(n, wqLive, mm, ms), es, s);
  }

  lemma DisciplinedIsReachable(s: State)
    requires DisciplinedReach(s)
    ensures Reachable(s)
  {
    var n: nat, wqLive: bool, mm: U32, ms: U32, es: seq<Event> :|
      H.IsDisciplinedRun(Init(n, wqLive, mm, ms), es, s);
    InitInv(n, wqLive, mm, ms);
    H.InitTidy(n, wqLive, mm, ms);
    H.DisciplinedRun(Init(n, wqLive, mm, ms), es, s);
  }

  /** In every disciplined run no work is misused, and `delay_list` holds exactly the linked
      works, which is every work not yet freed once nobody is handling one. */
  lemma WorksAreHandedOver(s: State)
    requires DisciplinedReach(s)
    ensures !s.fault && Distinct(s.dev.delayList)
    ensures forall w: nat :: w in s.dev.delayList <==> w < |s.works| && s.works[w] == Linked
    ensures s.wqSem.Free? && s.worker.KIdle? ==>
              forall w: nat :: w in s.dev.delayList <==> w < |s.works| && s.works[w] != Freed
  {
    DisciplinedInv(s);
    H.ListIsExact(H.YardOf(s));
  }

  /** The condition is exact, step by step: from every state of a disciplined run, a step can be
      continued to the misuse of a work, by disciplined steps alone, if and only if the step
      itself breaks the condition. */
  lemma DisciplineIsExact(s: State, e: Event)
    requires DisciplinedReach(s) && Enabled(s, e)
    ensures H.Disciplined(s, e) <==> !M.CanFault(Apply(s, e))
  {
    DisciplinedInv(s);
    if H.Disciplined(s, e) {
      M.KeptIsSafe(s, e);
    } else {
      M.BrokenFaults(s, e);
    }
  }

  /** A run that keeps the clauses in `cs`. */
  ghost predicate IsKeeping(cs: set<H.Clause>, s: State, es: seq<Event>, s': State)
    decreases es
  {
    if es == [] then s == s'
    else
      && Enabled(s, es[0]) && (forall c :: c in cs ==> H.Keeps(c, s, es[0]))
      && IsKeeping(cs, Apply(s, es[0]), es[1..], s')
  }

  ghost predicate NoMisuse(cs: set<H.Clause>) {
    forall n: nat, wqLive: bool, mm: U32, ms: U32, es: seq<Event>, s': State ::
      IsKeeping(cs, Init(n, wqLive, mm, ms), es, s') ==> !s'.fault
  }

  lemma {:induction false} KeepingAll(cs: set<H.Clause>, s: State, es: seq<Event>, s': State)
    requires cs == {H.LinkedFirst, H.CalmBegin, H.QuietTimers} && IsKeeping(cs, s, es, s')
    ensures H.IsDisciplinedRun(s, es, s')
    decreases es
  {
    if es != [] {
      KeepingAll(cs, Apply(s, es[0]), es[1..], s');
    }
  }

  lemma {:induction false} KeepingBut(cs: set<H.Clause>, c: H.Clause, s: State, es: seq<Event>, s': State)
    requires c !in cs && W.IsRunBut(c, s, es, s')
    ensures IsKeeping(cs, s, es, s')
    decreases es
  {
    if es != [] {
      KeepingBut(cs, c, Apply(s, es[0]), es[1..], s');
    }
  }

  /** Of the clauses of the hand-over condition, exactly all of them together exclude the misuse
      of a work: any smaller set admits a run that frees a linked work or links a freed one. */
  lemma MisuseExactlyWithout(cs: set<H.Clause>)
    ensures NoMisuse(cs) <==> cs == {H.LinkedFirst, H.CalmBegin, H.QuietTimers}
  {
    if c: H.Clause :| c !in cs {
      W.EveryClauseIsNeeded(c);
      var es, s' :| W.IsRunBut(c, Init(1, true, 8, 8), es, s') && s'.fault;
      KeepingBut(cs, c, Init(1, true, 8, 8), es, s');
    } else {
      AllClauses(cs);
      forall n: nat, wqLive: bool, mm: U32, ms: U32, es: seq<Event>, s': State |
        IsKeeping(cs, Init(n, wqLive, mm, ms), es, s')
        ensures !s'.fault
      {
        KeepingAll(cs, Init(n, wqLive, mm, ms), es, s');
        DisciplinedInv(s');
      }
    }
  }

  lemma AllClauses(cs: set<H.Clause>)
    ensures (forall c :: c in cs) ==> cs == {H.LinkedFirst, H.CalmBegin, H.QuietTimers}
  {
    forall c | c in cs ensures c in {H.LinkedFirst, H.CalmBegin, H.QuietTimers} {
      match c
      case LinkedFirst =>
      case CalmBegin =>
      case QuietTimers =>
    }
  }

  /** The condition costs no progress: while a call or work is unfinished, some disciplined step
      is possible, and each such step brings the device closer to rest. */
  lemma DisciplinedCallsReturn(s: State)
    requires DisciplinedReach(s) && !Settled(s)
    ensures exists e :: Active(e) && Enabled(s, e) && H.Disciplined(s, e) && Total(Apply(s, e)) < Total(s)
  {
    DisciplinedInv(s);
    var e := DisciplinedProgress(s);
    StepLighter(s, e);
  }

  /** A flush that reaches its end leaves the list of works empty and clears the flag. */
  lemma FlushEmptiesWorks(s: State, t: nat, ok: bool)
    requires DisciplinedReach(s) && Enabled(s, Step(t, ok)) && s.threads[t].Flushing? && s.threads[t].fl.FEnd?
    ensures var s' := Apply(s, Step(t, ok));
            s'.dev.delayList == [] && !s'.dev.flushing && s'.wqSem.Free?
  {
    DisciplinedInv(s);
    H.RoleIs(s, t);
    H.Closes(H.YardOf(s));
  }

  /** A disciplined step takes no work back and skips no stage of its life, so each work is
      linked, unlinked and freed at most once. */
  lemma WorksAdvance(s: State, e: Event)
    requires DisciplinedReach(s) && Enabled(s, e) && H.Disciplined(s, e)
    ensures H.Advances(s.works, Apply(s, e).works)
  {
    DisciplinedInv(s);
    H.StepAdvances(s, e);
  }

  /** When the flush of `group_free` returns and nobody else uses the device, both lists the
      cleanup inspects are empty, no work is left anywhere, and every message ever accepted was
      consumed by a read, dropped by a failed copy, or is on the list the last loop frees. */
  lemma TeardownLeavesNothing(s: State, t: nat, es: seq<Event>, s': State)
    requires DisciplinedReach(s) && s.wqLive
    requires t < |s.threads| && forall u :: 0 <= u < |s.threads| ==> s.threads[u].Idle?
    requires H.IsDisciplinedRun(s, [Call(t, Revoke)] + es, s') && forall i :: 0 <= i < |es| ==> !es[i].Call?
    requires |s'.threads| == |s.threads| && s'.threads[t].Idle?
    ensures s'.dev.pendingList == [] && s'.dev.delayList == []
    ensures s'.armed == {} && s'.ready == [] && s'.worker.KIdle? && !s'.fault
    ensures multiset(s'.log.accepted)
            == multiset(s'.dev.messageList) + multiset(s'.log.consumed) + multiset(s'.log.dropped)
  {
    DisciplinedInv(s);
    TeardownCloses(s, t, es, s');
    H.DisciplinedRun(s, [Call(t, Revoke)] + es, s');
    RunInv(s, [Call(t, Revoke)] + es, s');
    NothingHeld(s', t);
  }

  lemma TeardownCloses(s: State, t: nat, es: seq<Event>, s': State)
    requires Locked(s) && H.Tidy(H.YardOf(s)) && !s.fault && s.wqLive
    requires t < |s.threads| && forall u :: 0 <= u < |s.threads| ==> s.threads[u].Idle?
    requires H.IsDisciplinedRun(s, [Call(t, Revoke)] + es, s') && forall i :: 0 <= i < |es| ==> !es[i].Call?
    ensures T.Closing(s', t) && !s'.fault
  {
    var all := [Call(t, Revoke)] + es;
    assert all[0] == Call(t, Revoke) && all[1..] == es;
    T.BeginCloses(s, t);
    H.StepTidy(s, all[0]);
    StepLocked(s, all[0]);
    T.RunCloses(Apply(s, all[0]), es, s', t);
  }

  lemma NothingHeld(s: State, t: nat)
    requires Conserved(BoxOf(s)) && T.Closing(s, t) && s.threads[t].Idle?
    ensures multiset(s.log.accepted)
            == multiset(s.dev.messageList) + multiset(s.log.consumed) + multiset(s.log.dropped)
  {
    BagOfNothing(s.threads, WriterHolds);
    BagOfNothing(s.threads, ReaderHolds);
    ReadOrderElements(s.dev.messageList);
  }
}
