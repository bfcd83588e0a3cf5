/** The object of module Device is what the concurrent steps do for a thread that is alone. */
module Solo {
  import opened Lists
  import opened Model
  import opened Device
  import opened Locks
  import H = Handover
  import T = Teardown

  ghost predicate LeadsTo(s: State, goal: State) { exists es :: IsRun(s, es, goal) }

  lemma Stay(s: State)
    ensures LeadsTo(s, s)
  {
    assert IsRun(s, [], s);
  }

  lemma Via(s: State, e: Event, goal: State)
    requires Enabled(s, e) && LeadsTo(Apply(s, e), goal)
    ensures LeadsTo(s, goal)
  {
    var es :| IsRun(Apply(s, e), es, goal);
    assert ([e] + es)[1..] == es;
    assert IsRun(s, [e] + es, goal);
  }

  /** Thread `t` is outside and no semaphore is held. */
  predicate Vacant(s: State, t: nat) {
    && t < |s.threads| && s.threads[t].Idle? && !s.fault
    && s.messageSem.Free? && s.pendingSem.Free? && s.wqSem.Free?
  }

  // ---- Write and read ------------------------------------------------------------------

  /** A lone undelayed write publishes its message and answers its length. */
  lemma WriteNow(s: State, t: nat, buf: seq<Byte>) returns (s': State)
    requires Vacant(s, t) && |buf| > 0 && s.dev.messagesNumber < s.maxStorage && s.dev.delay == 0
    ensures var m := Message(|s.log.accepted|, Prefix(buf, s.maxMessage));
            && LeadsTo(s, s') && s'.dev == Publish(Count(s.dev), m)
            && |s'.threads| == |s.threads| && s'.threads[t] == Idle(|m.data|, [])
  {
    var s1 := Apply(s, Call(t, Write(buf, true)));
    var s2 := Apply(s1, Step(t, true));
    s' := Apply(s2, Step(t, true));
    Stay(s');
    Via(s2, Step(t, true), s');
    Via(s1, Step(t, true), s');
    Via(s, Call(t, Write(buf, true)), s');
  }

  /** The timer of the work queued between `s` and `s'` runs and expires once the delay has passed. */
  ghost predicate Timed(s: State, s': State) {
    var w := |s.works|;
    && s'.armed == s.armed + {w} && |s'.works| == w + 1
    && (w == |s.log.queued| ==> forall k: nat :: Enabled(s'.(now := k), Expire(w)) <==> s.now + s.dev.delay <= k)
  }

  /** A lone delayed write pends its message, queues a work and links it. */
  lemma WriteLater(s: State, t: nat, buf: seq<Byte>) returns (s': State)
    requires Vacant(s, t) && |buf| > 0 && s.dev.messagesNumber < s.maxStorage && s.dev.delay != 0 && s.wqLive
    ensures var m := Message(|s.log.accepted|, Prefix(buf, s.maxMessage));
            && LeadsTo(s, s')
            && s'.dev == Pend(Count(s.dev), m).(delayList := [|s.works|] + s.dev.delayList)
            && |s'.threads| == |s.threads| && s'.threads[t] == Idle(|m.data|, [])
            && Timed(s, s')
  {
    var m := Message(|s.log.accepted|, Prefix(buf, s.maxMessage));
    var s1 := Apply(s, Call(t, Write(buf, true)));
    var s2 := Apply(s1, Step(t, true));
    var s3 := Apply(s2, Step(t, true));
    var s4 := Apply(s3, Step(t, true));
    var s5 := Apply(s4, Step(t, true));
    s' := QueueAlone(s5, t, m);
    Via(s4, Step(t, true), s');
    Via(s3, Step(t, true), s');
    Via(s2, Step(t, true), s');
    Via(s1, Step(t, true), s');
    Via(s, Call(t, Write(buf, true)), s');
  }

  lemma QueueAlone(s: State, t: nat, m: Message) returns (s': State)
    requires t < |s.threads| && s.threads[t] == Writing(WAlloc(m)) && !s.fault && s.wqLive && s.wqSem.Free?
    requires s.dev.delay != 0
    ensures LeadsTo(s, s') && s'.dev == s.dev.(delayList := [|s.works|] + s.dev.delayList)
    ensures |s'.threads| == |s.threads| && s'.threads[t] == Idle(|m.data|, []) && Timed(s, s')
  {
    var s1 := Apply(s, Step(t, true));
    var s2 := Apply(s1, Step(t, true));
    var s3 := Apply(s2, Step(t, true));
    s' := Apply(s3, Step(t, true));
    Stay(s');
    Via(s3, Step(t, true), s');
    Via(s2, Step(t, true), s');
    Via(s1, Step(t, true), s');
    Via(s, Step(t, true), s');
  }

  /** A lone read removes the oldest message and answers its prefix. */
  lemma ReadOne(s: State, t: nat, len: nat) returns (s': State)
    requires Vacant(s, t) && s.dev.messageList != []
    ensures var out := Prefix(Last(s.dev.messageList).data, len);
            && LeadsTo(s, s') && s'.dev == TakeOldest(s.dev)
            && |s'.threads| == |s.threads| && s'.threads[t] == Idle(|out|, out)
            && s'.log.consumed == s.log.consumed + [Last(s.dev.messageList)] && s'.log.dropped == s.log.dropped
  {
    var s1 := Apply(s, Call(t, Read(len)));
    var s2 := Apply(s1, Step(t, true));
    var s3 := Apply(s2, Step(t, true));
    s' := Apply(s3, Step(t, true));
    Stay(s');
    Via(s3, Step(t, true), s');
    Via(s2, Step(t, true), s');
    Via(s1, Step(t, true), s');
    Via(s, Call(t, Read(len)), s');
  }

  /** Refused writes leave the device alone: an invalid length or failed allocation at once, a full
      device or a failed copy after the critical section. */
  lemma WriteRefused(s: State, t: nat, buf: seq<Byte>, allocOk: bool, copyOk: bool) returns (s': State)
    requires Vacant(s, t) && (|buf| == 0 || !allocOk || s.dev.messagesNumber >= s.maxStorage || !copyOk)
    ensures LeadsTo(s, s') && s'.dev == s.dev && |s'.threads| == |s.threads|
    ensures var full := |buf| > 0 && allocOk && s.dev.messagesNumber >= s.maxStorage;
            s'.threads[t] == Idle(if full then 0 else -1, [])
  {
    var s1 := Apply(s, Call(t, Write(buf, allocOk)));
    if |buf| == 0 || !allocOk {
      s' := s1;
      Stay(s');
    } else {
      var s2 := Apply(s1, Step(t, true));
      s' := Apply(s2, Step(t, copyOk));
      Stay(s');
      Via(s2, Step(t, copyOk), s');
      Via(s1, Step(t, true), s');
    }
    Via(s, Call(t, Write(buf, allocOk)), s');
  }

  /** A lone delayed write without workqueue or memory for a work pends its message all the same. */
  lemma WriteUnqueued(s: State, t: nat, buf: seq<Byte>, workOk: bool) returns (s': State)
    requires Vacant(s, t) && |buf| > 0 && s.dev.messagesNumber < s.maxStorage && s.dev.delay != 0
    requires !s.wqLive || !workOk
    ensures var m := Message(|s.log.accepted|, Prefix(buf, s.maxMessage));
            && LeadsTo(s, s') && s'.dev == Pend(Count(s.dev), m)
            && |s'.threads| == |s.threads| && s'.threads[t] == Idle(|m.data|, [])
  {
    var s1 := Apply(s, Call(t, Write(buf, true)));
    var s2 := Apply(s1, Step(t, true));
    var s3 := Apply(s2, Step(t, true));
    var s4 := Apply(s3, Step(t, true));
    var s5 := Apply(s4, Step(t, true));
    s' := Apply(s5, Step(t, workOk));
    Stay(s');
    Via(s5, Step(t, workOk), s');
    Via(s4, Step(t, true), s');
    Via(s3, Step(t, true), s');
    Via(s2, Step(t, true), s');
    Via(s1, Step(t, true), s');
    Via(s, Call(t, Write(buf, true)), s');
  }

  /** A lone read of an empty device answers 0. */
  lemma ReadNone(s: State, t: nat, len: nat) returns (s': State)
    requires Vacant(s, t) && s.dev.messageList == []
    ensures LeadsTo(s, s') && s'.dev == s.dev && |s'.threads| == |s.threads| && s'.threads[t] == Idle(0, [])
  {
    var s1 := Apply(s, Call(t, Read(len)));
    var s2 := Apply(s1, Step(t, true));
    s' := Apply(s2, Step(t, true));
    Stay(s');
    Via(s2, Step(t, true), s');
    Via(s1, Step(t, true), s');
    Via(s, Call(t, Read(len)), s');
  }

  /** A read whose copy fails has removed its message. */
  lemma ReadFails(s: State, t: nat, len: nat) returns (s': State)
    requires Vacant(s, t) && s.dev.messageList != []
    ensures LeadsTo(s, s') && s'.dev == TakeOldest(s.dev) && |s'.threads| == |s.threads| && s'.threads[t] == Idle(-1, [])
    ensures s'.log.dropped == s.log.dropped + [Last(s.dev.messageList)] && s'.log.consumed == s.log.consumed
  {
    var s1 := Apply(s, Call(t, Read(len)));
    var s2 := Apply(s1, Step(t, true));
    var s3 := Apply(s2, Step(t, true));
    s' := Apply(s3, Step(t, false));
    Stay(s');
    Via(s3, Step(t, false), s');
    Via(s2, Step(t, true), s');
    Via(s1, Step(t, true), s');
    Via(s, Call(t, Read(len)), s');
  }

  // ---- A timer expires -----------------------------------------------------------------

  /** The worker past its critical sections unlinks and frees its work. */
  lemma EndWork(s: State, w: nat) returns (s': State)
    requires !s.fault && s.worker == KFlag(w) && !s.dev.flushing && w < |s.works| && s.works[w].Linked?
    requires w in s.dev.delayList
    ensures LeadsTo(s, s') && s'.dev == s.dev.(delayList := Without(s.dev.delayList, w))
    ensures s'.works == s.works[w := Freed] && s'.worker.KIdle?
  {
    var s1 := WorkStep(s);
    var s2 := WorkStep(s1);
    s' := WorkStep(s2);
    Stay(s');
    Via(s2, WorkerStep, s');
    Via(s1, WorkerStep, s');
    Via(s, WorkerStep, s');
    assert s.works[w := Unlinked][w := Freed] == s.works[w := Freed];
  }

  lemma TakeWork(s: State, w: nat) returns (s': State)
    requires !s.fault && s.worker == KDownPending(w) && s.pendingSem.Free? && s.messageSem.Free?
    ensures forall goal :: LeadsTo(s', goal) ==> LeadsTo(s, goal)
    ensures s'.worker == KFlag(w) && s'.works == s.works && !s'.fault
    ensures s'.dev == if s.dev.pendingList == [] then s.dev else Publish(TakePending(s.dev), Last(s.dev.pendingList))
  {
    var s1 := WorkStep(s);
    var s2 := WorkStep(s1);
    if s.dev.pendingList == [] {
      s' := s2;
    } else {
      var s3 := WorkStep(s2);
      s' := WorkStep(s3);
      forall goal | LeadsTo(s', goal) ensures LeadsTo(s2, goal) {
        Via(s3, WorkerStep, goal);
        Via(s2, WorkerStep, goal);
      }
    }
    forall goal | LeadsTo(s', goal) ensures LeadsTo(s, goal) {
      Via(s1, WorkerStep, goal);
      Via(s, WorkerStep, goal);
    }
  }

  /** A due timer alone does to the device what `RunWork` does. */
  lemma WorkFires(s: State, w: nat) returns (s': State)
    requires Enabled(s, Expire(w)) && s.worker.KIdle? && s.ready == [] && s.pendingSem.Free? && s.messageSem.Free?
    requires !s.dev.flushing && w < |s.works| && s.works[w].Linked? && w in s.dev.delayList
    ensures LeadsTo(s, s') && s'.dev == Fired(s.dev, w) && s'.works == s.works[w := Freed] && s'.worker.KIdle?
  {
    var s1 := Apply(s, Expire(w));
    assert s1.ready == [w];
    var s2 := WorkStep(s1);
    var s3 := TakeWork(s2, w);
    s' := EndWork(s3, w);
    Via(s1, WorkerStep, s');
    Via(s, Expire(w), s');
  }

  // ---- Flush ---------------------------------------------------------------------------

  /** Every listed work is linked and waits for its timer. */
  ghost predicate Scheduled(s: State) {
    && Distinct(s.dev.delayList)
    && forall i :: 0 <= i < |s.dev.delayList| ==>
         var w := s.dev.delayList[i]; w in s.armed && w < |s.works| && s.works[w] == Linked
  }

  /** So it is in every tidy device whose worker is at rest. */
  lemma RestIsScheduled(s: State)
    requires H.Tidy(H.YardOf(s)) && s.worker.KIdle? && s.ready == []
    ensures Scheduled(s)
  {
    var y := H.YardOf(s);
    forall i | 0 <= i < |y.list| ensures y.list[i] in y.armed && H.Is(y, y.list[i], Linked) {
      assert y.list[i] in y.list;
      assert H.Is(y, y.list[i], Linked);
    }
  }

  /** The flush of `t` is in its traversal, nobody else is active and nothing is pending. */
  ghost predicate AtLoop(s: State, t: nat, before: set<Message>) {
    && t < |s.threads| && s.threads[t] == Flushing(FLoop(H.Tail(s.dev.delayList)), before) && !s.fault
    && s.messageSem.Free? && s.pendingSem.Free?
    && s.worker.KIdle? && s.ready == [] && s.dev.pendingList == [] && s.dev.flushing
    && Scheduled(s)
  }

  /** Unlinking the work at the tail. */
  lemma UnlinkOne(s: State, t: nat, before: set<Message>) returns (s': State)
    requires AtLoop(s, t, before) && s.dev.delayList != []
    ensures var l, w := s.dev.delayList, Last(s.dev.delayList);
            var rest := l[..|l| - 1];
            && Enabled(s, Step(t, true)) && s' == Apply(s, Step(t, true))
            && s' == s.(dev := s.dev.(delayList := rest), works := s.works[w := Unlinked],
                        threads := s.threads[t := Flushing(FKick(w, H.Tail(rest)), before)])
  {
    var l, w := s.dev.delayList, Last(s.dev.delayList);
    H.LastOf(l);
    s' := Apply(s, Step(t, true));
  }

  /** ... and expediting it. */
  lemma KickOne(s: State, t: nat, before: set<Message>) returns (s': State)
    requires AtLoop(s, t, before) && s.dev.delayList != []
    ensures var l, w := s.dev.delayList, Last(s.dev.delayList);
            var rest := l[..|l| - 1];
            && (forall goal :: LeadsTo(s', goal) ==> LeadsTo(s, goal))
            && s' == s.(dev := s.dev.(delayList := rest), works := s.works[w := Unlinked],
                        armed := s.armed - {w}, ready := [w],
                        threads := s.threads[t := Flushing(FWait(w, H.Tail(rest)), before)])
  {
    var s1 := UnlinkOne(s, t, before);
    s' := Apply(s1, Step(t, true));
    forall goal | LeadsTo(s', goal) ensures LeadsTo(s, goal) {
      Via(s1, Step(t, true), goal);
      Via(s, Step(t, true), goal);
    }
  }

  /** The worker finds nothing pending, leaves the list to the flush and frees the work. */
  lemma RunOne(s: State, w: nat) returns (s': State)
    requires !s.fault && s.worker.KIdle? && s.ready == [w] && s.pendingSem.Free?
    requires s.dev.pendingList == [] && s.dev.flushing && w < |s.works| && s.works[w] == Unlinked
    ensures forall goal :: LeadsTo(s', goal) ==> LeadsTo(s, goal)
    ensures s' == s.(ready := [], works := s.works[w := Freed], log := s.log.(fired := s.log.fired + {w}))
  {
    var s1 := Apply(s, WorkerStep);
    var s2 := Apply(s1, WorkerStep);
    var s3 := Apply(s2, WorkerStep);
    var s4 := Apply(s3, WorkerStep);
    s' := Apply(s4, WorkerStep);
    forall goal | LeadsTo(s', goal) ensures LeadsTo(s, goal) {
      Via(s4, WorkerStep, goal);
      Via(s3, WorkerStep, goal);
      Via(s2, WorkerStep, goal);
      Via(s1, WorkerStep, goal);
      Via(s, WorkerStep, goal);
    }
  }

  lemma LoopOnce(s: State, t: nat, before: set<Message>) returns (s': State)
    requires AtLoop(s, t, before) && s.dev.delayList != []
    ensures AtLoop(s', t, before) && |s'.threads| == |s.threads|
    ensures s'.dev == s.dev.(delayList := s.dev.delayList[..|s.dev.delayList| - 1])
    ensures forall goal :: LeadsTo(s', goal) ==> LeadsTo(s, goal)
  {
    var w := Last(s.dev.delayList);
    var s1 := KickOne(s, t, before);
    var s2 := RunOne(s1, w);
    s' := Apply(s2, Step(t, true));
    forall goal | LeadsTo(s', goal) ensures LeadsTo(s, goal) {
      Via(s2, Step(t, true), goal);
    }
  }

  /** The traversal ends with the list empty and the flag clear, changing nothing else. */
  lemma {:induction false} LoopEnds(s: State, t: nat, before: set<Message>) returns (s': State)
    requires AtLoop(s, t, before)
    ensures LeadsTo(s, s') && s'.dev == s.dev.(delayList := [], flushing := false)
    ensures |s'.threads| == |s.threads| && s'.threads[t] == Idle(0, [])
    decreases |s.dev.delayList|
  {
    if s.dev.delayList == [] {
      var s1 := Apply(s, Step(t, true));
      var s2 := Apply(s1, Step(t, true));
      s' := Apply(s2, Step(t, true));
      Stay(s');
      Via(s2, Step(t, true), s');
      Via(s1, Step(t, true), s');
      Via(s, Step(t, true), s');
    } else {
      var s1 := LoopOnce(s, t, before);
      s' := LoopEnds(s1, t, before);
    }
  }

  /** A lone flush of a device at rest does to the lists exactly what `FflushWorkqueue` does. */
  lemma FlushAlone(s: State, t: nat) returns (s': State)
    requires Vacant(s, t) && s.wqLive && s.worker.KIdle? && s.ready == [] && Scheduled(s)
    ensures LeadsTo(s, s') && s'.dev == Flushed(s.dev)
    ensures |s'.threads| == |s.threads| && s'.threads[t] == Idle(0, [])
  {
    var s1 := Apply(s, Call(t, Revoke));
    var before := s.calls.completed;
    assert s1.threads[t] == Flushing(FDownPending, before);
    var s2 := SpliceAlone(s1, t, before);
    if s.dev.delayList == [] {
      s' := DrainAlone(s2, t, before);
    } else {
      var s3 := Apply(s2, Step(t, true));
      s' := LoopEnds(s3, t, before);
      Via(s2, Step(t, true), s');
    }
    Via(s, Call(t, Revoke), s');
  }

  lemma SpliceAlone(s: State, t: nat, before: set<Message>) returns (s': State)
    requires t < |s.threads| && s.threads[t] == Flushing(FDownPending, before) && !s.fault && s.wqLive
    requires s.messageSem.Free? && s.pendingSem.Free? && s.wqSem.Free?
    ensures forall goal :: LeadsTo(s', goal) ==> LeadsTo(s, goal)
    ensures s'.dev == Splice(s.dev) && !s'.fault && s'.messageSem.Free? && s'.pendingSem.Free?
    ensures s'.threads == s.threads[t := Flushing(FBegin, before)]
    ensures s'.worker == s.worker && s'.ready == s.ready && s'.armed == s.armed && s'.works == s.works
  {
    var s1 := Apply(s, Step(t, true));
    var s2 := Apply(s1, Step(t, true));
    var s3 := Apply(s2, Step(t, true));
    s' := Apply(s3, Step(t, true));
    forall goal | LeadsTo(s', goal) ensures LeadsTo(s, goal) {
      Via(s3, Step(t, true), goal);
      Via(s2, Step(t, true), goal);
      Via(s1, Step(t, true), goal);
      Via(s, Step(t, true), goal);
    }
  }

  lemma DrainAlone(s: State, t: nat, before: set<Message>) returns (s': State)
    requires t < |s.threads| && s.threads[t] == Flushing(FBegin, before) && !s.fault
    requires s.dev.delayList == [] && s.worker.KIdle? && s.ready == []
    ensures LeadsTo(s, s') && s'.dev == s.dev.(flushing := false)
    ensures |s'.threads| == |s.threads| && s'.threads[t] == Idle(0, [])
  {
    var s1 := Apply(s, Step(t, true));
    var s2 := Apply(s1, Step(t, true));
    s' := Apply(s2, Step(t, true));
    Stay(s');
    Via(s2, Step(t, true), s');
    Via(s1, Step(t, true), s');
    Via(s, Step(t, true), s');
  }

  // ---- Every schedule of a lone flush --------------------------------------------------

  /** No new call and no timer. */
  ghost predicate IsQuietRun(s: State, es: seq<Event>, s': State) {
    IsRun(s, es, s') && forall i :: 0 <= i < |es| ==> !es[i].Call? && !es[i].Expire?
  }

  predicate AtRest(s: State) { s.worker.KIdle? && s.ready == [] }

  /** How far the flush of `t` has changed the device `d`. */
  ghost predicate Lone(s: State, t: nat, d: Store) {
    && T.Alone(s, t) && s.wqLive
    && match s.threads[t]
       case Flushing(FDownPending, _) => s.dev == d && AtRest(s)
       case Flushing(FDownMessage, _) => s.dev == d && AtRest(s)
       case Flushing(FSplice, _) => s.dev == d && AtRest(s)
       case Flushing(FDownWq, _) => s.dev == Splice(d) && AtRest(s)
       case Flushing(FBegin, _) => s.dev == Splice(d) && AtRest(s)
       case Flushing(_, _) => s.dev.(delayList := [], flushing := false) == Flushed(d) && Empty(s.worker)
       case Idle(_, _) => s.dev == Flushed(d) && AtRest(s)
       case _ => false
  }

  /** The worker has no message in hand. */
  predicate Empty(k: WorkerPc) { !k.KDownMessage? && !k.KPublish? }

  lemma LoneWorker(s: State, t: nat, d: Store)
    requires Lone(s, t, d) && WorkerCanStep(s)
    ensures Lone(WorkStep(s), t, d)
  {
  }

  lemma LoneSplice(s: State, t: nat, d: Store)
    requires Lone(s, t, d) && s.threads[t].Flushing? && CanStep(s, t) && !s.threads[t].fl.FEnd?
    requires s.threads[t].fl.FDownPending? || s.threads[t].fl.FDownMessage? || s.threads[t].fl.FSplice? || s.threads[t].fl.FDownWq? || s.threads[t].fl.FBegin?
    ensures Lone(FlushStep(s, t), t, d)
  {
  }

  lemma LoneTraverse(s: State, t: nat, d: Store)
    requires Lone(s, t, d) && s.threads[t].Flushing? && CanStep(s, t)
    requires s.threads[t].fl.FLoop? || s.threads[t].fl.FKick? || s.threads[t].fl.FWait? || s.threads[t].fl.FDrain?
    ensures Lone(FlushStep(s, t), t, d)
  {
  }

  lemma LoneEnd(s: State, t: nat, d: Store)
    requires Lone(s, t, d) && Locked(s) && H.Tidy(H.YardOf(s)) && s.threads[t].Flushing? && s.threads[t].fl.FEnd?
    ensures Lone(FlushStep(s, t), t, d)
  {
    H.RoleIs(s, t);
    T.NothingArmed(s);
  }

  lemma LoneFlush(s: State, t: nat, d: Store)
    requires Lone(s, t, d) && Locked(s) && H.Tidy(H.YardOf(s)) && s.threads[t].Flushing? && CanStep(s, t)
    ensures Lone(FlushStep(s, t), t, d)
  {
    match s.threads[t].fl
    case FEnd => LoneEnd(s, t, d);
    case FLoop(_) => LoneTraverse(s, t, d);
    case FKick(_, _) => LoneTraverse(s, t, d);
    case FWait(_, _) => LoneTraverse(s, t, d);
    case FDrain => LoneTraverse(s, t, d);
    case _ => LoneSplice(s, t, d);
  }

  /** Without timers a lone flush meets the hand-over condition. */
  lemma LoneDisciplined(s: State, e: Event, t: nat, d: Store)
    requires Lone(s, t, d) && Locked(s) && H.Tidy(H.YardOf(s)) && Enabled(s, e) && !e.Call? && !e.Expire?
    ensures H.Disciplined(s, e)
  {
    H.RoleIs(s, t);
    if e.WorkerStep? && s.worker.KIdle? {
      var y := H.YardOf(s);
      assert y.ready[0] in y.ready;
      assert !y.role.Linker?;
    }
  }

  lemma {:induction false} LoneRun(s: State, es: seq<Event>, s': State, t: nat, d: Store)
    requires Lone(s, t, d) && Locked(s) && H.Tidy(H.YardOf(s)) && !s.fault && IsQuietRun(s, es, s')
    ensures Lone(s', t, d) && !s'.fault
    decreases es
  {
    if es != [] {
      var e := es[0];
      LoneDisciplined(s, e, t, d);
      StepLocked(s, e);
      H.StepTidy(s, e);
      match e {
        case Step(_, _) => LoneFlush(s, t, d);
        case WorkerStep => LoneWorker(s, t, d);
        case _ =>
      }
      LoneRun(Apply(s, e), es[1..], s', t, d);
    }
  }

  /** Whatever the schedule of flush and worker, a lone flush of a device at rest that has returned
      did to the lists exactly what `FflushWorkqueue` does. */
  lemma EveryFlushAlone(s: State, t: nat, es: seq<Event>, s': State)
    requires Locked(s) && H.Tidy(H.YardOf(s)) && !s.fault && s.wqLive && AtRest(s)
    requires t < |s.threads| && forall u :: 0 <= u < |s.threads| ==> s.threads[u].Idle?
    requires IsQuietRun(Apply(s, Call(t, Revoke)), es, s') && t < |s'.threads| && s'.threads[t].Idle?
    ensures s'.dev == Flushed(s.dev) && AtRest(s') && !s'.fault
  {
    var s1 := Apply(s, Call(t, Revoke));
    StepLocked(s, Call(t, Revoke));
    H.StepTidy(s, Call(t, Revoke));
    LoneRun(s1, es, s', t, s.dev);
  }
}
