/** The logs of a run say what happened to the lists: each entry is made by the step that changes
    the list, with the message concerned and the time of that step. */
module Record {
  import opened Lists
  import opened Model

  /** What a step may do to the lists, and what it then puts on record. */
  ghost predicate Recorded(s: State, s': State) {
    PendingRecorded(s, s') && PublishedRecorded(s, s') && RemovedRecorded(s, s')
  }

  /** A message enters the pending list at its head and is stamped; it leaves at the tail, or the
      list is emptied. */
  ghost predicate PendingRecorded(s: State, s': State) {
    var l, l' := s.dev.pendingList, s'.dev.pendingList;
    || (s'.log.pended == s.log.pended && (l' == l || l' == [] || (l != [] && l' == l[..|l| - 1])))
    || exists m: Message :: l' == [m] + l && s'.log.pended == s.log.pended + [Stamp(m, s.now)]
  }

  /** A message enters the message list at its head, or the pending list is joined to its tail. */
  ghost predicate PublishedRecorded(s: State, s': State) {
    var l, l', p := s.dev.messageList, s'.dev.messageList, s.dev.pendingList;
    || (s'.log.published == s.log.published && (l' == l || (l != [] && l' == l[..|l| - 1])))
    || (s'.dev.pendingList == [] && l' == l + p
        && s'.log.published == s.log.published + Publications(ReadOrder(p), Spliced, s.now))
    || exists m: Message, route: Route :: !route.Spliced? && l' == [m] + l
                          && s'.log.published == s.log.published + [Publication(m, route, s.now)]
  }

  /** A message leaves the message list at its tail. */
  ghost predicate RemovedRecorded(s: State, s': State) {
    var l, l' := s.dev.messageList, s'.dev.messageList;
    || (s'.log.removed == s.log.removed && |l'| >= |l|)
    || (l != [] && l' == l[..|l| - 1] && s'.log.removed == s.log.removed + [Last(l)])
  }

  predicate SameLists(s: State, s': State) {
    && s'.dev.messageList == s.dev.messageList && s'.dev.pendingList == s.dev.pendingList
    && s'.log.pended == s.log.pended && s'.log.published == s.log.published && s'.log.removed == s.log.removed
  }

  lemma AcceptRecorded(s: State, t: nat, data: seq<Byte>, ok: bool)
    requires t < |s.threads|
    ensures Recorded(s, AcceptStep(s, t, data, ok))
  {
    var m := Message(|s.log.accepted|, data);
    var now, later := AdmitNow(s, t, m), AdmitLater(s, t, m);
    assert SameLists(s, later);
    assert now.dev.messageList == [m] + s.dev.messageList && now.dev.pendingList == s.dev.pendingList;
    assert now.log.published == s.log.published + [Publication(m, Direct, s.now)];
    assert AcceptStep(s, t, data, ok) == now || AcceptStep(s, t, data, ok) == later || SameLists(s, AcceptStep(s, t, data, ok));
  }

  lemma PendRecorded(s: State, t: nat, ok: bool, m: Message)
    requires t < |s.threads| && s.threads[t] == Writing(WPend(m))
    ensures Recorded(s, WriteStep(s, t, ok))
  {
    var s' := WriteStep(s, t, ok);
    assert s'.dev.pendingList == [m] + s.dev.pendingList && s'.log.pended == s.log.pended + [Stamp(m, s.now)];
    assert s'.dev.messageList == s.dev.messageList;
  }

  lemma WriteRecorded(s: State, t: nat, ok: bool)
    requires t < |s.threads| && s.threads[t].Writing? && CanStep(s, t)
    ensures Recorded(s, WriteStep(s, t, ok))
  {
    match s.threads[t].wr
    case WAccept(data) => AcceptRecorded(s, t, data, ok);
    case WPend(m) => PendRecorded(s, t, ok, m);
    case _ => assert SameLists(s, WriteStep(s, t, ok));
  }

  lemma ReadRecorded(s: State, t: nat, ok: bool)
    requires t < |s.threads| && s.threads[t].Reading? && CanStep(s, t)
    ensures Recorded(s, ReadStep(s, t, ok))
  {
  }

  lemma FlushRecorded(s: State, t: nat)
    requires t < |s.threads| && s.threads[t].Flushing? && CanStep(s, t)
    ensures Recorded(s, FlushStep(s, t))
  {
    match s.threads[t].fl
    case FSplice => assert FlushStep(s, t).dev.messageList == s.dev.messageList + s.dev.pendingList;
    case _ => assert SameLists(s, FlushStep(s, t));
  }

  lemma WorkerRecorded(s: State)
    requires WorkerCanStep(s)
    ensures Recorded(s, WorkStep(s))
  {
    match s.worker
    case KTake(_) =>
    case KPublish(_, m) =>
      var s' := WorkStep(s);
      assert s'.dev.messageList == [m] + s.dev.messageList;
      assert s'.log.published == s.log.published + [Publication(m, Matured, s.now)];
    case _ => assert SameLists(s, WorkStep(s));
  }

  /** Every step of every thread, timer and worker. */
  lemma EveryStepIsRecorded(s: State, e: Event)
    requires Enabled(s, e)
    ensures Recorded(s, Apply(s, e))
  {
    match e
    case Step(t, ok) =>
      match s.threads[t] {
        case Writing(_) => WriteRecorded(s, t, ok);
        case Reading(_) => ReadRecorded(s, t, ok);
        case Flushing(_, _) => FlushRecorded(s, t);
      }
    case WorkerStep => WorkerRecorded(s);
    case _ => assert SameLists(s, Apply(s, e));
  }

  /** How a read ends: with 0 and no effect on an empty list; with the prefix it asked for, and its
      message counted as consumed; or with -1 after a failed copy, and its message counted as
      dropped. */
  lemma ReadAnswers(s: State, t: nat, ok: bool)
    requires Enabled(s, Step(t, ok)) && s.threads[t].Reading?
    requires var ts := Apply(s, Step(t, ok)).threads; t < |ts| && ts[t].Idle?
    ensures var s', rd := Apply(s, Step(t, ok)), s.threads[t].rd;
            && s'.dev == s.dev
            && match rd
               case RTake(_) => s.dev.messageList == [] && s'.threads[t] == Idle(0, []) && s'.log == s.log
               case RCopy(m, len) =>
                 if ok then s'.threads[t] == Idle(Min(len, |m.data|), m.data[..Min(len, |m.data|)])
                            && s'.log == s.log.(consumed := s.log.consumed + [m])
                 else s'.threads[t] == Idle(-1, []) && s'.log == s.log.(dropped := s.log.dropped + [m])
               case RDown(_) => false
  {
  }
}
