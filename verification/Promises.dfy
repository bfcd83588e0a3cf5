/** Writes and flushes from the call to the return, with or without a delay: what a user who got an
    answer may rely on. */
module Promises {
  import opened Lists
  import opened Model
  import opened Threads
  import opened Mailbox
  import opened Simulation
  import opened Flush
  import Theorems
  import F = Fifo

  lemma StillReachable(s: State, es: seq<Event>, s': State)
    requires Reachable(s) && IsRun(s, es, s')
    ensures Reachable(s')
  {
    var n: nat, wqLive: bool, mm: U32, ms: U32, es0: seq<Event> :| IsRun(Init(n, wqLive, mm, ms), es0, s);
    F.HistoryJoin(Init(n, wqLive, mm, ms), es0, s, es, s');
  }

  lemma StillReachableBy(s: State, e: Event, es: seq<Event>, s': State)
    requires Reachable(s) && Enabled(s, e) && IsRun(Apply(s, e), es, s')
    ensures Reachable(s')
  {
    assert ([e] + es)[1..] == es;
    StillReachable(s, [e] + es, s');
  }

  // ---- Records only grow ---------------------------------------------------------------

  ghost predicate RecordsGrow(s: State, s': State) {
    s.calls.completed <= s'.calls.completed && s.calls.flushes <= s'.calls.flushes
  }

  lemma AcceptRecords(s: State, t: nat, data: seq<Byte>, ok: bool)
    requires t < |s.threads|
    ensures RecordsGrow(s, AcceptStep(s, t, data, ok))
  {
  }

  lemma StepRecords(s: State, e: Event)
    requires Enabled(s, e)
    ensures RecordsGrow(s, Apply(s, e))
  {
    if e.Step? {
      match s.threads[e.t]
      case Writing(WAccept(data)) => AcceptRecords(s, e.t, data, e.ok);
      case _ =>
    }
  }

  lemma {:induction false} RunRecords(s: State, es: seq<Event>, s': State)
    requires IsRun(s, es, s')
    ensures RecordsGrow(s, s')
    decreases es
  {
    if es != [] {
      StepRecords(s, es[0]);
      RunRecords(Apply(s, es[0]), es[1..], s');
    }
  }

  // ---- A write -------------------------------------------------------------------------

  /** A message with payload `data`, accepted when `n` messages had been accepted or later. */
  predicate Fits(m: Message, data: seq<Byte>, n: nat) { m.data == data && m.id >= n }

  ghost predicate Completed(completed: set<Message>, data: seq<Byte>, n: nat) {
    exists m :: m in completed && Fits(m, data, n)
  }

  /** Where a write of `data` can be, and what its return says. */
  ghost predicate WriteAt(pc: Pc, completed: set<Message>, data: seq<Byte>, n: nat) {
    match pc
    case Writing(WDown(x)) => x == data
    case Writing(WAccept(x)) => x == data
    case Writing(wr) => Fits(wr.m, data, n)
    case Idle(ret, out) => out == [] && (ret == -1 || ret == 0 || (ret == |data| && Completed(completed, data, n)))
    case _ => false
  }

  lemma AcceptMoves(s: State, t: nat, data: seq<Byte>, ok: bool, n: nat)
    requires t < |s.threads| && n <= |s.log.accepted|
    ensures var s' := AcceptStep(s, t, data, ok);
            t < |s'.threads| && WriteAt(s'.threads[t], s'.calls.completed, data, n)
  {
    var m := Message(|s.log.accepted|, data);
    assert Fits(m, data, n);
    assert AdmitNow(s, t, m).calls.completed == s.calls.completed + {m};
  }

  lemma WriteMoves(s: State, t: nat, ok: bool, data: seq<Byte>, n: nat)
    requires Enabled(s, Step(t, ok)) && s.threads[t].Writing? && n <= |s.log.accepted|
    requires WriteAt(s.threads[t], s.calls.completed, data, n)
    ensures var s' := Apply(s, Step(t, ok));
            t < |s'.threads| && (s'.fault || WriteAt(s'.threads[t], s'.calls.completed, data, n))
  {
    OneThread(s, Step(t, ok));
    match s.threads[t].wr
    case WAccept(x) => AcceptMoves(s, t, x, ok, n);
    case WAlloc(m) => Completes(s, t, m, data, n);
    case WLink(m, w) => Completes(s, t, m, data, n);
    case _ =>
  }

  lemma Completes(s: State, t: nat, m: Message, data: seq<Byte>, n: nat)
    requires t < |s.threads| && Fits(m, data, n)
    ensures forall completed :: m in completed ==> WriteAt(Idle(|m.data|, []), completed, data, n)
  {
  }

  lemma AcceptedGrows(s: State, e: Event)
    requires Marked(s) && Enabled(s, e)
    ensures |s.log.accepted| <= |Apply(s, e).log.accepted|
  {
    SimStep(s, e);
    AcceptedStays(BoxOf(s), ActionOf(s, e));
  }

  lemma AcceptedStays(b: Box, a: Action)
    requires Can(b, a)
    ensures |b.log.accepted| <= |Do(b, a).log.accepted|
  {
  }

  lemma {:induction false} WriteRun(s: State, es: seq<Event>, s': State, t: nat, data: seq<Byte>, n: nat)
    requires Marked(s) && IsRun(s, es, s') && t < |s.threads| && F.NoCall(es, t) && n <= |s.log.accepted|
    requires s.fault || WriteAt(s.threads[t], s.calls.completed, data, n)
    ensures t < |s'.threads| && (s'.fault || WriteAt(s'.threads[t], s'.calls.completed, data, n))
    decreases es
  {
    if es != [] {
      var e, s1 := es[0], Apply(s, es[0]);
      OneThread(s, e);
      StepRecords(s, e);
      AcceptedGrows(s, e);
      MarkedStep(s, e);
      if e.Step? && e.t == t {
        WriteMoves(s, t, e.ok, data, n);
      }
      WriteRun(s1, es[1..], s', t, data, n);
    }
  }

  /** The message has been published, is pending or is in the worker's hand. */
  ghost predicate Kept(s: State, m: Message) {
    (exists p :: p in s.log.published && p.msg == m) || m in WorkerHolds(s.worker) || m in s.dev.pendingList
  }

  lemma CompletedIsKept(s: State, m: Message)
    requires Reachable(s) && m in s.calls.completed
    ensures Kept(s, m)
  {
    Theorems.ReachableInv(s);
    var b := BoxOf(s);
    assert m in Known(b);
    ReadOrderHas(s.dev.pendingList, m);
  }

  lemma ReadOrderHas(l: seq<Message>, m: Message)
    ensures m in ReadOrder(l) ==> m in l
  {
    ReadOrderElements(l);
    assert m in ReadOrder(l) ==> m in multiset(ReadOrder(l));
  }

  /** Every write, delayed or not, from its call to its return: it answers -1, 0 or the length of its
      buffer cut to `max_message_size`; a positive answer means that a new message with exactly
      those bytes has been published or is on its way. */
  lemma WriteReturns(s: State, t: nat, buf: seq<Byte>, allocOk: bool, es: seq<Event>, s': State)
    requires Reachable(s) && Enabled(s, Call(t, Write(buf, allocOk)))
    requires IsRun(Apply(s, Call(t, Write(buf, allocOk))), es, s') && F.NoCall(es, t) && !s'.fault
    requires t < |s'.threads| && s'.threads[t].Idle?
    ensures var data, pc := Prefix(buf, s.maxMessage), s'.threads[t];
            && pc.out == [] && (pc.ret == -1 || pc.ret == 0 || pc.ret == |data|)
            && (|buf| == 0 || !allocOk ==> pc.ret == -1)
            && (pc.ret > 0 ==> exists m :: m in s'.calls.completed && Fits(m, data, |s.log.accepted|) && Kept(s', m))
  {
    StillReachableBy(s, Call(t, Write(buf, allocOk)), es, s');
    WriteAnswered(s, t, buf, allocOk, es, s');
    if s'.threads[t].ret > 0 {
      var m :| m in s'.calls.completed && Fits(m, Prefix(buf, s.maxMessage), |s.log.accepted|);
      CompletedIsKept(s', m);
    }
  }

  lemma ReachableMarked(s: State)
    requires Reachable(s)
    ensures Marked(s)
  {
    Theorems.ReachableInv(s);
  }

  lemma WriteAnswered(s: State, t: nat, buf: seq<Byte>, allocOk: bool, es: seq<Event>, s': State)
    requires Reachable(s) && Enabled(s, Call(t, Write(buf, allocOk)))
    requires IsRun(Apply(s, Call(t, Write(buf, allocOk))), es, s') && F.NoCall(es, t) && !s'.fault
    requires t < |s'.threads| && s'.threads[t].Idle?
    ensures WriteAt(s'.threads[t], s'.calls.completed, Prefix(buf, s.maxMessage), |s.log.accepted|)
    ensures |buf| == 0 || !allocOk ==> s'.threads[t].ret == -1
  {
    var e := Call(t, Write(buf, allocOk));
    var s1 := Apply(s, e);
    ReachableMarked(s);
    MarkedStep(s, e);
    if |buf| == 0 || !allocOk {
      F.IdleServed(s1, es, s', t);
    } else {
      WriteRun(s1, es, s', t, Prefix(buf, s.maxMessage), |s.log.accepted|);
    }
  }

  // ---- A flush -------------------------------------------------------------------------

  /** A flush called when `before` was completed is under way or on record. */
  ghost predicate FlushAt(pc: Pc, flushes: seq<set<Message>>, before: set<Message>) {
    (pc.Flushing? && pc.before == before) || before in flushes
  }

  lemma FlushMoves(s: State, t: nat, before: set<Message>)
    requires t < |s.threads| && s.threads[t].Flushing? && CanStep(s, t) && s.threads[t].before == before
    ensures var s' := FlushStep(s, t); t < |s'.threads| && FlushAt(s'.threads[t], s'.calls.flushes, before)
  {
  }

  lemma {:induction false} FlushRun(s: State, es: seq<Event>, s': State, t: nat, before: set<Message>)
    requires IsRun(s, es, s') && t < |s.threads| && F.NoCall(es, t)
    requires FlushAt(s.threads[t], s.calls.flushes, before)
    ensures t < |s'.threads| && FlushAt(s'.threads[t], s'.calls.flushes, before)
    decreases es
  {
    if es != [] {
      var e, s1 := es[0], Apply(s, es[0]);
      OneThread(s, e);
      StepRecords(s, e);
      if before in s.calls.flushes {
        assert before in s1.calls.flushes;
      } else if e.Step? && e.t == t {
        FlushMoves(s, t, before);
      }
      FlushRun(s1, es[1..], s', t, before);
    }
  }

  /** Every flush, from its call to its return: all messages completed at the call have been
      published at the return. */
  lemma FlushReturns(s: State, t: nat, es: seq<Event>, s': State)
    requires Reachable(s) && Enabled(s, Call(t, Revoke)) && IsRun(Apply(s, Call(t, Revoke)), es, s')
    requires F.NoCall(es, t) && t < |s'.threads| && s'.threads[t].Idle?
    ensures forall m :: m in s.calls.completed ==> exists p :: p in s'.log.published && p.msg == m
  {
    StillReachableBy(s, Call(t, Revoke), es, s');
    FlushRun(Apply(s, Call(t, Revoke)), es, s', t, s.calls.completed);
    var i :| 0 <= i < |s'.calls.flushes| && s'.calls.flushes[i] == s.calls.completed;
    forall m | m in s.calls.completed ensures exists p :: p in s'.log.published && p.msg == m {
      Theorems.FlushIsComplete(s', i, m);
    }
  }

  /** A write that answered a positive length, then a flush called after that answer: when the flush
      returns, a message with the written bytes has been published. */
  lemma WriteThenFlush(s: State, t: nat, buf: seq<Byte>, allocOk: bool, es: seq<Event>, s1: State,
                       es1: seq<Event>, s2: State, u: nat, es2: seq<Event>, s3: State)
    requires Reachable(s) && Enabled(s, Call(t, Write(buf, allocOk)))
    requires IsRun(Apply(s, Call(t, Write(buf, allocOk))), es, s1) && F.NoCall(es, t) && !s1.fault
    requires t < |s1.threads| && s1.threads[t].Idle? && s1.threads[t].ret > 0
    requires IsRun(s1, es1, s2) && Enabled(s2, Call(u, Revoke))
    requires IsRun(Apply(s2, Call(u, Revoke)), es2, s3) && F.NoCall(es2, u)
    requires u < |s3.threads| && s3.threads[u].Idle?
    ensures exists p :: p in s3.log.published && Fits(p.msg, Prefix(buf, s.maxMessage), |s.log.accepted|)
  {
    StillReachableBy(s, Call(t, Write(buf, allocOk)), es, s1);
    StillReachable(s1, es1, s2);
    WriteReturns(s, t, buf, allocOk, es, s1);
    RunRecords(s1, es1, s2);
    FlushReturns(s2, u, es2, s3);
    var m :| m in s1.calls.completed && Fits(m, Prefix(buf, s.maxMessage), |s.log.accepted|);
    assert m in s2.calls.completed;
  }
}
