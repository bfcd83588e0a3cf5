/** With delay zero the device is a bounded FIFO of byte strings: every interleaving of calls
    has a linearisation point per call, and the answers are those of the sequential FIFO. */
module Fifo {
  import opened Lists
  import opened Model
  import opened Threads
  import opened Mailbox
  import opened Simulation
  import opened Balance

  // ---- The sequential object -----------------------------------------------------------

  type Queue = seq<seq<Byte>>

  datatype Op = Put(data: seq<Byte>, cap: nat) | Get(len: nat)

  datatype Answer = Answer(ret: int, out: seq<Byte>)

  function After(q: Queue, op: Op): Queue {
    match op
    case Put(data, cap) => if |q| >= cap then q else q + [data]
    case Get(_) => if q == [] then q else q[1..]
  }

  function Reply(q: Queue, op: Op): Answer {
    match op
    case Put(data, cap) => if |q| >= cap then Answer(0, []) else Answer(|data|, [])
    case Get(len) => if q == [] then Answer(0, []) else Answer(|Prefix(q[0], len)|, Prefix(q[0], len))
  }

  /** An operation of thread `t` together with the answer it gets. */
  datatype Served = Served(t: nat, op: Op, answer: Answer)

  /** The history `h` is a legal sequential run from `q` to `q'`. */
  ghost predicate Legal(q: Queue, h: seq<Served>, q': Queue)
    decreases h
  {
    if h == [] then q == q'
    else h[0].answer == Reply(q, h[0].op) && Legal(After(q, h[0].op), h[1..], q')
  }

  // ---- The device as such an object ----------------------------------------------------

  function Payloads(ms: seq<Message>): Queue { seq(|ms|, i requires 0 <= i < |ms| => ms[i].data) }

  /** No delayed message is anywhere in the device. */
  ghost predicate Undelayed(b: Box) { b.limbo == [] && b.hand == [] && b.writers == multiset{} }

  ghost function QueueOf(s: State): Queue { Payloads(ReadOrder(s.dev.messageList)) }

  /** The operation that takes effect in event `e`, if any. */
  function OpOf(s: State, e: Event): seq<Op>
    requires Enabled(s, e)
  {
    if !e.Step? then []
    else
      match s.threads[e.t]
      case Writing(WAccept(data)) =>
        if s.dev.messagesNumber < s.maxStorage && !e.ok then [] else [Put(data, s.maxStorage)]
      case Reading(RTake(len)) => [Get(len)]
      case _ => []
  }

  /** What the calling thread will answer once its operation has taken effect; the only step
      left to a reader is the copy to user space. */
  function AnswerOf(pc: Pc): Answer {
    match pc
    case Idle(ret, out) => Answer(ret, out)
    case Reading(RCopy(m, len)) => Answer(|Prefix(m.data, len)|, Prefix(m.data, len))
    case _ => Answer(0, [])
  }

  ghost function ServedBy(s: State, e: Event): seq<Served>
    requires Enabled(s, e)
  {
    OneThread(s, e);
    var ops := OpOf(s, e);
    if ops == [] then [] else [Served(e.t, ops[0], AnswerOf(Apply(s, e).threads[e.t]))]
  }

  ghost function History(s: State, es: seq<Event>, s': State): seq<Served>
    requires IsRun(s, es, s')
    decreases es
  {
    if es == [] then [] else ServedBy(s, es[0]) + History(Apply(s, es[0]), es[1..], s')
  }

  // ---- Delay zero ----------------------------------------------------------------------

  predicate KeepsZero(e: Event) { e.Call? && e.req.SetDelay? ==> e.req.arg <= 0 }

  lemma WriteKeepsDelay(s: State, t: nat, ok: bool)
    requires t < |s.threads| && s.threads[t].Writing? && CanStep(s, t)
    ensures WriteStep(s, t, ok).dev.delay == s.dev.delay
  {
    match s.threads[t].wr
    case WAccept(data) => assert AcceptStep(s, t, data, ok).dev.delay == s.dev.delay;
    case _ =>
  }

  lemma DelayStaysZero(s: State, e: Event)
    requires s.dev.delay == 0 && Enabled(s, e) && KeepsZero(e)
    ensures Apply(s, e).dev.delay == 0
  {
    if e.Step? && s.threads[e.t].Writing? {
      WriteKeepsDelay(s, e.t, e.ok);
    }
  }

  /** The effect of each action on the queue. */
  lemma ActionServes(b: Box, a: Action)
    requires Undelayed(b) && Accounted(b) && Can(b, a) && (a.Accept? ==> !a.delayed)
    ensures Undelayed(Do(b, a))
    ensures var q, q' := Payloads(b.queue), Payloads(Do(b, a).queue);
            match a
            case Full(data) => q' == q && |q| >= b.maxStorage
            case Accept(data, _) => |q| < b.maxStorage && q' == q + [data]
            case Remove(_) => q != [] && q[0] == b.queue[0].data && q' == q[1..]
            case _ => q' == q
  {
  }

  /** The answers of the calling thread at the linearisation points. */
  lemma PutAnswers(s: State, t: nat, data: seq<Byte>, ok: bool)
    requires t < |s.threads| && s.dev.delay == 0 && (ok || s.dev.messagesNumber >= s.maxStorage)
    ensures var pcs := AcceptStep(s, t, data, ok).threads;
            && t < |pcs|
            && pcs[t] == Idle(if s.dev.messagesNumber >= s.maxStorage then 0 else |data|, [])
  {
  }

  lemma GetAnswers(s: State, t: nat, len: nat, ok: bool)
    requires t < |s.threads| && s.threads[t] == Reading(RTake(len))
    ensures var pcs := ReadStep(s, t, ok).threads;
            && t < |pcs|
            && AnswerOf(pcs[t]) == Reply(QueueOf(s), Get(len))
  {
    if s.dev.messageList != [] {
      ReadOrderLast(s.dev.messageList);
    }
  }

  /** Where no operation takes effect, the action leaves the queue alone. */
  lemma QuietAction(s: State, e: Event)
    requires Enabled(s, e) && OpOf(s, e) == []
    ensures !ActionOf(s, e).Accept? && !ActionOf(s, e).Remove?
  {
  }

  lemma PutServes(s: State, t: nat, data: seq<Byte>, ok: bool, b: Box, b': Box)
    requires Enabled(s, Step(t, ok)) && s.threads[t] == Writing(WAccept(data)) && s.dev.delay == 0
    requires ok || s.dev.messagesNumber >= s.maxStorage
    requires Undelayed(b) && Accounted(b) && Can(b, WriteAction(s, WAccept(data), ok)) && b' == Do(b, WriteAction(s, WAccept(data), ok))
    requires b.number == s.dev.messagesNumber && b.maxStorage == s.maxStorage
    ensures Legal(Payloads(b.queue), ServedBy(s, Step(t, ok)), Payloads(b'.queue))
  {
    ActionServes(b, WriteAction(s, WAccept(data), ok));
    OneThread(s, Step(t, ok));
    PutAnswers(s, t, data, ok);
    assert ServedBy(s, Step(t, ok))[1..] == [];
  }

  lemma GetServes(s: State, t: nat, len: nat, ok: bool, b: Box, b': Box)
    requires Enabled(s, Step(t, ok)) && s.threads[t] == Reading(RTake(len))
    requires Undelayed(b) && Accounted(b) && Can(b, ReadAction(s, RTake(len), ok)) && b' == Do(b, ReadAction(s, RTake(len), ok))
    requires b.queue == ReadOrder(s.dev.messageList)
    ensures Legal(Payloads(b.queue), ServedBy(s, Step(t, ok)), Payloads(b'.queue))
  {
    ActionServes(b, ReadAction(s, RTake(len), ok));
    OneThread(s, Step(t, ok));
    GetAnswers(s, t, len, ok);
    assert ServedBy(s, Step(t, ok))[1..] == [];
  }

  /** One step serves at most one operation, and serves it as the FIFO does. */
  lemma StepServes(s: State, e: Event, b: Box, b': Box)
    requires Enabled(s, e) && s.dev.delay == 0
    requires Undelayed(b) && Accounted(b) && Can(b, ActionOf(s, e)) && b' == Do(b, ActionOf(s, e))
    requires b.queue == ReadOrder(s.dev.messageList) && b.number == s.dev.messagesNumber && b.maxStorage == s.maxStorage
    ensures Undelayed(b') && Legal(Payloads(b.queue), ServedBy(s, e), Payloads(b'.queue))
  {
    ActionServes(b, ActionOf(s, e));
    if OpOf(s, e) == [] {
      QuietAction(s, e);
    } else if s.threads[e.t].Writing? {
      PutServes(s, e.t, s.threads[e.t].wr.data, e.ok, b, b');
    } else {
      GetServes(s, e.t, s.threads[e.t].rd.len, e.ok, b, b');
    }
  }

  lemma {:induction false} LegalJoin(q: Queue, h: seq<Served>, q1: Queue, h': seq<Served>, q2: Queue)
    requires |h| <= 1 && Legal(q, h, q1) && Legal(q1, h', q2)
    ensures Legal(q, h + h', q2)
  {
    if h != [] {
      assert (h + h')[1..] == h' && h[1..] == [];
    } else {
      assert h + h' == h';
    }
  }

  ghost predicate Ready(s: State) {
    s.dev.delay == 0 && Marked(s) && Undelayed(BoxOf(s)) && Accounted(BoxOf(s))
  }

  lemma StepReady(s: State, e: Event)
    requires Ready(s) && Enabled(s, e) && KeepsZero(e)
    ensures Ready(Apply(s, e)) && Legal(QueueOf(s), ServedBy(s, e), QueueOf(Apply(s, e)))
  {
    SimStep(s, e);
    MarkedStep(s, e);
    DelayStaysZero(s, e);
    DoAccounts(BoxOf(s), ActionOf(s, e));
    StepServes(s, e, BoxOf(s), BoxOf(Apply(s, e)));
  }

  /** Linearisability: in every run that keeps the delay at zero, the operations in the order of
      their linearisation points are a legal history of the bounded FIFO. */
  lemma {:induction false} Linearises(s: State, es: seq<Event>, s': State)
    requires Ready(s) && IsRun(s, es, s') && forall i :: 0 <= i < |es| ==> KeepsZero(es[i])
    ensures Ready(s') && Legal(QueueOf(s), History(s, es, s'), QueueOf(s'))
    decreases es
  {
    if es != [] {
      var s1 := Apply(s, es[0]);
      StepReady(s, es[0]);
      Linearises(s1, es[1..], s');
      LegalJoin(QueueOf(s), ServedBy(s, es[0]), QueueOf(s1), History(s1, es[1..], s'), QueueOf(s'));
    }
  }

  // ---- Each call is served once, between its beginning and its return -------------------

  /** The operations of thread `t` in a history. */
  ghost function Of(h: seq<Served>, t: nat): seq<Served> {
    if h == [] then [] else (if h[0].t == t then [h[0]] else []) + Of(h[1..], t)
  }

  lemma OfStep(s: State, e: Event, h: seq<Served>, t: nat)
    requires Enabled(s, e)
    ensures Of(ServedBy(s, e) + h, t) == Of(ServedBy(s, e), t) + Of(h, t)
    ensures !(e.Step? && e.t == t) ==> Of(ServedBy(s, e), t) == []
    ensures e.Step? && e.t == t ==> Of(ServedBy(s, e), t) == ServedBy(s, e)
  {
    var x := ServedBy(s, e);
    if x != [] {
      assert x[1..] == [] && (x + h)[1..] == h;
    } else {
      assert x + h == h;
    }
  }

  /** Thread `t` makes no further call. */
  ghost predicate NoCall(es: seq<Event>, t: nat) {
    forall i :: 0 <= i < |es| ==> !(es[i].Call? && es[i].t == t)
  }

  /** No allocation or user copy of thread `t` fails. */
  ghost predicate NoFailure(es: seq<Event>, t: nat) {
    forall i :: 0 <= i < |es| ==> !(es[i].Step? && es[i].t == t && !es[i].ok)
  }

  /** `max_storage_size` does not change. */
  ghost predicate SameLimit(es: seq<Event>) {
    forall i :: 0 <= i < |es| ==> !es[i].SetLimits?
  }

  lemma LimitStays(s: State, e: Event)
    requires Enabled(s, e) && !e.SetLimits?
    ensures Apply(s, e).maxStorage == s.maxStorage
  {
    if e.Step? && s.threads[e.t].Writing? {
      match s.threads[e.t].wr
      case WAccept(data) => assert AcceptStep(s, e.t, data, e.ok).maxStorage == s.maxStorage;
      case _ =>
    }
  }

  /** Others leave the thread where it is and serve nothing for it. */
  lemma OthersPass(s: State, e: Event, h: seq<Served>, t: nat)
    requires Enabled(s, e) && t < |s.threads| && !((e.Step? || e.Call?) && e.t == t)
    ensures var ts := Apply(s, e).threads; |ts| == |s.threads| && ts[t] == s.threads[t]
    ensures Of(ServedBy(s, e) + h, t) == Of(h, t)
  {
    OneThread(s, e);
    OfStep(s, e, h, t);
  }

  /** A thread outside the device keeps its result and is served nothing. */
  lemma {:induction false} IdleServed(s: State, es: seq<Event>, s': State, t: nat)
    requires IsRun(s, es, s') && t < |s.threads| && s.threads[t].Idle? && NoCall(es, t)
    ensures |s'.threads| == |s.threads| && s'.threads[t] == s.threads[t]
    ensures Of(History(s, es, s'), t) == []
    decreases es
  {
    if es != [] {
      var s1 := Apply(s, es[0]);
      OthersPass(s, es[0], History(s1, es[1..], s'), t);
      IdleServed(s1, es[1..], s', t);
    }
  }

  /** What a write that has returned was served. */
  ghost predicate WriteServed(pc: Pc, h: seq<Served>, t: nat, data: seq<Byte>) {
    if |h| == 0 then pc == Idle(-1, [])
    else
      && |h| == 1 && h[0].t == t && h[0].op.Put? && h[0].op.data == data
      && pc.Idle? && AnswerOf(pc) == h[0].answer && pc.ret >= 0
  }

  lemma AcceptServed(s: State, t: nat, data: seq<Byte>, ok: bool)
    requires Enabled(s, Step(t, ok)) && s.threads[t] == Writing(WAccept(data)) && s.dev.delay == 0
    ensures var ts := Apply(s, Step(t, ok)).threads;
            && t < |ts| && ts[t].Idle? && WriteServed(ts[t], ServedBy(s, Step(t, ok)), t, data)
            && (ok ==> ServedBy(s, Step(t, ok)) != [])
            && (ServedBy(s, Step(t, ok)) != [] ==> ServedBy(s, Step(t, ok))[0].op.cap == s.maxStorage)
  {
    OneThread(s, Step(t, ok));
    if ok || s.dev.messagesNumber >= s.maxStorage {
      PutAnswers(s, t, data, ok);
    }
  }

  /** The writer's own step: it enters its critical section, or it returns. */
  lemma WriterMoves(s: State, t: nat, ok: bool, data: seq<Byte>)
    requires Enabled(s, Step(t, ok)) && s.dev.delay == 0
    requires s.threads[t] == Writing(WDown(data)) || s.threads[t] == Writing(WAccept(data))
    ensures var ts, h := Apply(s, Step(t, ok)).threads, ServedBy(s, Step(t, ok));
            && |ts| == |s.threads|
            && if s.threads[t].wr.WDown? then ts[t] == Writing(WAccept(data)) && h == []
               else
                 && ts[t].Idle? && WriteServed(ts[t], h, t, data) && (ok ==> h != [])
                 && (h != [] ==> h[0].op.cap == s.maxStorage)
  {
    OneThread(s, Step(t, ok));
    if s.threads[t].wr.WAccept? {
      AcceptServed(s, t, data, ok);
    }
  }

  /** What a returned write was served, given the failures and changes of limits in `es`. */
  ghost predicate WriteOutcome(pc: Pc, h: seq<Served>, t: nat, data: seq<Byte>, es: seq<Event>, cap: nat) {
    && WriteServed(pc, h, t, data)
    && (NoFailure(es, t) ==> h != [])
    && (SameLimit(es) && h != [] ==> h[0].op.cap == cap)
  }

  lemma {:induction false} WriterServed(s: State, es: seq<Event>, s': State, t: nat, data: seq<Byte>)
    requires IsRun(s, es, s') && t < |s.threads| && NoCall(es, t)
    requires s.threads[t] == Writing(WDown(data)) || s.threads[t] == Writing(WAccept(data))
    requires s.dev.delay == 0 && forall i :: 0 <= i < |es| ==> KeepsZero(es[i])
    requires t < |s'.threads| && s'.threads[t].Idle?
    ensures WriteOutcome(s'.threads[t], Of(History(s, es, s'), t), t, data, es, s.maxStorage)
    decreases es
  {
    var e, s1 := es[0], Apply(s, es[0]);
    var h := History(s1, es[1..], s');
    DelayStaysZero(s, e);
    if !e.SetLimits? {
      LimitStays(s, e);
    }
    if e.Step? && e.t == t {
      WriterMoves(s, t, e.ok, data);
      OfStep(s, e, h, t);
      if s.threads[t].wr.WAccept? {
        IdleServed(s1, es[1..], s', t);
      }
    } else {
      OthersPass(s, e, h, t);
    }
    if !s1.threads[t].Idle? {
      WriterServed(s1, es[1..], s', t, data);
      Prolonged(s'.threads[t], Of(h, t), t, data, es, s1.maxStorage);
    }
  }

  lemma Prolonged(pc: Pc, h: seq<Served>, t: nat, data: seq<Byte>, es: seq<Event>, cap: nat)
    requires es != [] && WriteOutcome(pc, h, t, data, es[1..], cap)
    ensures WriteOutcome(pc, h, t, data, es, cap)
  {
  }

  /** Every write, from its call to its return: it is served exactly one Put, of the first
      `max_message_size` bytes of its buffer as that limit was at the call and bounded by
      `max_storage_size`, and returns the answer of that Put; or it returns -1 and is served nothing, which happens only for an empty
      buffer, a failed allocation or a failed copy from user space. */
  lemma WriteIsServedOnce(s: State, t: nat, buf: seq<Byte>, allocOk: bool, es: seq<Event>, s': State)
    requires Enabled(s, Call(t, Write(buf, allocOk))) && IsRun(Apply(s, Call(t, Write(buf, allocOk))), es, s')
    requires s.dev.delay == 0 && NoCall(es, t) && forall i :: 0 <= i < |es| ==> KeepsZero(es[i])
    requires t < |s'.threads| && s'.threads[t].Idle?
    ensures var h := Of(History(Apply(s, Call(t, Write(buf, allocOk))), es, s'), t);
            && WriteServed(s'.threads[t], h, t, Prefix(buf, s.maxMessage))
            && (|buf| == 0 || !allocOk ==> h == [])
            && (|buf| > 0 && allocOk && NoFailure(es, t) ==> h != [])
            && (h != [] && SameLimit(es) ==> h[0].op.cap == s.maxStorage)
  {
    var s1 := Apply(s, Call(t, Write(buf, allocOk)));
    if |buf| == 0 || !allocOk {
      IdleServed(s1, es, s', t);
    } else {
      WriterServed(s1, es, s', t, Prefix(buf, s.maxMessage));
    }
  }

  /** What a read that has returned was served: one Get, whose answer it returns unless its copy
      to user space failed. */
  ghost predicate ReadServed(pc: Pc, h: seq<Served>, t: nat, len: nat) {
    && |h| == 1 && h[0].t == t && h[0].op == Get(len) && pc.Idle?
    && (AnswerOf(pc) == h[0].answer || pc == Idle(-1, []))
  }

  /** Between its linearisation point and its return a reader keeps its answer, whatever the
      others do; a failed copy answers -1 and the message is gone all the same. */
  lemma {:induction false} ReaderReturns(s: State, es: seq<Event>, s': State, t: nat)
    requires IsRun(s, es, s') && t < |s.threads| && s.threads[t].Reading? && s.threads[t].rd.RCopy?
    requires NoCall(es, t) && t < |s'.threads| && s'.threads[t].Idle?
    ensures AnswerOf(s'.threads[t]) == AnswerOf(s.threads[t]) || s'.threads[t] == Idle(-1, [])
    ensures NoFailure(es, t) ==> AnswerOf(s'.threads[t]) == AnswerOf(s.threads[t])
    ensures Of(History(s, es, s'), t) == []
    decreases es
  {
    var e, s1 := es[0], Apply(s, es[0]);
    var h := History(s1, es[1..], s');
    if !(e.Step? && e.t == t) {
      OthersPass(s, e, h, t);
      ReaderReturns(s1, es[1..], s', t);
    } else {
      OneThread(s, e);
      OfStep(s, e, h, t);
      IdleServed(s1, es[1..], s', t);
    }
  }

  lemma {:induction false} ReaderServed(s: State, es: seq<Event>, s': State, t: nat, len: nat)
    requires IsRun(s, es, s') && t < |s.threads| && NoCall(es, t)
    requires s.threads[t] == Reading(RDown(len)) || s.threads[t] == Reading(RTake(len))
    requires t < |s'.threads| && s'.threads[t].Idle?
    ensures ReadServed(s'.threads[t], Of(History(s, es, s'), t), t, len)
    ensures NoFailure(es, t) ==> AnswerOf(s'.threads[t]) == Of(History(s, es, s'), t)[0].answer
    decreases es
  {
    var e, s1 := es[0], Apply(s, es[0]);
    var h := History(s1, es[1..], s');
    if !(e.Step? && e.t == t) {
      OthersPass(s, e, h, t);
      ReaderServed(s1, es[1..], s', t, len);
    } else {
      OneThread(s, e);
      OfStep(s, e, h, t);
      if s.threads[t].rd.RDown? {
        ReaderServed(s1, es[1..], s', t, len);
      } else if s1.threads[t].Idle? {
        IdleServed(s1, es[1..], s', t);
      } else {
        ReaderReturns(s1, es[1..], s', t);
      }
    }
  }

  /** Every read, from its call to its return, is served exactly one Get of the length it asked
      for. It returns the answer of that Get, or -1 after a failed copy to user space. */
  lemma ReadIsServedOnce(s: State, t: nat, len: nat, es: seq<Event>, s': State)
    requires Enabled(s, Call(t, Read(len))) && IsRun(Apply(s, Call(t, Read(len))), es, s') && NoCall(es, t)
    requires t < |s'.threads| && s'.threads[t].Idle?
    ensures var h := Of(History(Apply(s, Call(t, Read(len))), es, s'), t);
            && ReadServed(s'.threads[t], h, t, len)
            && (NoFailure(es, t) ==> AnswerOf(s'.threads[t]) == h[0].answer)
  {
    ReaderServed(Apply(s, Call(t, Read(len))), es, s', t, len);
  }

  lemma HistoryCons(s: State, e: Event, es: seq<Event>, s': State)
    requires Enabled(s, e) && IsRun(Apply(s, e), es, s')
    ensures IsRun(s, [e] + es, s')
    ensures History(s, [e] + es, s') == ServedBy(s, e) + History(Apply(s, e), es, s')
  {
    assert ([e] + es)[1..] == es;
  }

  lemma Associates(x: seq<Served>, h: seq<Served>, h1: seq<Served>)
    ensures x + (h + h1) == (x + h) + h1
  {
  }

  lemma JoinStep(s: State, e: Event, es: seq<Event>, s1: State, h: seq<Served>, es1: seq<Event>, s': State)
    requires Enabled(s, e) && IsRun(Apply(s, e), es, s1) && IsRun(Apply(s, e), es + es1, s')
    requires History(Apply(s, e), es + es1, s') == History(Apply(s, e), es, s1) + h
    ensures IsRun(s, [e] + es, s1) && IsRun(s, [e] + (es + es1), s')
    ensures History(s, [e] + (es + es1), s') == History(s, [e] + es, s1) + h
  {
    HistoryCons(s, e, es, s1);
    HistoryCons(s, e, es + es1, s');
    Associates(ServedBy(s, e), History(Apply(s, e), es, s1), h);
  }

  /** Histories of consecutive runs follow each other: a call that returned before another began
      is served before it. */
  lemma {:induction false} HistoryJoin(s: State, es: seq<Event>, s1: State, es1: seq<Event>, s': State)
    requires IsRun(s, es, s1) && IsRun(s1, es1, s')
    ensures IsRun(s, es + es1, s')
    ensures History(s, es + es1, s') == History(s, es, s1) + History(s1, es1, s')
    decreases es
  {
    if es == [] {
      assert es + es1 == es1;
    } else {
      var e, rest := es[0], es[1..];
      assert es == [e] + rest && es + es1 == [e] + (rest + es1);
      HistoryJoin(Apply(s, e), rest, s1, es1, s');
      JoinStep(s, e, rest, s1, History(s1, es1, s'), es1, s');
    }
  }
}
