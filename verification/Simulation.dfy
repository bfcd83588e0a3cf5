/** Each step of the device is one action of the mailbox. */
module Simulation {
  import opened Lists
  import opened Model
  import opened Threads
  import opened Mailbox

  function CurrentOf(k: WorkerPc): Current {
    if k.KIdle? then Nobody else if k.KDownPending? || k.KTake? then Before(k.w) else After(k.w)
  }

  /** What all threads together hold. */
  datatype Totals = Totals(writers: multiset<Message>, readers: multiset<Message>, about: nat)

  ghost function TotalsOf(ts: seq<Pc>): Totals {
    Totals(Bag(ts, WriterHolds), Bag(ts, ReaderHolds), Sum(ts, AboutToQueue))
  }

  ghost function BoxWith(s: State, h: Totals): Box {
    Box(ReadOrder(s.dev.messageList), ReadOrder(s.dev.pendingList), WorkerHolds(s.worker),
        h.writers, h.readers, s.dev.messagesNumber, s.maxStorage, s.now, h.about, s.armed,
        s.ready, CurrentOf(s.worker), |s.works|, s.log)
  }

  ghost function BoxOf(s: State): Box { BoxWith(s, TotalsOf(s.threads)) }

  function WriteAction(s: State, pc: WritePc, ok: bool): Action {
    match pc
    case WAccept(data) =>
      if s.dev.messagesNumber >= s.maxStorage then Full(data)
      else if !ok then Quiet
      else Accept(data, s.dev.delay != 0)
    case WPend(m) => Pended(m)
    case WAlloc(m) => if !s.wqLive || !ok then Skip else Quiet
    case WQueue(m) => QueueWork(s.dev.delay)
    case _ => Quiet
  }

  function ReadAction(s: State, pc: ReadPc, ok: bool): Action {
    match pc
    case RDown(_) => Quiet
    case RTake(len) => if s.dev.messageList == [] then Empty(len) else Remove(len)
    case RCopy(m, _) => if ok then Consume(m) else Drop(m)
  }

  function FlushAction(s: State, pc: FlushPc): Action {
    match pc
    case FSplice => SpliceAll
    case FKick(w, _) => if w < |s.works| && !s.works[w].Freed? && w in s.armed then Readied(w) else Quiet
    case _ => Quiet
  }

  function WorkerAction(s: State): Action {
    match s.worker
    case KIdle => Start
    case KTake(_) => Fire
    case KPublish(_, _) => Mature
    case KFree(w) => if w >= |s.works| || s.works[w].Linked? || s.works[w].Freed? then Quiet else Finish
    case _ => Quiet
  }

  function ActionOf(s: State, e: Event): Action
    requires Enabled(s, e)
  {
    match e
    case Tick => Pass
    case SetLimits(_, ms) => Limit(ms)
    case Expire(w) => Readied(w)
    case Call(_, _) => Quiet
    case Step(t, ok) =>
      (match s.threads[t]
       case Writing(pc) => WriteAction(s, pc, ok)
       case Reading(pc) => ReadAction(s, pc, ok)
       case Flushing(pc, _) => FlushAction(s, pc))
    case WorkerStep => WorkerAction(s)
  }

  /** A flush past its splice has left the mark of the splice. */
  predicate PastSplice(pc: Pc) {
    pc.Flushing? && !pc.fl.FDownPending? && !pc.fl.FDownMessage? && !pc.fl.FSplice?
  }

  ghost predicate Marked(s: State) {
    forall t :: 0 <= t < |s.threads| && PastSplice(s.threads[t]) ==> s.log.flushed
  }

  // ---- Totals over threads -------------------------------------------------------------

  predicate Includes(h: Totals, pc: Pc) {
    Within(WriterHolds(pc), h.writers) && Within(ReaderHolds(pc), h.readers) && AboutToQueue(pc) <= h.about
  }

  /** The totals after one thread moved from `pc` to `pc'`. */
  function Shift(h: Totals, pc: Pc, pc': Pc): Totals
    requires Includes(h, pc)
  {
    Totals(Swap(h.writers, WriterHolds(pc), WriterHolds(pc')),
           Swap(h.readers, ReaderHolds(pc), ReaderHolds(pc')),
           h.about - AboutToQueue(pc) + AboutToQueue(pc'))
  }

  lemma Moves(ts: seq<Pc>, t: nat, pc: Pc)
    requires t < |ts|
    ensures Includes(TotalsOf(ts), ts[t])
    ensures TotalsOf(ts[t := pc]) == Shift(TotalsOf(ts), ts[t], pc)
  {
    BagShare(ts, WriterHolds, t);
    BagShare(ts, ReaderHolds, t);
    BagUpdate(ts, WriterHolds, t, pc);
    BagUpdate(ts, ReaderHolds, t, pc);
    SumUpdate(ts, AboutToQueue, t, pc);
  }

  // ---- Steps ---------------------------------------------------------------------------

  /** Action `a` leads from the box of `s` to that of `s'`, the threads holding `h` and `h'`. */
  ghost predicate Acts(s: State, h: Totals, a: Action, s': State, h': Totals) {
    Can(BoxWith(s, h), a) && BoxWith(s', h') == Do(BoxWith(s, h), a)
  }

  lemma SimAcceptNow(s: State, h: Totals, t: nat, data: seq<Byte>)
    requires t < |s.threads| && s.dev.messagesNumber < s.maxStorage && s.dev.delay == 0
    ensures Acts(s, h, Accept(data, false), AcceptStep(s, t, data, true), h)
  {
    ReadOrderAdd(Message(|s.log.accepted|, data), s.dev.messageList);
  }

  lemma SimAcceptDelayed(s: State, h: Totals, t: nat, data: seq<Byte>)
    requires t < |s.threads| && s.dev.messagesNumber < s.maxStorage && s.dev.delay != 0
    ensures Acts(s, h, Accept(data, true), AcceptStep(s, t, data, true),
                 h.(writers := h.writers + multiset{Message(|s.log.accepted|, data)}))
  {
  }

  lemma SimAccept(s: State, h: Totals, t: nat, data: seq<Byte>, ok: bool)
    requires t < |s.threads| && s.threads[t] == Writing(WAccept(data)) && Includes(h, s.threads[t])
    ensures var s' := AcceptStep(s, t, data, ok);
            Acts(s, h, WriteAction(s, WAccept(data), ok), s', Shift(h, s.threads[t], s'.threads[t]))
  {
    if ok && s.dev.messagesNumber < s.maxStorage {
      if s.dev.delay == 0 {
        SimAcceptNow(s, h, t, data);
      } else {
        SimAcceptDelayed(s, h, t, data);
      }
    }
  }

  lemma SimPend(s: State, h: Totals, t: nat, m: Message, ok: bool)
    requires t < |s.threads| && s.threads[t] == Writing(WPend(m)) && Includes(h, s.threads[t])
    ensures Acts(s, h, Pended(m), WriteStep(s, t, ok), Shift(h, s.threads[t], Writing(WAlloc(m))))
  {
    ReadOrderAdd(m, s.dev.pendingList);
  }

  lemma SimAlloc(s: State, h: Totals, t: nat, m: Message, ok: bool)
    requires t < |s.threads| && s.threads[t] == Writing(WAlloc(m)) && Includes(h, s.threads[t])
    ensures var s' := WriteStep(s, t, ok);
            Acts(s, h, WriteAction(s, WAlloc(m), ok), s', Shift(h, s.threads[t], s'.threads[t]))
  {
  }

  lemma SimQueue(s: State, h: Totals, t: nat, m: Message, ok: bool)
    requires t < |s.threads| && s.threads[t] == Writing(WQueue(m)) && Includes(h, s.threads[t])
    ensures Acts(s, h, QueueWork(s.dev.delay), WriteStep(s, t, ok),
                 Shift(h, s.threads[t], Writing(WLink(m, |s.works|))))
  {
  }

  /** The remaining steps of a write only move semaphores and the list of works. */
  lemma SimQuietWrite(s: State, h: Totals, t: nat, ok: bool)
    requires t < |s.threads| && s.threads[t].Writing? && CanStep(s, t)
    requires s.threads[t].wr.WDown? || s.threads[t].wr.WDownPending? || s.threads[t].wr.WDownWq? || s.threads[t].wr.WLink?
    ensures BoxWith(WriteStep(s, t, ok), h) == BoxWith(s, h)
    ensures WriterHolds(WriteStep(s, t, ok).threads[t]) == WriterHolds(s.threads[t])
    ensures ReaderHolds(WriteStep(s, t, ok).threads[t]) == ReaderHolds(s.threads[t])
    ensures AboutToQueue(WriteStep(s, t, ok).threads[t]) == AboutToQueue(s.threads[t])
  {
  }

  lemma SimWrite(s: State, h: Totals, t: nat, ok: bool)
    requires t < |s.threads| && s.threads[t].Writing? && CanStep(s, t) && Includes(h, s.threads[t])
    ensures var s' := WriteStep(s, t, ok);
            Acts(s, h, WriteAction(s, s.threads[t].wr, ok), s', Shift(h, s.threads[t], s'.threads[t]))
  {
    match s.threads[t].wr
    case WAccept(data) => SimAccept(s, h, t, data, ok);
    case WPend(m) => SimPend(s, h, t, m, ok);
    case WAlloc(m) => SimAlloc(s, h, t, m, ok);
    case WQueue(m) => SimQueue(s, h, t, m, ok);
    case _ => SimQuietWrite(s, h, t, ok);
  }

  lemma SimTake(s: State, h: Totals, t: nat, len: nat, ok: bool)
    requires t < |s.threads| && s.threads[t] == Reading(RTake(len)) && Includes(h, s.threads[t])
    ensures var s' := ReadStep(s, t, ok);
            Acts(s, h, ReadAction(s, RTake(len), ok), s', Shift(h, s.threads[t], s'.threads[t]))
  {
    if s.dev.messageList != [] {
      ReadOrderLast(s.dev.messageList);
    }
  }

  lemma SimCopy(s: State, h: Totals, t: nat, m: Message, len: nat, ok: bool)
    requires t < |s.threads| && s.threads[t] == Reading(RCopy(m, len)) && Includes(h, s.threads[t])
    ensures var s' := ReadStep(s, t, ok);
            Acts(s, h, ReadAction(s, RCopy(m, len), ok), s', Shift(h, s.threads[t], s'.threads[t]))
  {
  }

  lemma SimRead(s: State, h: Totals, t: nat, ok: bool)
    requires t < |s.threads| && s.threads[t].Reading? && CanStep(s, t) && Includes(h, s.threads[t])
    ensures var s' := ReadStep(s, t, ok);
            Acts(s, h, ReadAction(s, s.threads[t].rd, ok), s', Shift(h, s.threads[t], s'.threads[t]))
  {
    match s.threads[t].rd
    case RDown(_) =>
    case RTake(len) => SimTake(s, h, t, len, ok);
    case RCopy(m, len) => SimCopy(s, h, t, m, len, ok);
  }

  lemma SimSplice(s: State, h: Totals, t: nat)
    requires t < |s.threads| && s.threads[t].Flushing? && s.threads[t].fl.FSplice?
    ensures Acts(s, h, SpliceAll, FlushStep(s, t), h)
  {
    ReadOrderJoin(s.dev.messageList, s.dev.pendingList);
  }

  lemma SimKick(s: State, h: Totals, t: nat)
    requires s.log.flushed && t < |s.threads| && s.threads[t].Flushing? && s.threads[t].fl.FKick?
    ensures Acts(s, h, FlushAction(s, s.threads[t].fl), FlushStep(s, t), h)
  {
  }

  lemma SimTraverse(s: State, h: Totals, t: nat, at: Cursor, before: set<Message>)
    requires t < |s.threads|
    ensures BoxWith(TraverseStep(s, t, at, before), h) == BoxWith(s, h)
  {
  }

  lemma SimFlush(s: State, h: Totals, t: nat)
    requires Marked(s) && t < |s.threads| && s.threads[t].Flushing? && CanStep(s, t)
    ensures Acts(s, h, FlushAction(s, s.threads[t].fl), FlushStep(s, t), h)
  {
    match s.threads[t].fl
    case FSplice => SimSplice(s, h, t);
    case FKick(_, _) =>
      assert PastSplice(s.threads[t]);
      SimKick(s, h, t);
    case FLoop(at) => SimTraverse(s, h, t, at, s.threads[t].before);
    case _ =>
  }

  lemma SimFire(s: State, h: Totals, w: nat)
    requires s.worker == KTake(w)
    ensures Acts(s, h, Fire, WorkStep(s), h)
  {
    if s.dev.pendingList != [] {
      ReadOrderLast(s.dev.pendingList);
    }
  }

  lemma SimMature(s: State, h: Totals, w: nat, m: Message)
    requires s.worker == KPublish(w, m)
    ensures Acts(s, h, Mature, WorkStep(s), h)
  {
    ReadOrderAdd(m, s.dev.messageList);
  }

  lemma SimWorker(s: State, h: Totals)
    requires WorkerCanStep(s)
    ensures Acts(s, h, WorkerAction(s), WorkStep(s), h)
  {
    match s.worker
    case KTake(w) => SimFire(s, h, w);
    case KPublish(w, m) => SimMature(s, h, w, m);
    case _ =>
  }

  // ---- The simulation ------------------------------------------------------------------

  lemma SimUser(s: State, h: Totals, t: nat, ok: bool)
    requires Marked(s) && Enabled(s, Step(t, ok)) && Includes(h, s.threads[t])
    ensures var s' := Apply(s, Step(t, ok));
            Acts(s, h, ActionOf(s, Step(t, ok)), s', Shift(h, s.threads[t], s'.threads[t]))
  {
    match s.threads[t]
    case Writing(_) => SimWrite(s, h, t, ok);
    case Reading(_) => SimRead(s, h, t, ok);
    case Flushing(_, _) =>
      SimFlush(s, h, t);
      FlusherHoldsNothing(s, t);
  }

  lemma FlusherHoldsNothing(s: State, t: nat)
    requires t < |s.threads| && s.threads[t].Flushing? && CanStep(s, t)
    ensures var ts := FlushStep(s, t).threads;
            && t < |ts| && WriterHolds(ts[t]) == Nothing && ReaderHolds(ts[t]) == Nothing && AboutToQueue(ts[t]) == 0
  {
  }

  lemma SimCall(s: State, h: Totals, t: nat, req: Request)
    requires Enabled(s, Call(t, req))
    ensures BoxWith(Begin(s, t, req), h) == BoxWith(s, h)
    ensures Shift(h, s.threads[t], Begin(s, t, req).threads[t]) == h
  {
    CallHoldsNothing(s, t, req);
  }

  lemma CallHoldsNothing(s: State, t: nat, req: Request)
    requires t < |s.threads|
    ensures var ts := Begin(s, t, req).threads;
            && t < |ts| && WriterHolds(ts[t]) == Nothing && ReaderHolds(ts[t]) == Nothing && AboutToQueue(ts[t]) == 0
  {
  }

  ghost function TotalsAfter(s: State, h: Totals, e: Event): Totals
    requires Enabled(s, e) && ((e.Step? || e.Call?) ==> Includes(h, s.threads[e.t]))
  {
    if e.Step? || e.Call? then Shift(h, s.threads[e.t], Apply(s, e).threads[e.t]) else h
  }

  lemma SimWith(s: State, h: Totals, e: Event)
    requires Marked(s) && Enabled(s, e) && ((e.Step? || e.Call?) ==> Includes(h, s.threads[e.t]))
    ensures Acts(s, h, ActionOf(s, e), Apply(s, e), TotalsAfter(s, h, e))
  {
    match e
    case Tick =>
    case SetLimits(_, _) =>
    case Expire(_) =>
    case Call(t, req) => SimCall(s, h, t, req);
    case Step(t, ok) => SimUser(s, h, t, ok);
    case WorkerStep => SimWorker(s, h);
  }

  /** Each step of the device is one action of its mailbox. */
  lemma SimStep(s: State, e: Event)
    requires Marked(s) && Enabled(s, e)
    ensures Can(BoxOf(s), ActionOf(s, e))
    ensures BoxOf(Apply(s, e)) == Do(BoxOf(s), ActionOf(s, e))
  {
    OneThread(s, e);
    if e.Step? || e.Call? {
      Moves(s.threads, e.t, Apply(s, e).threads[e.t]);
    }
    SimWith(s, TotalsOf(s.threads), e);
  }

  lemma DoKeepsMark(b: Box, a: Action)
    requires Can(b, a) && b.log.flushed
    ensures Do(b, a).log.flushed
  {
  }

  lemma StepKeepsMark(s: State, e: Event)
    requires Marked(s) && Enabled(s, e) && s.log.flushed
    ensures Apply(s, e).log.flushed
  {
    SimStep(s, e);
    DoKeepsMark(BoxOf(s), ActionOf(s, e));
  }

  lemma MarkedStep(s: State, e: Event)
    requires Marked(s) && Enabled(s, e)
    ensures Marked(Apply(s, e))
  {
    OneThread(s, e);
    if s.log.flushed {
      StepKeepsMark(s, e);
    } else if e.Step? {
      MarkedMove(s, e.t, e.ok);
    }
  }

  lemma MarkedMove(s: State, t: nat, ok: bool)
    requires Enabled(s, Step(t, ok))
    ensures var s' := Apply(s, Step(t, ok));
            t < |s'.threads| && (PastSplice(s'.threads[t]) ==> PastSplice(s.threads[t]) || s'.log.flushed)
  {
    match s.threads[t]
    case Writing(_) => WriterStays(s, t, ok);
    case Reading(_) =>
    case Flushing(_, _) => FlusherMoves(s, t);
  }

  lemma AcceptStays(s: State, t: nat, data: seq<Byte>, ok: bool)
    requires t < |s.threads|
    ensures var ts := AcceptStep(s, t, data, ok).threads; t < |ts| && !ts[t].Flushing?
  {
  }

  lemma WriterStays(s: State, t: nat, ok: bool)
    requires t < |s.threads| && s.threads[t].Writing? && CanStep(s, t)
    ensures var ts := WriteStep(s, t, ok).threads; t < |ts| && !ts[t].Flushing?
  {
    match s.threads[t].wr
    case WAccept(data) => AcceptStays(s, t, data, ok);
    case _ =>
  }

  lemma FlusherMoves(s: State, t: nat)
    requires t < |s.threads| && s.threads[t].Flushing? && CanStep(s, t)
    ensures var s' := FlushStep(s, t);
            t < |s'.threads| && (PastSplice(s'.threads[t]) ==> PastSplice(s.threads[t]) || s'.log.flushed)
  {
  }

  // ---- Runs ----------------------------------------------------------------------------

  /** The actions of a run. */
  ghost function Trace(s: State, es: seq<Event>, s': State): seq<Action>
    requires IsRun(s, es, s')
    decreases es
  {
    if es == [] then [] else [ActionOf(s, es[0])] + Trace(Apply(s, es[0]), es[1..], s')
  }

  /** Every run of the device, under every interleaving, is a run of the mailbox. */
  lemma {:induction false} SimRun(s: State, es: seq<Event>, s': State)
    requires Marked(s) && IsRun(s, es, s')
    ensures Marked(s') && Replays(BoxOf(s), Trace(s, es, s'), BoxOf(s'))
    decreases es
  {
    if es != [] {
      var s1 := Apply(s, es[0]);
      SimStep(s, es[0]);
      MarkedStep(s, es[0]);
      SimRun(s1, es[1..], s');
      assert Trace(s, es, s')[1..] == Trace(s1, es[1..], s');
    }
  }

  lemma SimInit(n: nat, wqLive: bool, mm: U32, ms: U32)
    ensures Marked(Init(n, wqLive, mm, ms)) && BoxOf(Init(n, wqLive, mm, ms)) == NewBox(ms)
  {
    var ts := Init(n, wqLive, mm, ms).threads;
    BagOfNothing(ts, WriterHolds);
    BagOfNothing(ts, ReaderHolds);
    SumOfNothing(ts, AboutToQueue);
  }
}
