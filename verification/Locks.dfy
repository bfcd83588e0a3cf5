/** Mutual exclusion: each semaphore is held by exactly the thread inside its section. */
module Locks {
  import opened Model
  import opened Threads

  // ---- Who must hold what --------------------------------------------------------------

  predicate InMessage(pc: Pc) {
    || (pc.Writing? && pc.wr.WAccept?)
    || (pc.Reading? && pc.rd.RTake?)
    || (pc.Flushing? && pc.fl.FSplice?)
  }

  predicate InPending(pc: Pc) {
    || (pc.Writing? && pc.wr.WPend?)
    || (pc.Flushing? && (pc.fl.FDownMessage? || pc.fl.FSplice?))
  }

  predicate InWq(pc: Pc) {
    || (pc.Writing? && (pc.wr.WQueue? || pc.wr.WLink?))
    || (pc.Flushing? && (pc.fl.FBegin? || pc.fl.FLoop? || pc.fl.FKick? || pc.fl.FWait? || pc.fl.FDrain? || pc.fl.FEnd?))
  }

  /** Semaphore `sem` is held by exactly the thread, or the worker, inside its section. */
  ghost predicate Guards(sem: Sem, ts: seq<Pc>, inside: Pc -> bool, worker: bool) {
    && (forall t :: 0 <= t < |ts| ==> (inside(ts[t]) <==> sem == Held(User(t))))
    && (worker <==> sem == Held(Worker))
    && (sem.Held? && sem.holder.User? ==> sem.holder.tid < |ts|)
  }

  ghost predicate Locked(s: State) {
    && Guards(s.messageSem, s.threads, InMessage, s.worker.KPublish?)
    && Guards(s.pendingSem, s.threads, InPending, s.worker.KTake?)
    && Guards(s.wqSem, s.threads, InWq, false)
  }

  /** `who` enters, leaves, or stays where it is with respect to one semaphore. */
  predicate Turns(sem: Sem, sem': Sem, who: Holder, inside: bool, inside': bool) {
    || (sem' == sem && inside' == inside)
    || (sem == Free && sem' == Held(who) && inside')
    || (inside && sem' == Free && !inside')
  }

  lemma UserTurns(sem: Sem, sem': Sem, ts: seq<Pc>, t: nat, pc: Pc, inside: Pc -> bool, worker: bool)
    requires Guards(sem, ts, inside, worker) && t < |ts|
    requires Turns(sem, sem', User(t), inside(ts[t]), inside(pc))
    ensures Guards(sem', ts[t := pc], inside, worker)
  {
  }

  lemma WorkerTurns(sem: Sem, sem': Sem, ts: seq<Pc>, inside: Pc -> bool, worker: bool, worker': bool)
    requires Guards(sem, ts, inside, worker) && Turns(sem, sem', Worker, worker, worker')
    ensures Guards(sem', ts, inside, worker')
  {
  }

  ghost predicate UserTurn(s: State, t: nat, s': State)
    requires t < |s.threads|
  {
    && |s'.threads| == |s.threads| && s'.worker == s.worker
    && Turns(s.messageSem, s'.messageSem, User(t), InMessage(s.threads[t]), InMessage(s'.threads[t]))
    && Turns(s.pendingSem, s'.pendingSem, User(t), InPending(s.threads[t]), InPending(s'.threads[t]))
    && Turns(s.wqSem, s'.wqSem, User(t), InWq(s.threads[t]), InWq(s'.threads[t]))
  }

  lemma AcceptTurn(s: State, t: nat, data: seq<Byte>, ok: bool)
    requires t < |s.threads| && s.threads[t] == Writing(WAccept(data))
    ensures UserTurn(s, t, AcceptStep(s, t, data, ok))
  {
  }

  lemma QueueTurn(s: State, t: nat, m: Message)
    requires t < |s.threads| && s.threads[t] == Writing(WQueue(m))
    ensures UserTurn(s, t, QueueStep(s, t, m))
  {
  }

  lemma LinkTurn(s: State, t: nat, m: Message, w: nat)
    requires t < |s.threads| && s.threads[t] == Writing(WLink(m, w))
    ensures UserTurn(s, t, LinkStep(s, t, m, w))
  {
  }

  lemma WriteTurn(s: State, t: nat, ok: bool)
    requires t < |s.threads| && s.threads[t].Writing? && CanStep(s, t)
    ensures UserTurn(s, t, WriteStep(s, t, ok))
  {
    match s.threads[t].wr
    case WAccept(data) => AcceptTurn(s, t, data, ok);
    case WQueue(m) => QueueTurn(s, t, m);
    case WLink(m, w) => LinkTurn(s, t, m, w);
    case _ =>
  }

  lemma ReadTurn(s: State, t: nat, ok: bool)
    requires t < |s.threads| && s.threads[t].Reading? && CanStep(s, t)
    ensures UserTurn(s, t, ReadStep(s, t, ok))
  {
  }

  lemma SpliceTurn(s: State, t: nat)
    requires t < |s.threads| && s.threads[t].Flushing? && s.threads[t].fl.FSplice?
    ensures UserTurn(s, t, FlushStep(s, t))
  {
  }

  lemma TraverseTurn(s: State, t: nat)
    requires t < |s.threads| && s.threads[t].Flushing? && (s.threads[t].fl.FLoop? || s.threads[t].fl.FKick?)
    ensures UserTurn(s, t, FlushStep(s, t))
  {
  }

  lemma FlushTurn(s: State, t: nat)
    requires t < |s.threads| && s.threads[t].Flushing? && CanStep(s, t)
    ensures UserTurn(s, t, FlushStep(s, t))
  {
    match s.threads[t].fl
    case FSplice => SpliceTurn(s, t);
    case FLoop(_) => TraverseTurn(s, t);
    case FKick(_, _) => TraverseTurn(s, t);
    case _ =>
  }

  lemma WorkerTurn(s: State)
    requires WorkerCanStep(s)
    ensures var s' := WorkStep(s);
            && s'.wqSem == s.wqSem
            && Turns(s.messageSem, s'.messageSem, Worker, s.worker.KPublish?, s'.worker.KPublish?)
            && Turns(s.pendingSem, s'.pendingSem, Worker, s.worker.KTake?, s'.worker.KTake?)
  {
  }

  lemma AnyTurn(s: State, e: Event)
    requires Enabled(s, e) && (e.Step? || e.Call?)
    ensures UserTurn(s, e.t, Apply(s, e))
  {
    if e.Step? {
      match s.threads[e.t]
      case Writing(_) => WriteTurn(s, e.t, e.ok);
      case Reading(_) => ReadTurn(s, e.t, e.ok);
      case Flushing(_, _) => FlushTurn(s, e.t);
    }
  }

  lemma StepLocked(s: State, e: Event)
    requires Locked(s) && Enabled(s, e)
    ensures Locked(Apply(s, e))
  {
    var s' := Apply(s, e);
    OneThread(s, e);
    if e.Step? || e.Call? {
      AnyTurn(s, e);
      var pc := s'.threads[e.t];
      UserTurns(s.messageSem, s'.messageSem, s.threads, e.t, pc, InMessage, s.worker.KPublish?);
      UserTurns(s.pendingSem, s'.pendingSem, s.threads, e.t, pc, InPending, s.worker.KTake?);
      UserTurns(s.wqSem, s'.wqSem, s.threads, e.t, pc, InWq, false);
    } else if e.WorkerStep? {
      WorkerTurn(s);
      WorkerTurns(s.messageSem, s'.messageSem, s.threads, InMessage, s.worker.KPublish?, s'.worker.KPublish?);
      WorkerTurns(s.pendingSem, s'.pendingSem, s.threads, InPending, s.worker.KTake?, s'.worker.KTake?);
    }
  }

  lemma InitLocked(n: nat, wqLive: bool, mm: U32, ms: U32)
    ensures Locked(Init(n, wqLive, mm, ms))
  {
  }
}
