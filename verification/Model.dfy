/** The device of one group (`struct group_dev`) as a concurrent state machine.

    A step is the acquisition of a semaphore, the body of one critical section together with
    the `up` that ends it, or one unprotected access to shared data. Any number of user
    threads and the one worker of the single-threaded workqueue interleave freely. Kernel
    services that can fail are given their outcome by the event. */
module Model {
  import opened Lists

  type Byte = bv8
  const TWO_TO_THE_32: nat := 0x1_0000_0000
  type U32 = x: nat | x < 0x1_0000_0000

  /** `unsigned int` increment and decrement, wrapping as in C. */
  function Inc32(x: U32): U32 { (x + 1) % TWO_TO_THE_32 }
  function Dec32(x: U32): U32 { (x + TWO_TO_THE_32 - 1) % TWO_TO_THE_32 }

  function Min(a: nat, b: nat): nat { if a < b then a else b }
  function Max(a: nat, b: nat): nat { if a < b then b else a }

  /** The module parameters that bound a message and the number of messages. */
  datatype Limits = Limits(maxMessage: U32, maxStorage: U32)

  /** A message is a separate allocation: `id` stands for its identity. */
  datatype Message = Message(id: nat, data: seq<Byte>)

  /** The fields of the device that critical sections change. */
  datatype Store = Store(
    messageList: seq<Message>,
    pendingList: seq<Message>,
    delayList: seq<nat>,
    messagesNumber: U32,
    delay: nat,
    flushing: bool)

  // ---- Bodies of the critical sections ------------------------------------------------

  /** Counting a new message; its publication follows now or later. */
  function Count(d: Store): Store { d.(messagesNumber := Inc32(d.messagesNumber)) }

  /** `list_add` to the message list. */
  function Publish(d: Store, m: Message): Store { d.(messageList := [m] + d.messageList) }

  /** `list_add` to the pending list. */
  function Pend(d: Store, m: Message): Store { d.(pendingList := [m] + d.pendingList) }

  /** The oldest pending message leaves the pending list. */
  function TakePending(d: Store): Store
    requires d.pendingList != []
  {
    d.(pendingList := d.pendingList[..|d.pendingList| - 1])
  }

  /** The oldest published message leaves the device. */
  function TakeOldest(d: Store): Store
    requires d.messageList != []
  {
    d.(messageList := d.messageList[..|d.messageList| - 1], messagesNumber := Dec32(d.messagesNumber))
  }

  /** `list_splice_tail_init(pending_list, message_list)`. */
  function Splice(d: Store): Store {
    d.(messageList := d.messageList + d.pendingList, pendingList := [])
  }

  function Last<T>(l: seq<T>): T
    requires l != []
  {
    l[|l| - 1]
  }

  /** What a read of at most `len` bytes delivers of `data`. */
  function Prefix(data: seq<Byte>, len: nat): seq<Byte> { data[..Min(len, |data|)] }

  // ---- Program counters ---------------------------------------------------------------

  datatype Holder = Worker | User(tid: nat)
  datatype Sem = Free | Held(holder: Holder)

  datatype WritePc =
    | WDown(data: seq<Byte>)      // down(message_sem)
    | WAccept(data: seq<Byte>)    // checks, copy, count
    | WDownPending(m: Message)    // down(pending_sem)
    | WPend(m: Message)
    | WAlloc(m: Message)          // add_delayed_work: null check and kmalloc
    | WDownWq(m: Message)         // down(wq_sem)
    | WQueue(m: Message)          // queue_delayed_work
    | WLink(m: Message, w: nat)   // list_add to delay_list, up(wq_sem)

  datatype ReadPc =
    | RDown(len: nat)
    | RTake(len: nat)
    | RCopy(m: Message, len: nat) // copy_to_user, after up(message_sem)

  /** Position of a safe traversal of `delay_list`. */
  datatype Cursor = Head | At(w: nat)

  datatype FlushPc =
    | FDownPending
    | FDownMessage
    | FSplice
    | FDownWq
    | FBegin                        // set_flushing, first entry
    | FLoop(at: Cursor)             // list_del of the entry
    | FKick(w: nat, next: Cursor)   // flush_delayed_work: expedite
    | FWait(w: nat, next: Cursor)   // flush_delayed_work: wait
    | FDrain                        // drain_workqueue
    | FEnd                          // clear_flushing, up(wq_sem)

  /** `before`: the messages whose write had returned when the flush was called. */
  datatype Pc =
    | Idle(ret: int, out: seq<Byte>)
    | Writing(wr: WritePc)
    | Reading(rd: ReadPc)
    | Flushing(fl: FlushPc, before: set<Message>)

  datatype WorkerPc =
    | KIdle
    | KDownPending(w: nat)
    | KTake(w: nat)
    | KDownMessage(w: nat, m: Message)
    | KPublish(w: nat, m: Message)
    | KFlag(w: nat)                 // is_flushing
    | KUnlink(w: nat)               // list_del of the work
    | KFree(w: nat)                 // kfree of the work

  /** The life of a `struct work`. */
  datatype WorkState = Queued | Linked | Unlinked | Freed

  // ---- Ghost record of a run ----------------------------------------------------------

  datatype Route = Direct | Matured | Spliced
  datatype Publication = Publication(msg: Message, route: Route, at: nat)
  function Publications(ms: seq<Message>, route: Route, at: nat): seq<Publication> {
    seq(|ms|, i requires 0 <= i < |ms| => Publication(ms[i], route, at))
  }

  datatype Stamp = Stamp(msg: Message, at: nat)
  datatype Queueing = Queueing(at: nat, delay: nat)

  datatype Log = Log(
    accepted: seq<Message>,         // counted by a write
    pended: seq<Stamp>,             // put on the pending list
    published: seq<Publication>,    // put on the message list
    removed: seq<Message>,          // taken off the message list by readers
    consumed: seq<Message>,         // ... and copied out and freed
    dropped: seq<Message>,          // ... and lost to a failed user copy
    queued: seq<Queueing>,          // queue_delayed_work calls, one per work
    fired: set<nat>,                // works that ran their critical section on pending_list
    unqueued: nat,                  // delayed writes that queued no work
    flushed: bool,                  // some splice has happened
    maxEver: nat)                   // largest max_storage_size so far

  datatype Calls = Calls(
    completed: set<Message>,        // accepted by a write that has returned
    flushes: seq<set<Message>>)     // for each returned flush, its `before`

  datatype State = State(
    dev: Store,
    messageSem: Sem, pendingSem: Sem, wqSem: Sem,
    wqLive: bool,                   // delay_wq is not NULL
    maxMessage: U32, maxStorage: U32,
    now: nat,
    armed: set<nat>,                // works whose timer is running
    ready: seq<nat>,                // works in the workqueue, oldest first
    works: seq<WorkState>,
    worker: WorkerPc,
    threads: seq<Pc>,
    fault: bool,                    // a work was misused; nothing is claimed afterwards
    calls: Calls,
    log: Log)

  /** `kzalloc` leaves the device empty and undelayed; all threads are outside the device. */
  function Init(n: nat, wqLive: bool, maxMessage: U32, maxStorage: U32): State {
    State(Store([], [], [], 0, 0, false), Free, Free, Free, wqLive, maxMessage, maxStorage, 0,
          {}, [], [], KIdle, seq(n, _ => Idle(0, [])), false,
          Calls({}, []), Log([], [], [], [], [], [], [], {}, 0, false, maxStorage))
  }

  // ---- Events -------------------------------------------------------------------------

  datatype Request =
    | Write(buf: seq<Byte>, allocOk: bool)
    | Read(len: nat)
    | SetDelay(arg: int)
    | Revoke

  datatype Event =
    | Tick
    | SetLimits(maxMessage: U32, maxStorage: U32)
    | Expire(w: nat)
    | Call(t: nat, req: Request)
    | Step(t: nat, ok: bool)        // `ok`: the user copy or allocation in this step succeeds
    | WorkerStep

  predicate CanStep(s: State, t: nat)
    requires t < |s.threads|
  {
    match s.threads[t]
    case Idle(_, _) => false
    case Writing(WDown(_)) => s.messageSem.Free?
    case Writing(WDownPending(_)) => s.pendingSem.Free?
    case Writing(WDownWq(_)) => s.wqSem.Free?
    case Writing(_) => true
    case Reading(RDown(_)) => s.messageSem.Free?
    case Reading(_) => true
    case Flushing(FDownPending, _) => s.pendingSem.Free?
    case Flushing(FDownMessage, _) => s.messageSem.Free?
    case Flushing(FDownWq, _) => s.wqSem.Free?
    case Flushing(FWait(w, _), _) => w !in s.ready && !Runs(s.worker, w)
    case Flushing(FDrain, _) => s.worker.KIdle? && s.ready == []
    case Flushing(_, _) => true
  }

  predicate WorkerCanStep(s: State) {
    match s.worker
    case KIdle => s.ready != []
    case KDownPending(_) => s.pendingSem.Free?
    case KDownMessage(_, _) => s.messageSem.Free?
    case _ => true
  }

  predicate Runs(k: WorkerPc, w: nat) { !k.KIdle? && k.w == w }

  /** When the timer of work `w` expires. */
  function Due(log: Log, w: nat): nat
    requires w < |log.queued|
  {
    log.queued[w].at + log.queued[w].delay
  }

  predicate Enabled(s: State, e: Event) {
    && !s.fault
    && match e
       case Tick => true
       case SetLimits(_, _) => true
       case Expire(w) => w in s.armed && w < |s.log.queued| && Due(s.log, w) <= s.now
       case Call(t, _) => t < |s.threads| && s.threads[t].Idle?
       case Step(t, _) => t < |s.threads| && CanStep(s, t)
       case WorkerStep => WorkerCanStep(s)
  }

  function Apply(s: State, e: Event): State
    requires Enabled(s, e)
  {
    match e
    case Tick => s.(now := s.now + 1)
    case SetLimits(mm, ms) =>
      s.(maxMessage := mm, maxStorage := ms, log := s.log.(maxEver := Max(s.log.maxEver, ms)))
    case Expire(w) => s.(armed := s.armed - {w}, ready := s.ready + [w])
    case Call(t, req) => Begin(s, t, req)
    case Step(t, ok) =>
      (match s.threads[t]
       case Writing(_) => WriteStep(s, t, ok)
       case Reading(_) => ReadStep(s, t, ok)
       case Flushing(_, _) => FlushStep(s, t))
    case WorkerStep => WorkStep(s)
  }

  function Goto(s: State, t: nat, pc: Pc): State
    requires t < |s.threads|
  {
    s.(threads := s.threads[t := pc])
  }

  function Return(s: State, t: nat, ret: int): State
    requires t < |s.threads|
  {
    Goto(s, t, Idle(ret, []))
  }

  function Fault(s: State): State { s.(fault := true) }

  // ---- System calls: the code before the first semaphore ------------------------------

  function Begin(s: State, t: nat, req: Request): State
    requires t < |s.threads|
  {
    match req
    case Write(buf, allocOk) =>
      if |buf| == 0 || !allocOk then Return(s, t, -1)
      else Goto(s, t, Writing(WDown(Prefix(buf, s.maxMessage))))
    case Read(len) => Goto(s, t, Reading(RDown(len)))
    case SetDelay(arg) =>
      if arg < 0 then Return(s, t, -1)
      else Return(s.(dev := s.dev.(delay := arg)), t, 0)
    case Revoke => Goto(s, t, Flushing(FDownPending, s.calls.completed))
  }

  // ---- group_write and add_delayed_work -----------------------------------------------

  function Complete(s: State, t: nat, m: Message): State
    requires t < |s.threads|
  {
    Return(s.(calls := s.calls.(completed := s.calls.completed + {m})), t, |m.data|)
  }

  function WriteStep(s: State, t: nat, ok: bool): State
    requires t < |s.threads| && s.threads[t].Writing? && CanStep(s, t)
  {
    match s.threads[t].wr
    case WDown(data) => Goto(s.(messageSem := Held(User(t))), t, Writing(WAccept(data)))
    case WAccept(data) => AcceptStep(s, t, data, ok)
    case WDownPending(m) => Goto(s.(pendingSem := Held(User(t))), t, Writing(WPend(m)))
    case WPend(m) =>
      Goto(s.(dev := Pend(s.dev, m), pendingSem := Free,
              log := s.log.(pended := s.log.pended + [Stamp(m, s.now)])), t, Writing(WAlloc(m)))
    case WAlloc(m) =>
      if !s.wqLive || !ok then Complete(s.(log := s.log.(unqueued := s.log.unqueued + 1)), t, m)
      else Goto(s, t, Writing(WDownWq(m)))
    case WDownWq(m) => Goto(s.(wqSem := Held(User(t))), t, Writing(WQueue(m)))
    case WQueue(m) => QueueStep(s, t, m)
    case WLink(m, w) => LinkStep(s, t, m, w)
  }

  /** The critical section of group_write. */
  function AcceptStep(s: State, t: nat, data: seq<Byte>, ok: bool): State
    requires t < |s.threads|
  {
    if s.dev.messagesNumber >= s.maxStorage then Return(s.(messageSem := Free), t, 0)
    else if !ok then Return(s.(messageSem := Free), t, -1)
    else
      var m := Message(|s.log.accepted|, data);
      if s.dev.delay != 0 then AdmitLater(s, t, m) else AdmitNow(s, t, m)
  }

  /** With a delay the message is counted now and pended after `up(message_sem)`. */
  function AdmitLater(s: State, t: nat, m: Message): State
    requires t < |s.threads|
  {
    Goto(s.(messageSem := Free, dev := Count(s.dev), log := s.log.(accepted := s.log.accepted + [m])),
         t, Writing(WDownPending(m)))
  }

  function AdmitNow(s: State, t: nat, m: Message): State
    requires t < |s.threads|
  {
    Complete(s.(messageSem := Free, dev := Publish(Count(s.dev), m),
                log := s.log.(accepted := s.log.accepted + [m],
                              published := s.log.published + [Publication(m, Direct, s.now)])), t, m)
  }

  /** queue_delayed_work reads the delay again; zero queues the work at once. */
  function QueueStep(s: State, t: nat, m: Message): State
    requires t < |s.threads|
  {
    var w := |s.works|;
    var s1 := s.(works := s.works + [Queued],
                 log := s.log.(queued := s.log.queued + [Queueing(s.now, s.dev.delay)]));
    Goto(if s.dev.delay == 0 then s1.(ready := s.ready + [w]) else s1.(armed := s.armed + {w}),
         t, Writing(WLink(m, w)))
  }

  function LinkStep(s: State, t: nat, m: Message, w: nat): State
    requires t < |s.threads|
  {
    if w >= |s.works| || s.works[w].Freed? then Fault(s)
    else
      Complete(s.(dev := s.dev.(delayList := [w] + s.dev.delayList),
                  works := s.works[w := Linked], wqSem := Free), t, m)
  }

  // ---- group_read ---------------------------------------------------------------------

  function ReadStep(s: State, t: nat, ok: bool): State
    requires t < |s.threads| && s.threads[t].Reading? && CanStep(s, t)
  {
    match s.threads[t].rd
    case RDown(len) => Goto(s.(messageSem := Held(User(t))), t, Reading(RTake(len)))
    case RTake(len) =>
      if s.dev.messageList == [] then Return(s.(messageSem := Free), t, 0)
      else
        var m := Last(s.dev.messageList);
        Goto(s.(dev := TakeOldest(s.dev), messageSem := Free,
                log := s.log.(removed := s.log.removed + [m])), t, Reading(RCopy(m, len)))
    case RCopy(m, len) =>
      if ok then
        var out := Prefix(m.data, len);
        Goto(s.(log := s.log.(consumed := s.log.consumed + [m])), t, Idle(|out|, out))
      else Return(s.(log := s.log.(dropped := s.log.dropped + [m])), t, -1)
  }

  // ---- fflush_workqueue ---------------------------------------------------------------

  function FlushReturn(s: State, t: nat, before: set<Message>): State
    requires t < |s.threads|
  {
    Return(s.(calls := s.calls.(flushes := s.calls.flushes + [before])), t, 0)
  }

  function FlushStep(s: State, t: nat): State
    requires t < |s.threads| && s.threads[t].Flushing? && CanStep(s, t)
  {
    var before := s.threads[t].before;
    match s.threads[t].fl
    case FDownPending => Goto(s.(pendingSem := Held(User(t))), t, Flushing(FDownMessage, before))
    case FDownMessage => Goto(s.(messageSem := Held(User(t))), t, Flushing(FSplice, before))
    case FSplice =>
      var s1 := s.(dev := Splice(s.dev), pendingSem := Free, messageSem := Free,
                   log := s.log.(published := s.log.published + Publications(ReadOrder(s.dev.pendingList), Spliced, s.now),
                                 flushed := true));
      if !s.wqLive then FlushReturn(s1, t, before) else Goto(s1, t, Flushing(FDownWq, before))
    case FDownWq => Goto(s.(wqSem := Held(User(t))), t, Flushing(FBegin, before))
    case FBegin =>
      Goto(s.(dev := s.dev.(flushing := true)), t,
           Flushing(if s.dev.delayList == [] then FDrain else FLoop(At(Last(s.dev.delayList))), before))
    case FLoop(at) => TraverseStep(s, t, at, before)
    case FKick(w, next) =>
      if w >= |s.works| || s.works[w].Freed? then Fault(s)
      else
        Goto(if w in s.armed then s.(armed := s.armed - {w}, ready := s.ready + [w]) else s,
             t, Flushing(FWait(w, next), before))
    case FWait(_, next) => Goto(s, t, Flushing(FLoop(next), before))
    case FDrain => Goto(s, t, Flushing(FEnd, before))
    case FEnd => FlushReturn(s.(dev := s.dev.(flushing := false), wqSem := Free), t, before)
  }

  /** One iteration of list_for_each_prev_safe: the predecessor is read before list_del. */
  function TraverseStep(s: State, t: nat, at: Cursor, before: set<Message>): State
    requires t < |s.threads|
  {
    match at
    case Head => Goto(s, t, Flushing(FDrain, before))
    case At(w) =>
      if w >= |s.works| || !s.works[w].Linked? || w !in s.dev.delayList then Fault(s)
      else
        var i := IndexOf(s.dev.delayList, w);
        var next := if i == 0 then Head else At(s.dev.delayList[i - 1]);
        Goto(s.(dev := s.dev.(delayList := Without(s.dev.delayList, w)), works := s.works[w := Unlinked]),
             t, Flushing(FKick(w, next), before))
  }

  // ---- delayed_work_fun on the single worker ------------------------------------------

  function WorkStep(s: State): State
    requires WorkerCanStep(s)
  {
    match s.worker
    case KIdle => s.(worker := KDownPending(s.ready[0]), ready := s.ready[1..])
    case KDownPending(w) => s.(pendingSem := Held(Worker), worker := KTake(w))
    case KTake(w) =>
      var s1 := s.(pendingSem := Free, log := s.log.(fired := s.log.fired + {w}));
      if s.dev.pendingList == [] then s1.(worker := KFlag(w))
      else s1.(dev := TakePending(s.dev), worker := KDownMessage(w, Last(s.dev.pendingList)))
    case KDownMessage(w, m) => s.(messageSem := Held(Worker), worker := KPublish(w, m))
    case KPublish(w, m) =>
      s.(dev := Publish(s.dev, m), messageSem := Free, worker := KFlag(w),
         log := s.log.(published := s.log.published + [Publication(m, Matured, s.now)]))
    case KFlag(w) => s.(worker := if s.dev.flushing then KFree(w) else KUnlink(w))
    case KUnlink(w) =>
      if w >= |s.works| || s.works[w].Unlinked? || s.works[w].Freed? then Fault(s)
      else
        s.(dev := if w in s.dev.delayList then s.dev.(delayList := Without(s.dev.delayList, w)) else s.dev,
           works := s.works[w := Unlinked], worker := KFree(w))
    case KFree(w) =>
      if w >= |s.works| || s.works[w].Linked? || s.works[w].Freed? then Fault(s)
      else s.(works := s.works[w := Freed], worker := KIdle)
  }

  // ---- Runs ---------------------------------------------------------------------------

  /** `es` leads from `s` to `s'`, each event being enabled when it happens. */
  ghost predicate IsRun(s: State, es: seq<Event>, s': State)
    decreases es
  {
    if es == [] then s == s'
    else Enabled(s, es[0]) && IsRun(Apply(s, es[0]), es[1..], s')
  }

  ghost predicate Reachable(s: State) {
    exists n: nat, wqLive: bool, mm: U32, ms: U32, es: seq<Event> :: IsRun(Init(n, wqLive, mm, ms), es, s)
  }
}
