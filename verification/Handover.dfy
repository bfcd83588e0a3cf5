/** The hand-over of works between writers, the worker and a flush: who unlinks and who frees
    a `struct work`. */
module Handover {
  import opened Lists
  import opened Model
  import opened Threads
  import opened Locks

  // ---- The condition on runs -----------------------------------------------------------

  /** No work runs before it is linked; when a traversal begins no timer-fired work is queued, and
      one in progress is past harming it; no timer expires during a traversal. */
  datatype Clause = LinkedFirst | CalmBegin | QuietTimers

  ghost predicate Keeps(c: Clause, s: State, e: Event)
    requires Enabled(s, e)
  {
    match c
    case LinkedFirst =>
      e.WorkerStep? && s.worker.KIdle? ==> s.ready[0] < |s.works| && !s.works[s.ready[0]].Queued?
    case CalmBegin =>
      e.Step? && s.threads[e.t].Flushing? && s.threads[e.t].fl.FBegin? ==>
        s.ready == [] && Harmless(PhaseOf(s.worker), s.dev.delayList)
    case QuietTimers => e.Expire? ==> !s.dev.flushing
  }

  /** Works do not overlap a flush traversal harmfully, and no work runs before it is linked. */
  ghost predicate Disciplined(s: State, e: Event)
    requires Enabled(s, e)
  {
    Keeps(LinkedFirst, s, e) && Keeps(CalmBegin, s, e) && Keeps(QuietTimers, s, e)
  }

  ghost predicate IsDisciplinedRun(s: State, es: seq<Event>, s': State)
    decreases es
  {
    if es == [] then s == s'
    else Enabled(s, es[0]) && Disciplined(s, es[0]) && IsDisciplinedRun(Apply(s, es[0]), es[1..], s')
  }

  // ---- The part of the state that concerns works ---------------------------------------

  /** What the holder of `wq_sem` is doing. */
  datatype Role =
    | Nobody
    | Entrant
    | Linker(w: nat)
    | Walker(at: Cursor)
    | Kicker(w: nat, next: Cursor)
    | Waiter(w: nat, next: Cursor)
    | Drainer
    | Closer

  function RoleOf(pc: Pc): Role {
    match pc
    case Writing(WQueue(_)) => Entrant
    case Writing(WLink(_, w)) => Linker(w)
    case Flushing(FBegin, _) => Entrant
    case Flushing(FLoop(at), _) => Walker(at)
    case Flushing(FKick(w, next), _) => Kicker(w, next)
    case Flushing(FWait(w, next), _) => Waiter(w, next)
    case Flushing(FDrain, _) => Drainer
    case Flushing(FEnd, _) => Closer
    case _ => Nobody
  }

  datatype Phase = Resting | Running(w: nat) | Unlinking(w: nat) | Freeing(w: nat)

  function PhaseOf(k: WorkerPc): Phase {
    match k
    case KIdle => Resting
    case KUnlink(w) => Unlinking(w)
    case KFree(w) => Freeing(w)
    case _ => Running(k.w)
  }

  /** One of the last two entries: the one a traversal begins with, or the next it remembers. */
  predicate NearTail(l: seq<nat>, w: nat) {
    (|l| >= 1 && l[|l| - 1] == w) || (|l| >= 2 && l[|l| - 2] == w)
  }

  /** What the worker may be doing when a traversal begins: nothing, freeing a work, or unlinking
      one that the traversal does not meet before it waits for the worker. */
  predicate Harmless(p: Phase, l: seq<nat>) {
    match p
    case Resting => true
    case Freeing(_) => true
    case Unlinking(w) => !NearTail(l, w)
    case Running(_) => false
  }

  datatype Yard = Yard(
    list: seq<nat>, works: seq<WorkState>, armed: set<nat>, ready: seq<nat>,
    phase: Phase, flushing: bool, role: Role)

  ghost function YardOf(s: State): Yard {
    Yard(s.dev.delayList, s.works, s.armed, s.ready, PhaseOf(s.worker), s.dev.flushing,
         if s.wqSem.Held? && s.wqSem.holder.User? && s.wqSem.holder.tid < |s.threads|
         then RoleOf(s.threads[s.wqSem.holder.tid]) else Nobody)
  }

  // ---- The invariant -------------------------------------------------------------------

  predicate Is(y: Yard, w: nat, st: WorkState) { w < |y.works| && y.works[w] == st }

  function Tail(l: seq<nat>): Cursor { if l == [] then Head else At(Last(l)) }

  /** `delay_list` holds exactly the linked works, once each. */
  ghost predicate Listed(y: Yard) {
    && Distinct(y.list)
    && (forall w :: w in y.list <==> Is(y, w, Linked))
  }

  /** A work not yet run is queued by the linker, linked, or in the hands of the flush. */
  ghost predicate Waiting(y: Yard) {
    && Distinct(y.ready) && y.armed !! (set w | w in y.ready)
    && (forall w :: w in y.armed ==>
          Is(y, w, Linked) || (Is(y, w, Queued) && y.role == Linker(w))
          || (Is(y, w, Unlinked) && y.role.Kicker? && y.role.w == w))
    && (forall w :: w in y.ready ==>
          (Is(y, w, Linked) && !y.flushing) || (Is(y, w, Queued) && y.role == Linker(w))
          || (Is(y, w, Unlinked) && y.role.Waiter? && y.role.w == w))
    && (forall w :: Is(y, w, Linked) ==>
          w in y.armed || w in y.ready || y.phase == Running(w) || y.phase == Unlinking(w))
    && (forall w :: Is(y, w, Queued) ==> w in y.armed || w in y.ready)
  }

  /** The worker unlinks a work while a traversal, once begun, has not come near it. */
  ghost predicate Ahead(y: Yard, w: nat) {
    match y.role
    case Walker(_) => !NearTail(y.list, w)
    case Kicker(_, _) => y.list != [] && w != Last(y.list)
    case Waiter(v, _) => y.list != [] && w != Last(y.list) && v in y.ready
    case _ => false
  }

  /** The worker frees the work of the traversal, or one unlinked before the traversal began. */
  ghost predicate Released(y: Yard, w: nat) {
    match y.role
    case Waiter(v, _) => v == w || v in y.ready
    case Closer => false
    case _ => true
  }

  /** The worker's own work. */
  ghost predicate Working(y: Yard) {
    match y.phase
    case Resting => true
    case Running(w) =>
      && w !in y.armed && w !in y.ready
      && ((Is(y, w, Linked) && !y.flushing) || (Is(y, w, Unlinked) && y.role.Waiter? && y.role.w == w))
    case Unlinking(w) => w !in y.armed && w !in y.ready && Is(y, w, Linked) && (y.flushing ==> Ahead(y, w))
    case Freeing(w) => w !in y.armed && w !in y.ready && Is(y, w, Unlinked) && (y.flushing ==> Released(y, w))
  }

  /** The holder of `wq_sem` knows the state of the work it handles and of its traversal. */
  ghost predicate Roles(y: Yard) {
    && (y.flushing <==> y.role.Walker? || y.role.Kicker? || y.role.Waiter? || y.role.Drainer? || y.role.Closer?)
    && (forall w :: Is(y, w, Queued) <==> y.role == Linker(w))
    && match y.role
       case Walker(at) => at == Tail(y.list) && y.ready == [] && !y.phase.Running?
       case Kicker(w, next) =>
         next == Tail(y.list) && y.ready == [] && !y.phase.Running? && w in y.armed && Is(y, w, Unlinked)
       case Waiter(w, next) => next == Tail(y.list) && (y.ready == [] || y.ready == [w])
       case Drainer => y.list == [] && y.ready == [] && (y.phase.Resting? || y.phase.Freeing?)
       case Closer => y.list == [] && y.ready == [] && y.phase == Resting
       case _ => true
  }

  /** Every work is where it can still be freed exactly once, or has been. */
  ghost predicate Accounted(y: Yard) {
    forall w :: Is(y, w, Unlinked) ==>
      y.phase == Freeing(w) || (y.role.Kicker? && y.role.w == w)
      || (y.role.Waiter? && y.role.w == w && (w in y.ready || y.phase == Running(w)))
  }

  ghost predicate Tidy(y: Yard) { Listed(y) && Waiting(y) && Working(y) && Roles(y) && Accounted(y) }

  // ---- Moves ---------------------------------------------------------------------------

  lemma Enters(y: Yard)
    requires Tidy(y) && y.role == Nobody
    ensures Tidy(y.(role := Entrant))
  {
  }

  lemma Queues(y: Yard, now: bool)
    requires Tidy(y) && y.role == Entrant
    ensures var w := |y.works|;
            var y1 := y.(works := y.works + [Queued], role := Linker(w));
            Tidy(if now then y1.(ready := y.ready + [w]) else y1.(armed := y.armed + {w}))
  {
    var w := |y.works|;
    var y1 := y.(works := y.works + [Queued], role := Linker(w));
    var y' := if now then y1.(ready := y.ready + [w]) else y1.(armed := y.armed + {w});
    assert forall v: nat, st :: v < |y.works| ==> (Is(y', v, st) <==> Is(y, v, st));
  }

  lemma Links(y: Yard, w: nat)
    requires Tidy(y) && y.role == Linker(w)
    ensures Is(y, w, Queued)
    ensures Tidy(y.(works := y.works[w := Linked], list := [w] + y.list, role := Nobody))
  {
    assert Is(y, w, Queued);
    var y' := y.(works := y.works[w := Linked], list := [w] + y.list, role := Nobody);
    assert forall v, st :: v != w ==> (Is(y', v, st) <==> Is(y, v, st));
    assert w !in y.list;
    assert w in y.armed || w in y.ready;
  }

  /** A traversal removes works from the tail. */
  lemma LastOf(l: seq<nat>)
    requires Distinct(l) && l != []
    ensures IndexOf(l, Last(l)) == |l| - 1 && Without(l, Last(l)) == l[..|l| - 1]
  {
  }

  lemma Begins(y: Yard)
    requires Tidy(y) && y.role == Entrant && Harmless(y.phase, y.list) && y.ready == []
    ensures Tidy(y.(flushing := true, role := if y.list == [] then Drainer else Walker(At(Last(y.list)))))
  {
    assert y.phase.Unlinking? ==> y.phase.w in y.list;
  }

  lemma Walks(y: Yard, w: nat)
    requires Tidy(y) && y.role == Walker(At(w))
    ensures y.list != [] && w == Last(y.list) && Is(y, w, Linked)
    ensures var rest := y.list[..|y.list| - 1];
            Tidy(y.(works := y.works[w := Unlinked], list := rest, role := Kicker(w, Tail(rest))))
  {
    var rest := y.list[..|y.list| - 1];
    assert w in y.list;
    var y' := y.(works := y.works[w := Unlinked], list := rest, role := Kicker(w, Tail(rest)));
    assert forall v, st :: v != w ==> (Is(y', v, st) <==> Is(y, v, st));
    assert forall v :: v in rest <==> v in y.list && v != w;
    assert y.phase.Unlinking? ==> y.phase.w in y.list;
  }

  lemma WalkEnds(y: Yard)
    requires Tidy(y) && y.role == Walker(Head)
    ensures Tidy(y.(role := Drainer))
  {
    assert forall w :: Is(y, w, Linked) ==> w in y.list;
  }

  lemma Drains(y: Yard)
    requires Tidy(y) && y.role == Drainer && y.phase == Resting
    ensures Tidy(y.(role := Closer))
  {
  }

  lemma Kicks(y: Yard, w: nat, next: Cursor)
    requires Tidy(y) && y.role == Kicker(w, next)
    ensures w in y.armed && Is(y, w, Unlinked)
    ensures Tidy(y.(armed := y.armed - {w}, ready := y.ready + [w], role := Waiter(w, next)))
  {
  }

  lemma Waits(y: Yard, w: nat, next: Cursor)
    requires Tidy(y) && y.role == Waiter(w, next) && w !in y.ready && (y.phase == Resting || y.phase.w != w)
    ensures Tidy(y.(role := Walker(next)))
  {
  }

  lemma Closes(y: Yard)
    requires Tidy(y) && y.role == Closer
    ensures y.list == [] && Tidy(y.(flushing := false, role := Nobody))
  {
  }

  lemma Expires(y: Yard, w: nat)
    requires Tidy(y) && !y.flushing && w in y.armed
    ensures Tidy(y.(armed := y.armed - {w}, ready := y.ready + [w]))
  {
  }

  lemma Starts(y: Yard)
    requires Tidy(y) && y.phase == Resting && y.ready != [] && !Is(y, y.ready[0], Queued)
    ensures Tidy(y.(phase := Running(y.ready[0]), ready := y.ready[1..]))
  {
    assert y.ready[0] in y.ready;
    assert forall w :: w in y.ready <==> w == y.ready[0] || w in y.ready[1..];
  }

  lemma Flags(y: Yard, w: nat)
    requires Tidy(y) && y.phase == Running(w)
    ensures Tidy(y.(phase := if y.flushing then Freeing(w) else Unlinking(w)))
  {
  }

  lemma SameTail(l: seq<nat>, w: nat)
    requires Distinct(l) && w in l && w != Last(l)
    ensures Tail(Without(l, w)) == Tail(l)
  {
  }

  lemma Unlinks(y: Yard, w: nat)
    requires Tidy(y) && y.phase == Unlinking(w)
    ensures Is(y, w, Linked) && w in y.list
    ensures Tidy(y.(works := y.works[w := Unlinked], list := Without(y.list, w), phase := Freeing(w)))
  {
    assert w in y.list;
    if w != Last(y.list) {
      SameTail(y.list, w);
    }
    var y' := y.(works := y.works[w := Unlinked], list := Without(y.list, w), phase := Freeing(w));
    assert forall v, st :: v != w ==> (Is(y', v, st) <==> Is(y, v, st));
    assert forall v :: v in y'.list <==> v in y.list && v != w;
  }

  lemma Frees(y: Yard, w: nat)
    requires Tidy(y) && y.phase == Freeing(w)
    ensures Is(y, w, Unlinked)
    ensures Tidy(y.(works := y.works[w := Freed], phase := Resting))
  {
    var y' := y.(works := y.works[w := Freed], phase := Resting);
    assert forall v, st :: v != w ==> (Is(y', v, st) <==> Is(y, v, st));
  }

  // ---- Every disciplined step is such a move -------------------------------------------

  lemma RoleIs(s: State, t: nat)
    requires Locked(s) && t < |s.threads|
    ensures InWq(s.threads[t]) ==> YardOf(s).role == RoleOf(s.threads[t])
    ensures s.wqSem.Free? ==> YardOf(s).role == Nobody
  {
  }

  /** `s'` has the yard of `s` changed to `y`, and no work was misused. */
  ghost predicate Yields(s: State, s': State, y: Yard) { YardOf(s') == y && s'.fault == s.fault }

  lemma OtherRole(s: State, s': State, t: nat)
    requires Locked(s) && t < |s.threads| && !InWq(s.threads[t])
    requires |s'.threads| == |s.threads| && s'.threads == s.threads[t := s'.threads[t]] && s'.wqSem == s.wqSem
    ensures YardOf(s').role == YardOf(s).role
  {
  }

  lemma AcceptYard(s: State, t: nat, data: seq<Byte>, ok: bool)
    requires Locked(s) && t < |s.threads| && s.threads[t] == Writing(WAccept(data))
    ensures Yields(s, AcceptStep(s, t, data, ok), YardOf(s))
  {
    OneAcceptor(s, t, data, ok);
    AcceptSame(s, t, data, ok);
    OtherRole(s, AcceptStep(s, t, data, ok), t);
  }

  lemma AcceptSame(s: State, t: nat, data: seq<Byte>, ok: bool)
    requires t < |s.threads|
    ensures var s' := AcceptStep(s, t, data, ok);
            && s'.wqSem == s.wqSem && s'.fault == s.fault && s'.works == s.works && s'.armed == s.armed
            && s'.ready == s.ready && s'.worker == s.worker
            && s'.dev.delayList == s.dev.delayList && s'.dev.flushing == s.dev.flushing
  {
    var m := Message(|s.log.accepted|, data);
    assert AdmitNow(s, t, m).dev == Publish(Count(s.dev), m);
    assert AdmitLater(s, t, m).dev == Count(s.dev);
  }

  lemma WriteQuiet(s: State, t: nat, ok: bool)
    requires Locked(s) && t < |s.threads| && s.threads[t].Writing? && CanStep(s, t)
    requires !InWq(s.threads[t]) && !s.threads[t].wr.WDownWq?
    ensures Yields(s, WriteStep(s, t, ok), YardOf(s))
  {
    match s.threads[t].wr
    case WAccept(data) => AcceptYard(s, t, data, ok);
    case _ =>
  }

  lemma QueueYard(s: State, t: nat, m: Message)
    requires Locked(s) && t < |s.threads| && s.threads[t] == Writing(WQueue(m))
    ensures var y, w := YardOf(s), |s.works|;
            var y1 := y.(works := y.works + [Queued], role := Linker(w));
            Yields(s, QueueStep(s, t, m),
                   if s.dev.delay == 0 then y1.(ready := y.ready + [w]) else y1.(armed := y.armed + {w}))
  {
  }

  lemma LinkYard(s: State, t: nat, m: Message, w: nat)
    requires Locked(s) && t < |s.threads| && s.threads[t] == Writing(WLink(m, w)) && Is(YardOf(s), w, Queued)
    ensures var y := YardOf(s);
            Yields(s, LinkStep(s, t, m, w), y.(works := y.works[w := Linked], list := [w] + y.list, role := Nobody))
  {
  }

  lemma DownWqYard(s: State, t: nat, ok: bool)
    requires Locked(s) && t < |s.threads| && s.wqSem.Free?
    ensures s.threads[t].Writing? && s.threads[t].wr.WDownWq? ==>
              Yields(s, WriteStep(s, t, ok), YardOf(s).(role := Entrant))
    ensures s.threads[t].Flushing? && s.threads[t].fl.FDownWq? ==>
              Yields(s, FlushStep(s, t), YardOf(s).(role := Entrant))
  {
  }

  /** The yard after a step of a write, given what the invariant says about its work. */
  ghost function WriteYard(s: State, pc: WritePc): Yard
    requires pc.WLink? ==> Is(YardOf(s), pc.w, Queued)
  {
    var y, n := YardOf(s), |s.works|;
    match pc
    case WDownWq(_) => y.(role := Entrant)
    case WQueue(_) =>
      var y1 := y.(works := y.works + [Queued], role := Linker(n));
      if s.dev.delay == 0 then y1.(ready := y.ready + [n]) else y1.(armed := y.armed + {n})
    case WLink(_, w) => y.(works := y.works[w := Linked], list := [w] + y.list, role := Nobody)
    case _ => y
  }

  lemma WriteYields(s: State, t: nat, ok: bool)
    requires Locked(s) && t < |s.threads| && s.threads[t].Writing? && CanStep(s, t)
    requires s.threads[t].wr.WLink? ==> Is(YardOf(s), s.threads[t].wr.w, Queued)
    ensures Yields(s, WriteStep(s, t, ok), WriteYard(s, s.threads[t].wr))
  {
    match s.threads[t].wr
    case WDownWq(_) => DownWqYard(s, t, ok);
    case WQueue(m) => QueueYard(s, t, m);
    case WLink(m, w) => LinkYard(s, t, m, w);
    case _ => WriteQuiet(s, t, ok);
  }

  lemma WriteTidy(s: State, t: nat, ok: bool)
    requires Locked(s) && t < |s.threads| && s.threads[t].Writing? && CanStep(s, t) && Tidy(YardOf(s))
    ensures Tidy(YardOf(WriteStep(s, t, ok))) && WriteStep(s, t, ok).fault == s.fault
  {
    var y, pc := YardOf(s), s.threads[t].wr;
    RoleIs(s, t);
    match pc {
      case WDownWq(_) => Enters(y);
      case WQueue(_) => Queues(y, s.dev.delay == 0);
      case WLink(_, w) => Links(y, w);
      case _ =>
    }
    WriteYields(s, t, ok);
  }

  lemma FlushQuiet(s: State, t: nat)
    requires Locked(s) && t < |s.threads| && s.threads[t].Flushing? && CanStep(s, t)
    requires s.threads[t].fl.FDownPending? || s.threads[t].fl.FDownMessage? || s.threads[t].fl.FSplice?
    ensures Yields(s, FlushStep(s, t), YardOf(s))
  {
  }

  /** What the invariant says about the work in the hands of a flush. */
  ghost predicate FlushFits(s: State, pc: FlushPc) {
    var y := YardOf(s);
    match pc
    case FLoop(At(w)) => Distinct(y.list) && y.list != [] && w == Last(y.list) && Is(y, w, Linked)
    case FKick(w, _) => w in y.armed && Is(y, w, Unlinked)
    case _ => true
  }

  /** The yard after a step of a flush. */
  ghost function FlushYard(s: State, pc: FlushPc): Yard
    requires FlushFits(s, pc)
  {
    var y := YardOf(s);
    match pc
    case FDownWq => y.(role := Entrant)
    case FBegin => y.(flushing := true, role := if y.list == [] then Drainer else Walker(At(Last(y.list))))
    case FLoop(Head) => y.(role := Drainer)
    case FLoop(At(w)) =>
      var rest := y.list[..|y.list| - 1];
      y.(works := y.works[w := Unlinked], list := rest, role := Kicker(w, Tail(rest)))
    case FKick(w, next) => y.(armed := y.armed - {w}, ready := y.ready + [w], role := Waiter(w, next))
    case FWait(_, next) => y.(role := Walker(next))
    case FDrain => y.(role := Closer)
    case FEnd => y.(flushing := false, role := Nobody)
    case _ => y
  }

  lemma WalkYields(s: State, t: nat, w: nat, before: set<Message>)
    requires Locked(s) && t < |s.threads| && s.threads[t] == Flushing(FLoop(At(w)), before)
    requires FlushFits(s, FLoop(At(w)))
    ensures Yields(s, TraverseStep(s, t, At(w), before), FlushYard(s, FLoop(At(w))))
  {
    LastOf(s.dev.delayList);
  }

  lemma HolderYields(s: State, t: nat)
    requires Locked(s) && t < |s.threads| && s.threads[t].Flushing? && CanStep(s, t) && InWq(s.threads[t])
    requires !s.threads[t].fl.FLoop? && FlushFits(s, s.threads[t].fl)
    ensures Yields(s, FlushStep(s, t), FlushYard(s, s.threads[t].fl))
  {
  }

  lemma FlushYields(s: State, t: nat)
    requires Locked(s) && t < |s.threads| && s.threads[t].Flushing? && CanStep(s, t)
    requires FlushFits(s, s.threads[t].fl)
    ensures Yields(s, FlushStep(s, t), FlushYard(s, s.threads[t].fl))
  {
    match s.threads[t].fl
    case FDownWq => DownWqYard(s, t, true);
    case FLoop(At(w)) => WalkYields(s, t, w, s.threads[t].before);
    case FLoop(Head) =>
    case FDownPending => FlushQuiet(s, t);
    case FDownMessage => FlushQuiet(s, t);
    case FSplice => FlushQuiet(s, t);
    case _ => HolderYields(s, t);
  }

  lemma FlushTidy(s: State, t: nat)
    requires Locked(s) && t < |s.threads| && s.threads[t].Flushing? && CanStep(s, t) && Tidy(YardOf(s))
    requires s.threads[t].fl.FBegin? ==> s.ready == [] && Harmless(PhaseOf(s.worker), s.dev.delayList)
    ensures Tidy(YardOf(FlushStep(s, t))) && FlushStep(s, t).fault == s.fault
  {
    var y, pc := YardOf(s), s.threads[t].fl;
    RoleIs(s, t);
    match pc {
      case FDownWq => Enters(y);
      case FBegin => Begins(y);
      case FLoop(Head) => WalkEnds(y);
      case FLoop(At(w)) => Walks(y, w);
      case FKick(w, next) => Kicks(y, w, next);
      case FWait(w, next) => Waits(y, w, next);
      case FDrain => Drains(y);
      case FEnd => Closes(y);
      case _ =>
    }
    FlushYields(s, t);
  }

  /** What the invariant says about the worker's own work. */
  ghost predicate WorkerFits(s: State) {
    var y := YardOf(s);
    match s.worker
    case KUnlink(w) => Is(y, w, Linked) && w in y.list
    case KFree(w) => Is(y, w, Unlinked)
    case _ => true
  }

  ghost function WorkerYard(s: State): Yard
    requires WorkerFits(s) && WorkerCanStep(s)
  {
    var y := YardOf(s);
    match s.worker
    case KIdle => y.(phase := Running(y.ready[0]), ready := y.ready[1..])
    case KFlag(w) => y.(phase := if y.flushing then Freeing(w) else Unlinking(w))
    case KUnlink(w) => y.(works := y.works[w := Unlinked], list := Without(y.list, w), phase := Freeing(w))
    case KFree(w) => y.(works := y.works[w := Freed], phase := Resting)
    case _ => y
  }

  lemma UnlinkYields(s: State, w: nat)
    requires s.worker == KUnlink(w) && WorkerFits(s)
    ensures Yields(s, WorkStep(s), WorkerYard(s))
  {
  }

  lemma TakeYields(s: State, w: nat)
    requires s.worker == KTake(w)
    ensures Yields(s, WorkStep(s), YardOf(s))
  {
  }

  lemma WorkerYields(s: State)
    requires WorkerCanStep(s) && WorkerFits(s)
    ensures Yields(s, WorkStep(s), WorkerYard(s))
  {
    match s.worker
    case KUnlink(w) => UnlinkYields(s, w);
    case KTake(w) => TakeYields(s, w);
    case _ =>
  }

  lemma WorkerTidy(s: State)
    requires WorkerCanStep(s) && Tidy(YardOf(s))
    requires s.worker.KIdle? ==> s.ready[0] < |s.works| && !s.works[s.ready[0]].Queued?
    ensures Tidy(YardOf(WorkStep(s))) && WorkStep(s).fault == s.fault
  {
    var y := YardOf(s);
    match s.worker {
      case KIdle => Starts(y);
      case KFlag(w) => Flags(y, w);
      case KUnlink(w) => Unlinks(y, w);
      case KFree(w) => Frees(y, w);
      case _ =>
    }
    WorkerYields(s);
  }

  lemma ReadYields(s: State, t: nat, ok: bool)
    requires t < |s.threads| && s.threads[t].Reading? && CanStep(s, t) && Locked(s)
    ensures Yields(s, ReadStep(s, t, ok), YardOf(s))
  {
    OtherRole(s, ReadStep(s, t, ok), t);
  }

  lemma CallYields(s: State, t: nat, req: Request)
    requires Locked(s) && Enabled(s, Call(t, req))
    ensures Yields(s, Begin(s, t, req), YardOf(s))
  {
  }

  lemma StepTidy(s: State, e: Event)
    requires Locked(s) && Tidy(YardOf(s)) && Enabled(s, e) && Disciplined(s, e)
    ensures Tidy(YardOf(Apply(s, e))) && !Apply(s, e).fault
  {
    match e
    case Tick => assert YardOf(Apply(s, e)) == YardOf(s);
    case SetLimits(_, _) => assert YardOf(Apply(s, e)) == YardOf(s);
    case Expire(w) => Expires(YardOf(s), w);
    case Call(t, req) => CallYields(s, t, req);
    case Step(t, ok) =>
      match s.threads[t] {
        case Writing(_) => WriteTidy(s, t, ok);
        case Reading(_) => ReadYields(s, t, ok);
        case Flushing(_, _) => FlushTidy(s, t);
      }
    case WorkerStep => WorkerTidy(s);
  }

  // ---- Each work is linked, unlinked and freed once ------------------------------------

  function Stage(st: WorkState): nat {
    match st case Queued => 0 case Linked => 1 case Unlinked => 2 case Freed => 3
  }

  /** Works only move to their next stage, one step at a time. */
  ghost predicate Advances(before: seq<WorkState>, after: seq<WorkState>) {
    && |before| <= |after|
    && forall w :: 0 <= w < |before| ==>
         Stage(after[w]) == Stage(before[w]) || Stage(after[w]) == Stage(before[w]) + 1
  }

  lemma WriteAdvances(s: State, t: nat, ok: bool)
    requires Locked(s) && t < |s.threads| && s.threads[t].Writing? && CanStep(s, t) && Tidy(YardOf(s))
    ensures Advances(s.works, WriteStep(s, t, ok).works)
  {
    RoleIs(s, t);
    if s.threads[t].wr.WLink? {
      Links(YardOf(s), s.threads[t].wr.w);
    }
    WriteYields(s, t, ok);
  }

  lemma FlushAdvances(s: State, t: nat)
    requires Locked(s) && t < |s.threads| && s.threads[t].Flushing? && CanStep(s, t) && Tidy(YardOf(s))
    ensures Advances(s.works, FlushStep(s, t).works)
  {
    RoleIs(s, t);
    match s.threads[t].fl {
      case FLoop(At(w)) => Walks(YardOf(s), w);
      case FKick(w, next) => Kicks(YardOf(s), w, next);
      case _ =>
    }
    FlushYields(s, t);
  }

  lemma WorkerAdvances(s: State)
    requires WorkerCanStep(s) && Tidy(YardOf(s))
    ensures Advances(s.works, WorkStep(s).works)
  {
    match s.worker {
      case KUnlink(w) => Unlinks(YardOf(s), w);
      case KFree(w) => Frees(YardOf(s), w);
      case _ =>
    }
    WorkerYields(s);
  }

  lemma StepAdvances(s: State, e: Event)
    requires Locked(s) && Tidy(YardOf(s)) && Enabled(s, e) && Disciplined(s, e)
    ensures Advances(s.works, Apply(s, e).works)
  {
    match e
    case Step(t, ok) =>
      match s.threads[t] {
        case Writing(_) => WriteAdvances(s, t, ok);
        case Reading(_) => ReadYields(s, t, ok);
        case Flushing(_, _) => FlushAdvances(s, t);
      }
    case WorkerStep => WorkerAdvances(s);
    case Call(t, req) => CallYields(s, t, req);
    case _ =>
  }

  /** The list of works is exact, and complete when nobody is handling a work. */
  lemma ListIsExact(y: Yard)
    requires Tidy(y)
    ensures forall w: nat :: w in y.list <==> w < |y.works| && y.works[w] == Linked
    ensures y.role == Nobody && y.phase == Resting ==>
              forall w: nat :: w in y.list <==> w < |y.works| && y.works[w] != Freed
  {
    assert forall w: nat :: w in y.list <==> Is(y, w, Linked);
    assert forall w: nat :: Is(y, w, Queued) <==> y.role == Linker(w);
    if y.role == Nobody && y.phase == Resting {
      forall w: nat ensures w in y.list <==> w < |y.works| && y.works[w] != Freed {
        assert !Is(y, w, Unlinked) && !Is(y, w, Queued);
      }
    }
  }

  lemma InitTidy(n: nat, wqLive: bool, mm: U32, ms: U32)
    ensures Tidy(YardOf(Init(n, wqLive, mm, ms)))
  {
  }

  /** A disciplined run misuses no work: none is unlinked or freed twice, freed while linked,
      or touched after it was freed; and `delay_list` stays exact throughout. */
  lemma {:induction false} DisciplinedRun(s: State, es: seq<Event>, s': State)
    requires Locked(s) && Tidy(YardOf(s)) && !s.fault && IsDisciplinedRun(s, es, s')
    ensures Locked(s') && Tidy(YardOf(s')) && !s'.fault && IsRun(s, es, s')
    decreases es
  {
    if es != [] {
      StepLocked(s, es[0]);
      StepTidy(s, es[0]);
      DisciplinedRun(Apply(s, es[0]), es[1..], s');
    }
  }
}
