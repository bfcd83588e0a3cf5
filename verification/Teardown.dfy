/** Teardown of a group with a live workqueue and no other user: what the flush in `group_free`
    leaves for the loops after it. */
module Teardown {
  import opened Model
  import opened Threads
  import opened Simulation
  import opened Locks
  import opened Handover

  /** Only thread `t` is inside the device. */
  ghost predicate Alone(s: State, t: nat) {
    t < |s.threads| && forall u :: 0 <= u < |s.threads| && u != t ==> s.threads[u].Idle?
  }

  /** Nothing is pending or queued and the worker is at rest. */
  ghost predicate Drained(s: State) {
    && s.dev.pendingList == [] && s.dev.delayList == []
    && s.armed == {} && s.ready == [] && s.worker.KIdle?
  }

  /** The flush of thread `t`, up to and including its return. */
  ghost predicate Closing(s: State, t: nat) {
    && Alone(s, t) && s.wqLive
    && (s.threads[t].Flushing? || (s.threads[t].Idle? && Drained(s)))
    && (PastSplice(s.threads[t]) ==> s.dev.pendingList == [])
  }

  /** The drained workqueue has no timer left: an armed work would be linked. */
  lemma NothingArmed(s: State)
    requires Tidy(YardOf(s)) && YardOf(s).role == Closer
    ensures s.armed == {} && s.ready == [] && s.worker.KIdle? && s.dev.delayList == []
  {
    var y := YardOf(s);
    assert forall w :: w in y.armed ==> Is(y, w, Linked) && w in y.list;
  }

  lemma EndCloses(s: State, t: nat)
    requires Closing(s, t) && Locked(s) && Tidy(YardOf(s)) && s.threads[t].Flushing? && s.threads[t].fl.FEnd?
    ensures Closing(FlushStep(s, t), t)
  {
    OneFlusher(s, t);
    RoleIs(s, t);
    NothingArmed(s);
  }

  lemma FlushCloses(s: State, t: nat)
    requires Closing(s, t) && Locked(s) && Tidy(YardOf(s)) && s.threads[t].Flushing? && CanStep(s, t)
    ensures Closing(FlushStep(s, t), t)
  {
    if s.threads[t].fl.FEnd? {
      EndCloses(s, t);
    } else {
      OneFlusher(s, t);
      FlushGoesOn(s, t);
    }
  }

  lemma FlushGoesOn(s: State, t: nat)
    requires s.wqLive && t < |s.threads| && s.threads[t].Flushing? && !s.threads[t].fl.FEnd? && CanStep(s, t)
    requires PastSplice(s.threads[t]) ==> s.dev.pendingList == []
    ensures var s' := FlushStep(s, t);
            && s'.wqLive && t < |s'.threads| && s'.threads[t].Flushing?
            && (PastSplice(s'.threads[t]) ==> s'.dev.pendingList == [])
  {
  }

  lemma StepCloses(s: State, e: Event, t: nat)
    requires Closing(s, t) && Locked(s) && Tidy(YardOf(s)) && Enabled(s, e) && Disciplined(s, e) && !e.Call?
    ensures Closing(Apply(s, e), t)
  {
    match e
    case Step(u, ok) => FlushCloses(s, t);
    case WorkerStep => WorkerCloses(s, t);
    case _ =>
  }

  lemma WorkerCloses(s: State, t: nat)
    requires Closing(s, t) && WorkerCanStep(s)
    ensures Closing(WorkStep(s), t)
  {
  }

  lemma BeginCloses(s: State, t: nat)
    requires Enabled(s, Call(t, Revoke)) && s.wqLive && forall u :: 0 <= u < |s.threads| ==> s.threads[u].Idle?
    ensures Closing(Apply(s, Call(t, Revoke)), t)
  {
  }

  lemma {:induction false} RunCloses(s: State, es: seq<Event>, s': State, t: nat)
    requires Closing(s, t) && Locked(s) && Tidy(YardOf(s)) && !s.fault
    requires IsDisciplinedRun(s, es, s') && forall i :: 0 <= i < |es| ==> !es[i].Call?
    ensures Closing(s', t) && !s'.fault
    decreases es
  {
    if es != [] {
      StepCloses(s, es[0], t);
      StepLocked(s, es[0]);
      StepTidy(s, es[0]);
      RunCloses(Apply(s, es[0]), es[1..], s', t);
    }
  }
}
