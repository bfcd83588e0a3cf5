/** The timers of delayed works follow the delay of the device, and so does the guarantee that no
    message is published early. */
module Timers {
  import opened Lists
  import opened Model
  import opened Threads
  import opened Simulation
  import opened Works
  import opened Settings
  import opened Renewal
  import Theorems

  // ---- What a step does to the queueing log --------------------------------------------

  /** The step queues a work. */
  predicate Queues(s: State, e: Event)
    requires Enabled(s, e)
  {
    e.Step? && s.threads[e.t].Writing? && s.threads[e.t].wr.WQueue?
  }

  lemma AcceptQueuesNot(s: State, t: nat, data: seq<Byte>, ok: bool)
    requires t < |s.threads|
    ensures AcceptStep(s, t, data, ok).log.queued == s.log.queued
  {
  }

  lemma WriteQueues(s: State, t: nat, ok: bool)
    requires t < |s.threads| && s.threads[t].Writing? && CanStep(s, t)
    ensures WriteStep(s, t, ok).log.queued
            == if s.threads[t].wr.WQueue? then s.log.queued + [Queueing(s.now, s.dev.delay)] else s.log.queued
  {
    match s.threads[t].wr
    case WAccept(data) => AcceptQueuesNot(s, t, data, ok);
    case _ =>
  }

  /** A work is on record with the time and the delay of the device at its queueing. */
  lemma StepQueues(s: State, e: Event)
    requires Enabled(s, e)
    ensures Apply(s, e).log.queued == if Queues(s, e) then s.log.queued + [Queueing(s.now, s.dev.delay)] else s.log.queued
  {
    if e.Step? && s.threads[e.t].Writing? {
      WriteQueues(s, e.t, e.ok);
    }
  }

  lemma {:induction false} QueuedStays(s: State, es: seq<Event>, s': State)
    requires IsRun(s, es, s')
    ensures s.log.queued <= s'.log.queued
    decreases es
  {
    if es != [] {
      StepQueues(s, es[0]);
      QueuedStays(Apply(s, es[0]), es[1..], s');
    }
  }

  // ---- The timer of a work -------------------------------------------------------------

  lemma QueueArms(s: State, t: nat, m: Message)
    requires t < |s.threads|
    ensures var s', w := QueueStep(s, t, m), |s.works|;
            if s.dev.delay == 0 then s'.ready == s.ready + [w] && s'.armed == s.armed
            else s'.armed == s.armed + {w} && s'.ready == s.ready
  {
  }

  /** A work queued by a delayed write starts its timer with the delay of the device; without a delay
      it goes to the workqueue at once. In every later state, while its timer runs, it can expire
      if and only if that delay has passed since. */
  lemma TimerIsSet(s: State, t: nat, ok: bool, es: seq<Event>, s': State)
    requires Reachable(s) && Enabled(s, Step(t, ok)) && Queues(s, Step(t, ok))
    requires IsRun(Apply(s, Step(t, ok)), es, s')
    ensures var w := |s.works|;
            && (if s.dev.delay == 0 then w in Apply(s, Step(t, ok)).ready else w in Apply(s, Step(t, ok)).armed)
            && (Enabled(s', Expire(w)) <==> !s'.fault && w in s'.armed && s.now + s.dev.delay <= s'.now)
  {
    Theorems.ReachableInv(s);
    assert Placed(BoxOf(s));
    var s1 := Apply(s, Step(t, ok));
    StepQueues(s, Step(t, ok));
    QueueArms(s, t, s.threads[t].wr.m);
    QueuedStays(s1, es, s');
    assert s'.log.queued[|s.works|] == s1.log.queued[|s.works|];
  }

  /** Without a flush nothing but its own expiry stops a timer. */
  lemma ArmedStep(s: State, e: Event, w: nat)
    requires NoFlush(s) && Enabled(s, e) && e != Expire(w) && w in s.armed
    ensures w in Apply(s, e).armed
  {
    if e.Step? {
      match s.threads[e.t]
      case Writing(_) => WriteKeepsArmed(s, e.t, e.ok);
      case Reading(_) =>
      case Flushing(_, _) =>
    }
  }

  lemma WriteKeepsArmed(s: State, t: nat, ok: bool)
    requires t < |s.threads| && s.threads[t].Writing? && CanStep(s, t)
    ensures s.armed <= WriteStep(s, t, ok).armed
  {
    match s.threads[t].wr
    case WAccept(data) => assert AcceptStep(s, t, data, ok).armed == s.armed;
    case _ =>
  }

  lemma {:induction false} ArmedStays(s: State, es: seq<Event>, s': State, w: nat)
    requires NoFlush(s) && IsSpliceFree(s, es, s') && w in s.armed
    requires forall i :: 0 <= i < |es| ==> es[i] != Expire(w)
    ensures w in s'.armed && IsRun(s, es, s')
    decreases es
  {
    if es != [] {
      ArmedStep(s, es[0], w);
      NoFlushStep(s, es[0]);
      ArmedStays(Apply(s, es[0]), es[1..], s', w);
    }
  }

  /** So without a flush a delayed work waits exactly its delay: until it expires, it can expire if
      and only if the delay has passed. */
  lemma ExpiresExactlyWhenDue(s: State, t: nat, ok: bool, es: seq<Event>, s': State)
    requires Reachable(s) && NoFlush(s) && Enabled(s, Step(t, ok)) && Queues(s, Step(t, ok)) && s.dev.delay != 0
    requires IsSpliceFree(Apply(s, Step(t, ok)), es, s') && forall i :: 0 <= i < |es| ==> es[i] != Expire(|s.works|)
    ensures Enabled(s', Expire(|s.works|)) <==> !s'.fault && s.now + s.dev.delay <= s'.now
  {
    var s1 := Apply(s, Step(t, ok));
    NoFlushStep(s, Step(t, ok));
    QueueArms(s, t, s.threads[t].wr.m);
    ArmedStays(s1, es, s', |s.works|);
    TimerIsSet(s, t, ok, es, s');
  }

  // ---- Never early, in terms of the device ---------------------------------------------

  /** No splice happens, and the delay of the device is at least `d` whenever a work is queued. */
  ghost predicate IsDelayed(s: State, es: seq<Event>, s': State, d: nat)
    decreases es
  {
    if es == [] then s == s'
    else
      && Enabled(s, es[0]) && !Splices(s, es[0]) && (Queues(s, es[0]) ==> s.dev.delay >= d)
      && IsDelayed(Apply(s, es[0]), es[1..], s', d)
  }

  lemma {:induction false} DelayedIsSlow(s0: State, s: State, es: seq<Event>, s': State, d: nat)
    requires IsDelayed(s, es, s', d) && Slow(s0, s, d)
    ensures IsSpliceFree(s, es, s') && Slow(s0, s', d)
    decreases es
  {
    if es != [] {
      StepQueues(s, es[0]);
      DelayedIsSlow(s0, Apply(s, es[0]), es[1..], s', d);
    }
  }

  /** From any reachable state with no flush past its splice and no work in excess: as long as no
      splice follows and the device has a delay of at least `d` whenever a work is queued, messages
      pended from then on are published in order and none less than `d` after it was pended. */
  lemma NeverEarlyWhileDelayed(s0: State, es: seq<Event>, s: State, d: nat)
    requires Reachable(s0) && NoFlush(s0) && WorksMatched(s0) && IsDelayed(s0, es, s, d)
    ensures Punctual(s0, s, d)
  {
    DelayedIsSlow(s0, s0, es, s, d);
    NeverEarlySince(s0, es, s, d);
  }

  // ---- Never early, in terms of the delays set -----------------------------------------

  /** A delayed write between its acceptance and its queueing. */
  predicate Delayed(pc: Pc) {
    pc.Writing? && (pc.wr.WDownPending? || pc.wr.WPend? || pc.wr.WAlloc? || pc.wr.WDownWq? || pc.wr.WQueue?)
  }

  /** The device has no delay or at least `d`, and with none no delayed write is under way. */
  ghost predicate DelayKept(s: State, d: nat) {
    s.dev.delay >= d || (s.dev.delay == 0 && forall t :: 0 <= t < |s.threads| ==> !Delayed(s.threads[t]))
  }

  lemma UndelayedAccept(s: State, t: nat, data: seq<Byte>, ok: bool)
    requires t < |s.threads| && s.dev.delay == 0
    ensures var ts := AcceptStep(s, t, data, ok).threads; t < |ts| && !Delayed(ts[t])
  {
  }

  /** Without a delay no write becomes a delayed one. */
  lemma UndelayedStep(s: State, e: Event)
    requires Enabled(s, e) && (e.Step? || e.Call?) && s.dev.delay == 0 && !Delayed(s.threads[e.t])
    ensures var ts := Apply(s, e).threads; e.t < |ts| && !Delayed(ts[e.t])
  {
    if e.Step? {
      match s.threads[e.t]
      case Writing(WAccept(data)) => UndelayedAccept(s, e.t, data, e.ok);
      case _ =>
    }
  }

  lemma DelayKeptStep(s: State, e: Event, d: nat)
    requires DelayKept(s, d) && Enabled(s, e) && (SetsDelay(e) ==> e.req.arg >= d)
    ensures DelayKept(Apply(s, e), d)
    ensures Queues(s, e) ==> s.dev.delay >= d
  {
    StepSettings(s, e);
    OneThread(s, e);
    if s.dev.delay < d && (e.Step? || e.Call?) {
      UndelayedStep(s, e);
    }
  }

  lemma {:induction false} DelaysSetAreKept(s: State, es: seq<Event>, s': State, d: nat)
    requires DelayKept(s, d) && IsSpliceFree(s, es, s')
    requires forall i :: 0 <= i < |es| && SetsDelay(es[i]) ==> es[i].req.arg >= d
    ensures IsDelayed(s, es, s', d)
    decreases es
  {
    if es != [] {
      DelayKeptStep(s, es[0], d);
      DelaysSetAreKept(Apply(s, es[0]), es[1..], s', d);
    }
  }

  /** What a user may rely on: if every delay ever set on the group is at least `d` and nobody
      flushes it, the messages of delayed writes appear in the order in which they were pended and
      none less than `d` after that. */
  lemma NeverBeforeTheDelaySet(n: nat, wqLive: bool, mm: U32, ms: U32, es: seq<Event>, s: State, d: nat)
    requires IsSpliceFree(Init(n, wqLive, mm, ms), es, s)
    requires forall i :: 0 <= i < |es| && SetsDelay(es[i]) ==> es[i].req.arg >= d
    ensures Punctual(Init(n, wqLive, mm, ms), s, d)
  {
    var s0 := Init(n, wqLive, mm, ms);
    NewIsMatched(n, wqLive, mm, ms);
    DelaysSetAreKept(s0, es, s, d);
    NeverEarlyWhileDelayed(s0, es, s, d);
  }

  lemma NewIsMatched(n: nat, wqLive: bool, mm: U32, ms: U32)
    ensures var s := Init(n, wqLive, mm, ms); Reachable(s) && NoFlush(s) && WorksMatched(s)
  {
    var s := Init(n, wqLive, mm, ms);
    assert IsRun(s, [], s);
    SumOfNothing(s.threads, AboutToQueue);
    assert Theorems.UnfiredWorks(s) == {};
  }
}
