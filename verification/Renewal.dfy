/** When the delay guarantee holds again after a flush. */
module Renewal {
  import opened Lists
  import opened Model
  import opened Threads
  import opened Simulation
  import opened Works
  import opened Order
  import opened Afterwards
  import Theorems

  // ---- Runs without a flush ------------------------------------------------------------

  /** The step joins the pending list to the message list. */
  predicate Splices(s: State, e: Event)
    requires Enabled(s, e)
  {
    e.Step? && s.threads[e.t].Flushing? && s.threads[e.t].fl.FSplice?
  }

  ghost predicate IsSpliceFree(s: State, es: seq<Event>, s': State)
    decreases es
  {
    if es == [] then s == s'
    else Enabled(s, es[0]) && !Splices(s, es[0]) && IsSpliceFree(Apply(s, es[0]), es[1..], s')
  }

  /** No flush is past its splice. */
  ghost predicate NoFlush(s: State) {
    forall t :: 0 <= t < |s.threads| ==> !PastSplice(s.threads[t])
  }

  lemma FlushGoesNotPast(s: State, t: nat)
    requires t < |s.threads| && s.threads[t].Flushing? && CanStep(s, t)
    requires !PastSplice(s.threads[t]) && !s.threads[t].fl.FSplice?
    ensures var ts := FlushStep(s, t).threads; t < |ts| && !PastSplice(ts[t])
  {
  }

  lemma NoFlushStep(s: State, e: Event)
    requires NoFlush(s) && Enabled(s, e) && !Splices(s, e)
    ensures NoFlush(Apply(s, e))
  {
    OneThread(s, e);
    if e.Step? {
      match s.threads[e.t]
      case Writing(_) => WriterStays(s, e.t, e.ok);
      case Reading(_) =>
      case Flushing(_, _) => FlushGoesNotPast(s, e.t);
    }
  }

  lemma NoFlushIsPrompt(s: State, e: Event)
    requires NoFlush(s) && Enabled(s, e) && !Splices(s, e)
    ensures Prompt(BoxOf(s), ActionOf(s, e))
  {
  }

  lemma StepSince(s: State, e: Event, c: Base, d: nat)
    requires Marked(s) && Ordered(BoxOf(s)) && Timely(BoxOf(s))
    requires NoFlush(s) && Enabled(s, e) && !Splices(s, e) && Since(BoxOf(s), c, d)
    ensures Since(BoxOf(Apply(s, e)), c, d)
  {
    SimStep(s, e);
    NoFlushIsPrompt(s, e);
    DoSince(BoxOf(s), ActionOf(s, e), c, d);
  }

  lemma {:induction false} RunSince(s: State, es: seq<Event>, s': State, c: Base, d: nat)
    requires Theorems.Inv(s) && NoFlush(s) && IsSpliceFree(s, es, s') && Since(BoxOf(s), c, d)
    ensures Since(BoxOf(s'), c, d)
    decreases es
  {
    if es != [] {
      StepSince(s, es[0], c, d);
      NoFlushStep(s, es[0]);
      Theorems.StepInv(s, es[0]);
      RunSince(Apply(s, es[0]), es[1..], s', c, d);
    }
  }

  // ---- Never early again ---------------------------------------------------------------

  /** Works queued or about to be queued do not outnumber the pending messages. */
  ghost predicate WorksMatched(s: State) {
    |Theorems.UnfiredWorks(s)| + Sum(s.threads, AboutToQueue) <= |s.dev.pendingList|
  }

  /** All works queued after `s0` have a delay of at least `d`. */
  ghost predicate Slow(s0: State, s: State, d: nat) {
    forall j :: |s0.log.queued| <= j < |s.log.queued| ==> s.log.queued[j].delay >= d
  }

  /** The messages pended after `s0` that the worker has published in `s` came in the order in
      which they were pended, and none less than `d` after that. The worker first publishes what it
      held and what was pending in `s0`. */
  ghost predicate Punctual(s0: State, s: State, d: nat) {
    var ms := Maturities(s.log.published);
    var first := |Maturities(s0.log.published)| + |WorkerHolds(s0.worker)| + |s0.dev.pendingList|;
    forall k :: first <= k < |ms| ==>
      var i := |s0.log.pended| + k - first;
      && i < |s.log.pended| && ms[k].msg == s.log.pended[i].msg && s.log.pended[i].at + d <= ms[k].at
  }

  /** From any reachable state, whatever flushes came before, with no flush under way past its
      splice and works that do not outnumber the pending messages: as long as no splice follows
      and works are queued with a delay of at least `d`, no later message is published less than
      `d` after it was pended. */
  lemma NeverEarlySince(s0: State, es: seq<Event>, s: State, d: nat)
    requires Reachable(s0) && NoFlush(s0) && WorksMatched(s0)
    requires IsSpliceFree(s0, es, s) && Slow(s0, s, d)
    ensures Punctual(s0, s, d)
  {
    Theorems.ReachableInv(s0);
    var b0 := BoxOf(s0);
    Theorems.Complement(b0.count, b0.log.fired);
    BaseSince(b0, d);
    RunSince(s0, es, s, BaseOf(b0), d);
    LateIsPunctual(s0, s, d);
  }

  lemma LateIsPunctual(s0: State, s: State, d: nat)
    requires Since(BoxOf(s), BaseOf(BoxOf(s0)), d) && Slow(s0, s, d)
    ensures Punctual(s0, s, d)
  {
    var c, ms := BaseOf(BoxOf(s0)), Maturities(s.log.published);
    assert SlowSince(BoxOf(s), c, d);
    assert Late(ms, s.log.pended, c, d);
    forall k | c.matured + c.waiting <= k < |ms| ensures InTime(ms[k].msg, ms[k].at, k, s.log.pended, c, d) {
    }
  }
}
