/** One sleep and one awake, from the call to the return, under every interleaving. */
module Wakeup {
  import opened Flags
  import opened Barrier

  /** Thread `t` makes no further call. */
  ghost predicate NoCall(es: seq<Event>, t: nat) {
    forall i :: 0 <= i < |es| ==> es[i].t == t ==> es[i].Go?
  }

  lemma OthersStay(s: State, e: Event, t: nat)
    requires Enabled(s, e) && t < |s.threads| && e.t != t
    ensures var s' := Apply(s, e); |s'.threads| == |s.threads| && s'.threads[t] == s.threads[t]
  {
    if e.Go? {
      OtherThreads(s, e.t);
    }
  }

  /** A thread outside may call at any time, and inside only a thread blocked on the wait queue has
      to wait. */
  lemma OnlyBlockedWait(s: State, t: nat)
    requires t < |s.threads|
    ensures s.threads[t].Outside? <==> Enabled(s, Sleep(t)) && Enabled(s, Awake(t)) && Enabled(s, Flush(t))
    ensures Enabled(s, Go(t)) <==> !s.threads[t].Outside? && !Blocked(s.threads[t], t in s.queue)
  {
  }

  // ---- Awake ---------------------------------------------------------------------------

  /** In the run, thread `u` does not put itself on the wait queue. */
  ghost predicate NotEnqueued(s: State, es: seq<Event>, u: nat)
    decreases es
  {
    es == [] ||
    (Enabled(s, es[0]) ==>
       && !(es[0] == Go(u) && s.threads[u].SleepEnqueue?)
       && NotEnqueued(Apply(s, es[0]), es[1..], u))
  }

  /** Only a thread itself enters the wait queue, and only from `prepare_to_wait`. */
  lemma QueueStep(s: State, e: Event, u: nat)
    requires Enabled(s, e) && u !in s.queue && !(e == Go(u) && s.threads[u].SleepEnqueue?)
    ensures u !in Apply(s, e).queue
  {
  }

  lemma {:induction false} StaysOut(s: State, es: seq<Event>, s': State, u: nat)
    requires IsRun(s, es, s') && NotEnqueued(s, es, u) && u !in s.queue
    ensures u !in s'.queue
    decreases es
  {
    if es != [] {
      QueueStep(s, es[0], u);
      StaysOut(Apply(s, es[0]), es[1..], s', u);
    }
  }

  predicate InAwake(pc: Pc) { pc.AwakeTest? || pc.AwakeLower? || pc.AwakeActive? || pc.AwakeAll? }

  /** An awake goes on, or has found or left the wait queue empty. */
  lemma AwakeStep(s: State, t: nat)
    requires t < |s.threads| && InAwake(s.threads[t])
    ensures var s' := Advance(s, t);
            t < |s'.threads| && (InAwake(s'.threads[t]) || (s'.threads[t].Outside? && s'.queue == {}))
  {
  }

  lemma {:induction false} AwakeRun(s: State, t: nat, es: seq<Event>, s': State, u: nat)
    requires t < |s.threads| && InAwake(s.threads[t]) && IsRun(s, es, s') && NoCall(es, t) && NotEnqueued(s, es, u)
    requires t < |s'.threads| && s'.threads[t].Outside?
    ensures u !in s'.queue
    decreases es
  {
    var e, s1 := es[0], Apply(s, es[0]);
    if e.t != t {
      OthersStay(s, e, t);
      AwakeRun(s1, t, es[1..], s', u);
    } else {
      AwakeStep(s, t);
      if InAwake(s1.threads[t]) {
        AwakeRun(s1, t, es[1..], s', u);
      } else {
        StaysOut(s1, es[1..], s', u);
      }
    }
  }

  /** Every awake, whether or not it finds the barrier up: once it has returned, no thread is on the
      wait queue that has not put itself there since the call. */
  lemma AwakeWakesAll(s: State, t: nat, es: seq<Event>, s': State, u: nat)
    requires Enabled(s, Awake(t)) && IsRun(Apply(s, Awake(t)), es, s') && NoCall(es, t)
    requires NotEnqueued(Apply(s, Awake(t)), es, u)
    requires t < |s'.threads| && s'.threads[t].Outside?
    ensures u !in s'.queue
  {
    AwakeRun(Apply(s, Awake(t)), t, es, s', u);
  }

  /** So a thread blocked at the call can go on, unless it has gone on already. */
  lemma AwakeUnblocks(s: State, t: nat, es: seq<Event>, s': State, u: nat)
    requires Enabled(s, Awake(t)) && IsRun(Apply(s, Awake(t)), es, s') && NoCall(es, t)
    requires NotEnqueued(Apply(s, Awake(t)), es, u)
    requires t < |s'.threads| && s'.threads[t].Outside? && u < |s'.threads| && !s'.threads[u].Outside?
    ensures Enabled(s', Go(u))
  {
    AwakeWakesAll(s, t, es, s', u);
  }

  // ---- Sleep ---------------------------------------------------------------------------

  /** Someone lowered the barrier after thread `t` raised it, both since position `n` of the log. */
  ghost predicate RaisedThenLowered(log: seq<Mark>, t: nat, n: nat) {
    exists i, j :: n <= i < j < |log| && log[i] == Raised(t) && log[j].Lowered?
  }

  /** Where a sleep that began with `n` barrier events on record can be. */
  ghost predicate Asleep(pc: Pc, log: seq<Mark>, t: nat, n: nat) {
    pc.SleepRaise? || (Sleeping(pc) && n < pc.mark) || (pc.Outside? && RaisedThenLowered(log, t, n))
  }

  lemma LogStays(s: State, e: Event)
    requires Enabled(s, e)
    ensures s.log <= Apply(s, e).log
  {
  }

  lemma LoweredStays(log: seq<Mark>, log': seq<Mark>, t: nat, n: nat)
    requires log <= log' && RaisedThenLowered(log, t, n)
    ensures RaisedThenLowered(log', t, n)
  {
    var i, j :| n <= i < j < |log| && log[i] == Raised(t) && log[j].Lowered?;
    assert log'[i] == log[i] && log'[j] == log[j];
  }

  lemma ReturnLowered(s: State, t: nat, n: nat)
    requires Inv(s) && Enabled(s, Go(t)) && Sleeping(s.threads[t]) && n < s.threads[t].mark
    requires var s' := Advance(s, t); t < |s'.threads| && s'.threads[t].Outside?
    ensures RaisedThenLowered(s.log, t, n)
  {
    var k := s.threads[t].mark;
    assert ThreadOk(s.threads[t], t, t in s.queue, s.log);
    if s.threads[t].SleepTest? {
      SeesLowering(s.threads[t], t, t in s.queue, s.log);
    }
    var j :| k <= j < |s.log| && s.log[j].Lowered?;
    assert s.log[k - 1] == Raised(t);
  }

  lemma AsleepStep(s: State, t: nat, n: nat)
    requires Inv(s) && Enabled(s, Go(t)) && n <= |s.log| && Asleep(s.threads[t], s.log, t, n)
    ensures var s' := Advance(s, t); t < |s'.threads| && Asleep(s'.threads[t], s'.log, t, n)
  {
    OwnMove(s, t);
    LogStays(s, Go(t));
    var s' := Advance(s, t);
    if Sleeping(s.threads[t]) && s'.threads[t].Outside? {
      ReturnLowered(s, t, n);
      LoweredStays(s.log, s'.log, t, n);
    }
  }

  lemma {:induction false} AsleepRun(s: State, t: nat, es: seq<Event>, s': State, n: nat)
    requires Inv(s) && t < |s.threads| && n <= |s.log| && Asleep(s.threads[t], s.log, t, n)
    requires IsRun(s, es, s') && NoCall(es, t)
    ensures t < |s'.threads| && Asleep(s'.threads[t], s'.log, t, n)
    decreases es
  {
    if es != [] {
      var e, s1 := es[0], Apply(s, es[0]);
      LogStays(s, e);
      if e.t != t {
        OthersStay(s, e, t);
        if s.threads[t].Outside? {
          LoweredStays(s.log, s1.log, t, n);
        }
      } else {
        AsleepStep(s, t, n);
      }
      StepInv(s, e);
      AsleepRun(s1, t, es[1..], s', n);
    }
  }

  /** Every sleep, from its call to its return: the thread raised the barrier since the call, and
      somebody lowered it after that. */
  lemma SleepOutlastsALowering(s: State, t: nat, es: seq<Event>, s': State)
    requires Reachable(s) && Enabled(s, Sleep(t)) && IsRun(Apply(s, Sleep(t)), es, s') && NoCall(es, t)
    requires t < |s'.threads| && s'.threads[t].Outside?
    ensures RaisedThenLowered(s'.log, t, |s.log|)
  {
    ReachableInv(s);
    StepInv(s, Sleep(t));
    AsleepRun(Apply(s, Sleep(t)), t, es, s', |s.log|);
  }

  // ---- The other bit -------------------------------------------------------------------

  predicate Flushing(s: State) { CheckBit(s.flags, FLUSHING_BIT) }

  /** A flush raises and lowers its own bit, and nothing that sleepers and wakers do affects it. */
  lemma FlushBitStep(s: State, e: Event)
    requires Enabled(s, e)
    ensures Flushing(Apply(s, e)) ==
            if e.Go? && s.threads[e.t].FlushRaise? then true
            else if e.Go? && s.threads[e.t].FlushLower? then false
            else Flushing(s)
  {
    BitsAreIndependent(s.flags, FLUSHING_BIT, FLUSHING_BIT);
    BitsAreIndependent(s.flags, BARRIER_BIT, FLUSHING_BIT);
  }

  /** A flush that is called sets its bit with its first step and clears it with its second. */
  lemma FlushTogglesBit(s: State, t: nat)
    requires Enabled(s, Flush(t))
    ensures var s1 := Apply(s, Flush(t));
            && Enabled(s1, Go(t)) && Flushing(Apply(s1, Go(t))) && Up(Apply(s1, Go(t))) == Up(s)
            && Enabled(Apply(s1, Go(t)), Go(t))
            && var s2 := Apply(Apply(s1, Go(t)), Go(t));
               !Flushing(s2) && Up(s2) == Up(s) && t < |s2.threads| && s2.threads[t].Outside?
  {
    var s1 := Apply(s, Flush(t));
    FlushBitStep(s1, Go(t));
    FlushBitStep(Apply(s1, Go(t)), Go(t));
    BitStep(s1, t);
    BitStep(Apply(s1, Go(t)), t);
  }
}
