/** What is in force in a run: the delay and the limits set last, the largest limit so far, the
    time passed, and what a device never changes. */
module Settings {
  import opened Model

  function LimitsOf(s: State): Limits { Limits(s.maxMessage, s.maxStorage) }

  // ---- One step ------------------------------------------------------------------------

  /** The SET_SEND_DELAY command: a negative delay is refused, any other is in force at once; the
      calling thread has its answer and nothing else changes. */
  lemma SetDelayCall(s: State, t: nat, arg: int)
    requires Enabled(s, Call(t, SetDelay(arg)))
    ensures var s' := Apply(s, Call(t, SetDelay(arg)));
            && |s'.threads| == |s.threads| && s'.threads[t] == Idle(if arg < 0 then -1 else 0, [])
            && s'.dev.delay == (if arg < 0 then s.dev.delay else arg)
            && s == s'.(dev := s'.dev.(delay := s.dev.delay), threads := s'.threads[t := s.threads[t]])
  {
  }

  predicate SetsDelay(e: Event) { e.Call? && e.req.SetDelay? && e.req.arg >= 0 }

  lemma AcceptSettings(s: State, t: nat, data: seq<Byte>, ok: bool)
    requires t < |s.threads|
    ensures var s' := AcceptStep(s, t, data, ok); Kept(s, s') && s'.dev.delay == s.dev.delay
  {
  }

  /** What no thread and no worker changes. */
  predicate Kept(s: State, s': State) {
    && |s'.threads| == |s.threads| && s'.wqLive == s.wqLive && s'.now == s.now
    && LimitsOf(s') == LimitsOf(s) && s'.log.maxEver == s.log.maxEver
  }

  lemma WriteSettings(s: State, t: nat, ok: bool)
    requires t < |s.threads| && s.threads[t].Writing? && CanStep(s, t)
    ensures var s' := WriteStep(s, t, ok); Kept(s, s') && s'.dev.delay == s.dev.delay
  {
    match s.threads[t].wr
    case WAccept(data) => AcceptSettings(s, t, data, ok);
    case _ =>
  }

  lemma FlushSettings(s: State, t: nat)
    requires t < |s.threads| && s.threads[t].Flushing? && CanStep(s, t)
    ensures var s' := FlushStep(s, t); Kept(s, s') && s'.dev.delay == s.dev.delay
  {
  }

  /** Only the commands themselves change settings, and only time passing changes the time. */
  lemma StepSettings(s: State, e: Event)
    requires Enabled(s, e)
    ensures var s' := Apply(s, e);
            && |s'.threads| == |s.threads| && s'.wqLive == s.wqLive
            && s'.now == s.now + (if e.Tick? then 1 else 0)
            && LimitsOf(s') == (if e.SetLimits? then Limits(e.maxMessage, e.maxStorage) else LimitsOf(s))
            && s'.log.maxEver == (if e.SetLimits? then Max(s.log.maxEver, e.maxStorage) else s.log.maxEver)
            && s'.dev.delay == (if SetsDelay(e) then e.req.arg else s.dev.delay)
  {
    if e.Step? {
      match s.threads[e.t]
      case Writing(_) => WriteSettings(s, e.t, e.ok);
      case Reading(_) =>
      case Flushing(_, _) => FlushSettings(s, e.t);
    }
  }

  /** Until a work is misused, time passes, limits are set and threads outside the device call
      whenever they like, whatever the device is doing. */
  lemma AlwaysOpen(s: State, t: nat, req: Request, mm: U32, ms: U32)
    requires !s.fault
    ensures Enabled(s, Tick) && Enabled(s, SetLimits(mm, ms))
    ensures Enabled(s, Call(t, req)) <==> t < |s.threads| && s.threads[t].Idle?
  {
  }

  // ---- Runs ----------------------------------------------------------------------------

  /** The argument of the last accepted SET_SEND_DELAY in `es`, or `delay` if there is none. */
  ghost function LastDelay(delay: nat, es: seq<Event>): nat {
    if es == [] then delay
    else if SetsDelay(Last(es)) then Last(es).req.arg
    else LastDelay(delay, es[..|es| - 1])
  }

  /** The limits set last in `es`, or `limits` if there are none. */
  ghost function LastLimits(limits: Limits, es: seq<Event>): Limits {
    if es == [] then limits
    else if Last(es).SetLimits? then Limits(Last(es).maxMessage, Last(es).maxStorage)
    else LastLimits(limits, es[..|es| - 1])
  }

  function TicksIn(es: seq<Event>): nat {
    if es == [] then 0 else (if es[0].Tick? then 1 else 0) + TicksIn(es[1..])
  }

  lemma {:induction false} LastDelayFirst(delay: nat, es: seq<Event>)
    requires es != []
    ensures LastDelay(delay, es) == LastDelay(if SetsDelay(es[0]) then es[0].req.arg else delay, es[1..])
  {
    if |es| > 1 {
      LastDelayFirst(delay, es[..|es| - 1]);
      assert es[..|es| - 1][1..] == es[1..][..|es[1..]| - 1];
    }
  }

  lemma {:induction false} LastLimitsFirst(limits: Limits, es: seq<Event>)
    requires es != []
    ensures LastLimits(limits, es)
            == LastLimits(if es[0].SetLimits? then Limits(es[0].maxMessage, es[0].maxStorage) else limits, es[1..])
  {
    if |es| > 1 {
      LastLimitsFirst(limits, es[..|es| - 1]);
      assert es[..|es| - 1][1..] == es[1..][..|es[1..]| - 1];
    }
  }

  /** In every run the delay in force is the last one accepted, the limits in force are those set
      last, and time is what has passed; threads and workqueue stay as they are. */
  lemma {:induction false} InForce(s: State, es: seq<Event>, s': State)
    requires IsRun(s, es, s')
    ensures s'.dev.delay == LastDelay(s.dev.delay, es)
    ensures LimitsOf(s') == LastLimits(LimitsOf(s), es)
    ensures s'.now == s.now + TicksIn(es) && |s'.threads| == |s.threads| && s'.wqLive == s.wqLive
    decreases es
  {
    if es != [] {
      StepSettings(s, es[0]);
      LastDelayFirst(s.dev.delay, es);
      LastLimitsFirst(LimitsOf(s), es);
      InForce(Apply(s, es[0]), es[1..], s');
    }
  }

  /** A new device has the limits it was made with, no delay, no time passed, and all its threads
      outside. */
  lemma InForceFromInit(n: nat, wqLive: bool, mm: U32, ms: U32, es: seq<Event>, s: State)
    requires IsRun(Init(n, wqLive, mm, ms), es, s)
    ensures s.dev.delay == LastDelay(0, es)
    ensures LimitsOf(s) == LastLimits(Limits(mm, ms), es)
    ensures s.now == TicksIn(es) && |s.threads| == n && s.wqLive == wqLive
  {
    InForce(Init(n, wqLive, mm, ms), es, s);
  }

  /** `maxEver` is the largest limit in force at some time. */
  lemma {:induction false} LargestLimit(s: State, es: seq<Event>, s': State)
    requires IsRun(s, es, s')
    ensures s'.log.maxEver == s.log.maxEver || exists i :: 0 <= i < |es| && es[i].SetLimits? && es[i].maxStorage == s'.log.maxEver
    ensures s'.log.maxEver >= s.log.maxEver
    ensures forall i :: 0 <= i < |es| && es[i].SetLimits? ==> es[i].maxStorage <= s'.log.maxEver
    decreases es
  {
    if es != [] {
      StepSettings(s, es[0]);
      LargestLimit(Apply(s, es[0]), es[1..], s');
      forall i | 0 <= i < |es| && es[i].SetLimits? ensures es[i].maxStorage <= s'.log.maxEver {
        if i > 0 {
          assert es[i] == es[1..][i - 1];
        }
      }
      if i :| 0 <= i < |es[1..]| && es[1..][i].SetLimits? && es[1..][i].maxStorage == s'.log.maxEver {
        assert es[i + 1] == es[1..][i];
      } else if es[0].SetLimits? && es[0].maxStorage == s'.log.maxEver {
        assert es[0].SetLimits?;
      }
    }
  }
}
