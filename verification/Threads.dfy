/** Totals over all user threads. */
module Threads {
  import opened Model

  /** What one thread has in its hands. */
  datatype Hand = Nothing | Has(m: Message)

  function Plus(a: multiset<Message>, h: Hand): multiset<Message> {
    match h case Nothing => a case Has(m) => a + multiset{m}
  }

  function Minus(a: multiset<Message>, h: Hand): multiset<Message> {
    match h case Nothing => a case Has(m) => a - multiset{m}
  }

  predicate Within(h: Hand, a: multiset<Message>) { h.Has? ==> h.m in a }

  /** `a` after one hand `out` became `into`. */
  function Swap(a: multiset<Message>, out: Hand, into: Hand): multiset<Message> {
    if out == into then a else Plus(Minus(a, out), into)
  }

  /** The messages in the hands of all threads. */
  function Bag(ts: seq<Pc>, f: Pc -> Hand): multiset<Message> {
    if ts == [] then multiset{} else Plus(Bag(ts[1..], f), f(ts[0]))
  }

  lemma {:induction false} BagShare(ts: seq<Pc>, f: Pc -> Hand, t: nat)
    requires t < |ts|
    ensures Within(f(ts[t]), Bag(ts, f))
  {
    if t > 0 {
      BagShare(ts[1..], f, t - 1);
    }
  }

  lemma SwapFirst(a: multiset<Message>, h: Hand, h': Hand)
    ensures Swap(Plus(a, h), h, h') == Plus(a, h')
  {
    if h.Has? {
      assert a + multiset{h.m} - multiset{h.m} == a;
    }
  }

  lemma SwapLater(a: multiset<Message>, first: Hand, h: Hand, h': Hand)
    requires Within(h, a)
    ensures Plus(Swap(a, h, h'), first) == Swap(Plus(a, first), h, h')
  {
    if first.Has? && h != h' {
      var x, b := multiset{first.m}, Minus(a, h);
      assert b + x == Minus(a + x, h);
      if h'.Has? {
        assert b + multiset{h'.m} + x == b + x + multiset{h'.m};
      }
    }
  }

  /** One thread moving from `ts[t]` to `pc` changes the total by that thread's share. */
  lemma {:induction false} BagUpdate(ts: seq<Pc>, f: Pc -> Hand, t: nat, pc: Pc)
    requires t < |ts|
    ensures Bag(ts[t := pc], f) == Swap(Bag(ts, f), f(ts[t]), f(pc))
  {
    if t == 0 {
      assert ts[0 := pc][1..] == ts[1..];
      SwapFirst(Bag(ts[1..], f), f(ts[0]), f(pc));
    } else {
      BagUpdate(ts[1..], f, t - 1, pc);
      assert ts[t := pc][1..] == ts[1..][t - 1 := pc];
      BagShare(ts[1..], f, t - 1);
      SwapLater(Bag(ts[1..], f), f(ts[0]), f(ts[t]), f(pc));
    }
  }

  lemma {:induction false} BagOfNothing(ts: seq<Pc>, f: Pc -> Hand)
    requires forall t :: 0 <= t < |ts| ==> f(ts[t]) == Nothing
    ensures Bag(ts, f) == multiset{}
  {
    if ts != [] {
      BagOfNothing(ts[1..], f);
    }
  }

  /** A message a writer has counted but not yet put on the pending list. */
  function WriterHolds(pc: Pc): Hand {
    match pc
    case Writing(WDownPending(m)) => Has(m)
    case Writing(WPend(m)) => Has(m)
    case _ => Nothing
  }

  /** A message a reader has taken but not yet copied out. */
  function ReaderHolds(pc: Pc): Hand {
    match pc
    case Reading(RCopy(m, _)) => Has(m)
    case _ => Nothing
  }

  /** One for a writer that has pended its message and may still queue a work for it. */
  function AboutToQueue(pc: Pc): nat {
    match pc
    case Writing(WAlloc(_)) => 1
    case Writing(WDownWq(_)) => 1
    case Writing(WQueue(_)) => 1
    case _ => 0
  }

  /** The message between the worker's two critical sections. */
  function WorkerHolds(k: WorkerPc): seq<Message> {
    match k
    case KDownMessage(_, m) => [m]
    case KPublish(_, m) => [m]
    case _ => []
  }

  // ---- A step or call of thread `t` changes no other thread ---------------------------

  lemma OneAcceptor(s: State, t: nat, data: seq<Byte>, ok: bool)
    requires t < |s.threads|
    ensures var ts := AcceptStep(s, t, data, ok).threads; |ts| == |s.threads| && ts == s.threads[t := ts[t]]
  {
  }

  lemma OneWriter(s: State, t: nat, ok: bool)
    requires t < |s.threads| && s.threads[t].Writing? && CanStep(s, t)
    ensures var ts := WriteStep(s, t, ok).threads; |ts| == |s.threads| && ts == s.threads[t := ts[t]]
  {
    match s.threads[t].wr
    case WAccept(data) => OneAcceptor(s, t, data, ok);
    case _ =>
  }

  lemma OneFlusher(s: State, t: nat)
    requires t < |s.threads| && s.threads[t].Flushing? && CanStep(s, t)
    ensures var ts := FlushStep(s, t).threads; |ts| == |s.threads| && ts == s.threads[t := ts[t]]
  {
  }

  lemma OneThread(s: State, e: Event)
    requires Enabled(s, e)
    ensures |Apply(s, e).threads| == |s.threads|
    ensures var ts := Apply(s, e).threads;
            if e.Call? || e.Step? then ts == s.threads[e.t := ts[e.t]] else ts == s.threads
  {
    if e.Step? {
      match s.threads[e.t]
      case Writing(_) => OneWriter(s, e.t, e.ok);
      case Flushing(_, _) => OneFlusher(s, e.t);
      case _ =>
    }
  }
}
