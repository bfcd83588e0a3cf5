/** What a flush guarantees when it returns, and the order its splice produces. */
module Flush {
  import opened Lists
  import opened Model
  import opened Threads
  import opened Mailbox
  import opened Simulation

  // ---- Messages only move forward ------------------------------------------------------

  ghost function Elements(l: seq<Message>): set<Message> { set m | m in l }

  /** The messages that have been on the message list. */
  ghost function Entered(b: Box): set<Message> { set p | p in b.log.published :: p.msg }

  /** ... or are in the worker's hand. */
  ghost function Imminent(b: Box): set<Message> { Entered(b) + Elements(b.hand) }

  /** ... or are on the pending list. */
  ghost function Known(b: Box): set<Message> { Imminent(b) + Elements(b.limbo) }

  ghost predicate Forward(b: Box, b': Box) {
    Entered(b) <= Entered(b') && Imminent(b) <= Imminent(b') && Known(b) <= Known(b')
  }

  lemma MoreEntered(b: Box, b': Box, ps: seq<Publication>)
    requires b'.log.published == b.log.published + ps
    ensures Entered(b) <= Entered(b')
    ensures forall p :: p in ps ==> p.msg in Entered(b')
  {
    forall p | p in b.log.published ensures p in b'.log.published {}
  }

  lemma MatureForward(b: Box)
    requires Can(b, Mature)
    ensures Forward(b, Do(b, Mature))
  {
    var p := Publication(b.hand[0], Matured, b.now);
    MoreEntered(b, Do(b, Mature), [p]);
    assert p in [p];
    assert Elements(b.hand) == {b.hand[0]};
  }

  lemma FireForward(b: Box)
    requires Can(b, Fire)
    ensures Forward(b, Do(b, Fire))
  {
    if b.limbo != [] {
      assert b.limbo == [b.limbo[0]] + b.limbo[1..];
      assert b.limbo[0] in [b.limbo[0]];
    }
  }

  lemma SpliceForward(b: Box)
    ensures Forward(b, Do(b, SpliceAll))
    ensures Known(b) <= Imminent(Do(b, SpliceAll))
  {
    var ps := Publications(b.limbo, Spliced, b.now);
    MoreEntered(b, Do(b, SpliceAll), ps);
    forall m | m in b.limbo ensures m in Entered(Do(b, SpliceAll)) {
      var i :| 0 <= i < |b.limbo| && b.limbo[i] == m;
      assert ps[i] in ps;
    }
  }

  lemma AcceptForward(b: Box, data: seq<Byte>, delayed: bool)
    requires Can(b, Accept(data, delayed))
    ensures Forward(b, Do(b, Accept(data, delayed)))
    ensures !delayed ==> Message(|b.log.accepted|, data) in Entered(Do(b, Accept(data, delayed)))
  {
    if !delayed {
      var p := Publication(Message(|b.log.accepted|, data), Direct, b.now);
      MoreEntered(b, Do(b, Accept(data, delayed)), [p]);
      assert p in [p];
    }
  }

  lemma DoForward(b: Box, a: Action)
    requires Can(b, a)
    ensures Forward(b, Do(b, a))
  {
    match a
    case Accept(data, delayed) => AcceptForward(b, data, delayed);
    case Mature => MatureForward(b);
    case Fire => FireForward(b);
    case SpliceAll => SpliceForward(b);
    case Pended(m) => assert forall x :: x in b.limbo ==> x in b.limbo + [m];
    case _ =>
  }

  // ---- The order after a splice --------------------------------------------------------

  /** The join that kmodule/group_dev.h documents: the pending list becomes the new head. */
  function DocumentedJoin(d: Store): Store {
    d.(messageList := d.pendingList + d.messageList, pendingList := [])
  }

  /** The splice makes readers meet all pending messages, oldest first, before any message
      published earlier. */
  lemma SpliceOrder(d: Store)
    ensures ReadOrder(Splice(d).messageList) == ReadOrder(d.pendingList) + ReadOrder(d.messageList)
    ensures ReadOrder(DocumentedJoin(d).messageList) == ReadOrder(d.messageList) + ReadOrder(d.pendingList)
  {
    ReadOrderJoin(d.messageList, d.pendingList);
    ReadOrderJoin(d.pendingList, d.messageList);
  }

  /** For distinct messages the code does what its documentation says exactly when one of the
      two lists is empty. */
  lemma SpliceAsDocumented(d: Store)
    requires Distinct(d.messageList + d.pendingList)
    ensures Splice(d) == DocumentedJoin(d) <==> d.pendingList == [] || d.messageList == []
  {
    var m, p := d.messageList, d.pendingList;
    if m != [] && p != [] {
      assert (m + p)[0] == m[0] && (m + p)[|m|] == p[0] && (p + m)[0] == p[0];
      assert m + p != p + m;
    } else {
      assert m + p == p + m;
    }
  }

  // ---- A device without workqueue never runs a work ------------------------------------

  predicate UsesWorkqueue(pc: Pc) {
    (pc.Writing? && (pc.wr.WDownWq? || pc.wr.WQueue? || pc.wr.WLink?)) || PastSplice(pc)
  }

  ghost predicate Dormant(s: State) {
    !s.wqLive ==>
      && s.armed == {} && s.ready == [] && s.worker.KIdle?
      && forall t :: 0 <= t < |s.threads| ==> !UsesWorkqueue(s.threads[t])
  }

  ghost predicate StaysDormant(s: State, t: nat, s': State)
    requires t < |s.threads|
  {
    && s'.wqLive == s.wqLive && s'.worker == s.worker && t < |s'.threads|
    && (!s.wqLive && !UsesWorkqueue(s.threads[t]) ==>
          s'.armed == s.armed && s'.ready == s.ready && !UsesWorkqueue(s'.threads[t]))
  }

  lemma AcceptDormant(s: State, t: nat, data: seq<Byte>, ok: bool)
    requires t < |s.threads|
    ensures StaysDormant(s, t, AcceptStep(s, t, data, ok))
  {
  }

  lemma WriteDormant(s: State, t: nat, ok: bool)
    requires t < |s.threads| && s.threads[t].Writing? && CanStep(s, t)
    ensures StaysDormant(s, t, WriteStep(s, t, ok))
  {
    match s.threads[t].wr
    case WAccept(data) => AcceptDormant(s, t, data, ok);
    case _ =>
  }

  lemma FlushDormant(s: State, t: nat)
    requires t < |s.threads| && s.threads[t].Flushing? && CanStep(s, t)
    ensures StaysDormant(s, t, FlushStep(s, t))
  {
  }

  lemma UserDormant(s: State, e: Event)
    requires Enabled(s, e) && (e.Step? || e.Call?)
    ensures StaysDormant(s, e.t, Apply(s, e))
  {
    if e.Step? {
      match s.threads[e.t]
      case Writing(_) => WriteDormant(s, e.t, e.ok);
      case Reading(_) =>
      case Flushing(_, _) => FlushDormant(s, e.t);
    }
  }

  lemma StepDormant(s: State, e: Event)
    requires Dormant(s) && Enabled(s, e)
    ensures Dormant(Apply(s, e))
  {
    OneThread(s, e);
    if e.Step? || e.Call? {
      UserDormant(s, e);
    } else if e.WorkerStep? {
      assert Apply(s, e).wqLive == s.wqLive;
    }
  }

  // ---- Completed writes are not lost ---------------------------------------------------

  predicate Finishing(pc: WritePc) { pc.WAlloc? || pc.WDownWq? || pc.WQueue? || pc.WLink? }

  /** How far messages have come: `known` includes `imminent`, which includes `entered`. */
  datatype Extent = Extent(known: set<Message>, imminent: set<Message>, entered: set<Message>)

  ghost function ExtentOf(b: Box): Extent { Extent(Known(b), Imminent(b), Entered(b)) }

  predicate Grows(x: Extent, x': Extent) {
    x.known <= x'.known && x.imminent <= x'.imminent && x.entered <= x'.entered
  }

  /** What a thread may rely on. */
  predicate Relies(pc: Pc, completed: set<Message>, x: Extent) {
    && (pc.Writing? && Finishing(pc.wr) ==> pc.wr.m in x.known)
    && (pc.Flushing? ==>
          && pc.before <= completed
          && (PastSplice(pc) ==> pc.before <= x.imminent)
          && (pc.fl.FEnd? ==> pc.before <= x.entered))
  }

  ghost predicate Tracked(s: State, x: Extent) {
    && s.calls.completed <= x.known
    && (forall t :: 0 <= t < |s.threads| ==> Relies(s.threads[t], s.calls.completed, x))
    && (forall i :: 0 <= i < |s.calls.flushes| ==> s.calls.flushes[i] <= x.entered)
  }

  /** The effect of one thread's step on what is claimed about calls. */
  ghost predicate Tracks(s: State, t: nat, s': State, x: Extent)
    requires t < |s.threads|
  {
    && t < |s'.threads| && Relies(s'.threads[t], s'.calls.completed, x)
    && s.calls.completed <= s'.calls.completed <= x.known
    && (s'.calls.flushes == s.calls.flushes
        || exists f :: f <= x.entered && s'.calls.flushes == s.calls.flushes + [f])
  }

  lemma AcceptTracks(s: State, t: nat, data: seq<Byte>, ok: bool, x: Extent)
    requires t < |s.threads| && s.calls.completed <= x.known && x.entered <= x.known
    requires ok && s.dev.messagesNumber < s.maxStorage && s.dev.delay == 0 ==> Message(|s.log.accepted|, data) in x.entered
    ensures Tracks(s, t, AcceptStep(s, t, data, ok), x)
  {
  }

  lemma WriteTracks(s: State, t: nat, ok: bool, x: Extent)
    requires t < |s.threads| && s.threads[t].Writing? && CanStep(s, t) && !s.threads[t].wr.WAccept?
    requires s.calls.completed <= x.known && Relies(s.threads[t], s.calls.completed, x)
    requires s.threads[t].wr.WPend? ==> s.threads[t].wr.m in x.known
    ensures Tracks(s, t, WriteStep(s, t, ok), x)
  {
  }

  lemma ReturnTracks(s: State, t: nat, before: set<Message>, x: Extent)
    requires t < |s.threads| && s.calls.completed <= x.known && before <= x.entered
    ensures Tracks(s, t, FlushReturn(s, t, before), x)
  {
    assert before <= x.entered && FlushReturn(s, t, before).calls.flushes == s.calls.flushes + [before];
  }

  lemma SpliceTracks(s: State, t: nat, before: set<Message>, x: Extent)
    requires t < |s.threads| && s.threads[t] == Flushing(FSplice, before)
    requires s.calls.completed <= x.known && before <= s.calls.completed
    requires before <= x.imminent && (!s.wqLive ==> x.imminent <= x.entered)
    ensures Tracks(s, t, FlushStep(s, t), x)
  {
    if !s.wqLive {
      ReturnTracks(s, t, before, x);
    }
  }

  lemma FlushTracks(s: State, t: nat, x: Extent)
    requires t < |s.threads| && s.threads[t].Flushing? && CanStep(s, t)
    requires s.calls.completed <= x.known && Relies(s.threads[t], s.calls.completed, x)
    requires s.threads[t].fl.FSplice? ==> s.threads[t].before <= x.imminent && (!s.wqLive ==> x.imminent <= x.entered)
    requires s.threads[t].fl.FDrain? ==> x.imminent <= x.entered
    ensures Tracks(s, t, FlushStep(s, t), x)
  {
    match s.threads[t].fl
    case FSplice => SpliceTracks(s, t, s.threads[t].before, x);
    case FEnd => ReturnTracks(s, t, s.threads[t].before, x);
    case _ =>
  }

  /** What a step of thread `t` adds to the extent of the messages. */
  ghost predicate Suffices(s: State, t: nat, ok: bool, x: Extent, x': Extent)
    requires t < |s.threads|
  {
    && Grows(x, x') && x'.entered <= x'.known
    && (match s.threads[t]
        case Writing(WAccept(data)) =>
          ok && s.dev.messagesNumber < s.maxStorage && s.dev.delay == 0 ==> Message(|s.log.accepted|, data) in x'.entered
        case Writing(WPend(m)) => m in x'.known
        case Flushing(FSplice, _) => x.known <= x'.imminent && (!s.wqLive ==> x'.imminent <= x'.entered)
        case Flushing(FDrain, _) => x'.imminent <= x'.entered
        case _ => true)
  }

  lemma UserTracks(s: State, t: nat, ok: bool, x: Extent, x': Extent)
    requires Enabled(s, Step(t, ok)) && Tracked(s, x) && Suffices(s, t, ok, x, x')
    ensures Tracks(s, t, Apply(s, Step(t, ok)), x')
  {
    match s.threads[t]
    case Writing(WAccept(data)) => AcceptTracks(s, t, data, ok, x');
    case Writing(_) => WriteTracks(s, t, ok, x');
    case Reading(_) =>
    case Flushing(_, _) => FlushTracks(s, t, x');
  }

  lemma OthersRely(s: State, s': State, t: nat, x: Extent, x': Extent)
    requires Tracked(s, x) && Grows(x, x') && t < |s.threads| && Tracks(s, t, s', x')
    requires |s'.threads| == |s.threads| && s'.threads == s.threads[t := s'.threads[t]]
    ensures Tracked(s', x')
  {
  }

  /** The action of a step provides what its thread needs. */
  lemma ActionSuffices(s: State, t: nat, ok: bool, b: Box, b': Box)
    requires Enabled(s, Step(t, ok)) && Dormant(s)
    requires b.hand == WorkerHolds(s.worker) && b.log == s.log
    requires var a := ActionOf(s, Step(t, ok)); Can(b, a) && b' == Do(b, a)
    ensures Suffices(s, t, ok, ExtentOf(b), ExtentOf(b'))
  {
    DoForward(b, ActionOf(s, Step(t, ok)));
    match s.threads[t]
    case Writing(WAccept(data)) =>
      if ok && s.dev.messagesNumber < s.maxStorage && s.dev.delay == 0 { AcceptForward(b, data, false); }
    case Writing(WPend(m)) => assert m in b'.limbo;
    case Flushing(FSplice, _) => SpliceForward(b);
    case _ =>
  }

  lemma StepTracked(s: State, e: Event)
    requires Marked(s) && Dormant(s) && Enabled(s, e) && Tracked(s, ExtentOf(BoxOf(s)))
    ensures Tracked(Apply(s, e), ExtentOf(BoxOf(Apply(s, e))))
  {
    var b, b' := BoxOf(s), BoxOf(Apply(s, e));
    SimStep(s, e);
    TrackedWith(s, e, b, b');
  }

  lemma CallTracks(s: State, t: nat, req: Request, x: Extent)
    requires Enabled(s, Call(t, req)) && Tracked(s, x)
    ensures Tracks(s, t, Begin(s, t, req), x)
  {
  }

  /** The worker, timers and parameters leave calls alone. */
  lemma OthersKeepCalls(s: State, e: Event, x: Extent, x': Extent)
    requires Enabled(s, e) && !e.Step? && !e.Call? && Tracked(s, x) && Grows(x, x')
    ensures Tracked(Apply(s, e), x')
  {
    assert Apply(s, e).calls == s.calls && Apply(s, e).threads == s.threads;
  }

  lemma TrackedWith(s: State, e: Event, b: Box, b': Box)
    requires Dormant(s) && Enabled(s, e) && Tracked(s, ExtentOf(b))
    requires b.hand == WorkerHolds(s.worker) && b.log == s.log
    requires Can(b, ActionOf(s, e)) && b' == Do(b, ActionOf(s, e))
    ensures Tracked(Apply(s, e), ExtentOf(b'))
  {
    OneThread(s, e);
    DoForward(b, ActionOf(s, e));
    var x, x' := ExtentOf(b), ExtentOf(b');
    match e
    case Step(t, ok) =>
      ActionSuffices(s, t, ok, b, b');
      UserTracks(s, t, ok, x, x');
      OthersRely(s, Apply(s, e), t, x, x');
    case Call(t, req) =>
      CallTracks(s, t, req, x);
      OthersRely(s, Apply(s, e), t, x, x');
    case _ => OthersKeepCalls(s, e, x, x');
  }
}
