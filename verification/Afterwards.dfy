/** The delay guarantee counted from any moment, also after flushes: it holds from there on as
    long as works do not outnumber the pending messages. */
module Afterwards {
  import opened Model
  import opened Mailbox
  import opened Works
  import opened Order

  // ---- The moment from which we count --------------------------------------------------

  /** What is on record at that moment: messages pended, works queued, messages published by the
      worker, messages it has still to publish, and writers about to queue a work. */
  datatype Base = Base(pended: nat, queued: nat, matured: nat, waiting: nat, about: nat)

  ghost function BaseOf(b: Box): Base {
    Base(|b.log.pended|, |b.log.queued|, |Maturities(b.log.published)|, |b.hand| + |b.limbo|, b.about)
  }

  /** Works queued or about to be queued do not outnumber the pending messages. */
  ghost predicate Matched(b: Box) { Unfired(b) + b.about <= |b.limbo| }

  /** Actions without a flush: no splice, and works leave their timers when due. */
  predicate Prompt(b: Box, a: Action) {
    !a.SpliceAll? && (a.Readied? ==> a.w < |b.log.queued| && Due(b.log, a.w) <= b.now)
  }

  // ---- The pending list is the end of the pending log ----------------------------------

  ghost predicate Suffixed(b: Box) { |b.hand| <= 1 && IsSuffix(b.limbo, b.log.pended) }

  ghost predicate IsSuffix(limbo: seq<Message>, pended: seq<Stamp>) {
    && |limbo| <= |pended|
    && forall i :: 0 <= i < |limbo| ==> limbo[i] == pended[|pended| - |limbo| + i].msg
  }

  lemma SuffixGrows(limbo: seq<Message>, pended: seq<Stamp>, st: Stamp)
    requires IsSuffix(limbo, pended)
    ensures IsSuffix(limbo + [st.msg], pended + [st])
  {
  }

  lemma SuffixShrinks(limbo: seq<Message>, pended: seq<Stamp>)
    requires IsSuffix(limbo, pended) && limbo != []
    ensures IsSuffix(limbo[1..], pended)
  {
  }

  lemma DoSuffixed(b: Box, a: Action)
    requires Suffixed(b) && Can(b, a)
    ensures Suffixed(Do(b, a))
  {
    match a
    case Pended(m) => SuffixGrows(b.limbo, b.log.pended, Stamp(m, b.now));
    case Fire =>
      if b.limbo != [] {
        SuffixShrinks(b.limbo, b.log.pended);
      }
    case _ =>
  }

  // ---- Counts --------------------------------------------------------------------------

  /** Enough works have fired for the messages taken, and no work was queued for a later message
      before that message was pended. */
  ghost predicate Counted(b: Box, c: Base) {
    && c.pended <= |b.log.pended| && c.queued <= |b.log.queued|
    && |b.log.fired| + |b.limbo| + c.pended >= c.queued + c.about + |b.log.pended|
    && |b.log.queued| + b.about + c.pended <= c.queued + c.about + |b.log.pended|
    && |Maturities(b.log.published)| + |b.hand| + |b.limbo| + c.pended == c.matured + c.waiting + |b.log.pended|
  }

  lemma BaseCounted(b: Box)
    requires Matched(b) && Placed(b)
    ensures Counted(b, BaseOf(b))
  {
  }

  lemma FireCounted(b: Box, c: Base)
    requires Counted(b, c) && Placed(b) && Can(b, Fire)
    ensures Counted(Do(b, Fire), c)
  {
    assert b.current.w !in b.log.fired;
  }

  lemma MatureCounted(b: Box, c: Base)
    requires Counted(b, c) && Can(b, Mature)
    ensures Counted(Do(b, Mature), c)
  {
    Appended(b.log.published, Publication(b.hand[0], Matured, b.now));
  }

  lemma DoCounted(b: Box, a: Action, c: Base)
    requires Counted(b, c) && Placed(b) && Can(b, a) && Prompt(b, a)
    ensures Counted(Do(b, a), c)
  {
    match a
    case Fire => FireCounted(b, c);
    case Mature => MatureCounted(b, c);
    case Accept(data, delayed) =>
      Appended(b.log.published, Publication(Message(|b.log.accepted|, data), Direct, b.now));
    case _ =>
  }

  // ---- Times ---------------------------------------------------------------------------

  /** The r-th work that can only belong to a later message was queued after the r-th later
      message was pended. */
  ghost predicate QueuedAfter(b: Box, c: Base) {
    forall j :: c.queued + c.about <= j < |b.log.queued| ==>
      Follows(b.log.queued[j], c.pended + j - c.queued - c.about, b.log.pended)
  }

  /** The work was queued no earlier than the k-th message was pended. */
  ghost predicate Follows(q: Queueing, k: int, pended: seq<Stamp>) {
    0 <= k < |pended| && pended[k].at <= q.at
  }

  lemma QueueQueuedAfter(b: Box, delay: nat, c: Base)
    requires QueuedAfter(b, c) && Counted(b, c) && Ordered(b) && Can(b, QueueWork(delay))
    ensures QueuedAfter(Do(b, QueueWork(delay)), c)
  {
    var b', q := Do(b, QueueWork(delay)), |b.log.queued|;
    if q >= c.queued + c.about {
      assert Follows(b'.log.queued[q], c.pended + q - c.queued - c.about, b.log.pended);
    }
  }

  lemma StillFollows(pended: seq<Stamp>, st: Stamp)
    ensures forall q, k :: Follows(q, k, pended) ==> Follows(q, k, pended + [st])
  {
  }

  lemma PendedQueuedAfter(b: Box, m: Message, c: Base)
    requires QueuedAfter(b, c) && Can(b, Pended(m))
    ensures QueuedAfter(Do(b, Pended(m)), c)
  {
    StillFollows(b.log.pended, Stamp(m, b.now));
  }

  lemma DoQueuedAfter(b: Box, a: Action, c: Base)
    requires QueuedAfter(b, c) && Counted(b, c) && Ordered(b) && Can(b, a)
    ensures QueuedAfter(Do(b, a), c)
  {
    match a
    case QueueWork(delay) => QueueQueuedAfter(b, delay, c);
    case Pended(m) => PendedQueuedAfter(b, m, c);
    case _ =>
  }

  /** Works queued since then left their timers when due. */
  ghost predicate DueSince(b: Box, c: Base)
    requires Placed(b)
  {
    && (forall w :: w in b.ready && w >= c.queued ==> Due(b.log, w) <= b.now)
    && (b.current.Before? && b.current.w >= c.queued ==> Due(b.log, b.current.w) <= b.now)
    && (forall w :: w in b.log.fired && w >= c.queued ==> Due(b.log, w) <= b.now)
  }

  ghost predicate OnTimeSince(b: Box, c: Base) { Placed(b) && DueSince(b, c) }

  lemma QueueOnTime(b: Box, delay: nat, c: Base)
    requires Timely(b) && OnTimeSince(b, c) && Can(b, QueueWork(delay))
    ensures OnTimeSince(Do(b, QueueWork(delay)), c)
  {
    QueueTimely(b, delay);
    var q' := Do(b, QueueWork(delay)).log.queued;
    assert forall j :: 0 <= j < |b.log.queued| ==> q'[j] == b.log.queued[j];
  }

  lemma StartOnTime(b: Box, c: Base)
    requires Timely(b) && OnTimeSince(b, c) && Can(b, Start)
    ensures OnTimeSince(Do(b, Start), c)
  {
    StartTimely(b);
    assert b.ready == [b.ready[0]] + b.ready[1..];
  }

  lemma FireOnTime(b: Box, c: Base)
    requires Timely(b) && OnTimeSince(b, c) && Can(b, Fire)
    ensures OnTimeSince(Do(b, Fire), c)
  {
    FireTimely(b);
  }

  lemma ReadiedOnTime(b: Box, w: nat, c: Base)
    requires Timely(b) && OnTimeSince(b, c) && Can(b, Readied(w)) && Prompt(b, Readied(w))
    ensures OnTimeSince(Do(b, Readied(w)), c)
  {
    ReadiedTimely(b, w);
  }

  lemma SameOnTime(b: Box, b': Box, c: Base)
    requires Timely(b) && OnTimeSince(b, c) && SamePlaces(b, b')
    ensures OnTimeSince(b', c)
  {
    SameTimely(b, b');
  }

  lemma DoOnTime(b: Box, a: Action, c: Base)
    requires Timely(b) && OnTimeSince(b, c) && Can(b, a) && Prompt(b, a)
    ensures OnTimeSince(Do(b, a), c)
  {
    match a
    case QueueWork(delay) => QueueOnTime(b, delay, c);
    case Start => StartOnTime(b, c);
    case Readied(w) => ReadiedOnTime(b, w, c);
    case Fire => FireOnTime(b, c);
    case SpliceAll =>
    case _ => SameOnTime(b, Do(b, a), c);
  }

  // ---- Never early ---------------------------------------------------------------------

  /** All works queued since then have a delay of at least `d`. */
  ghost predicate SlowSince(b: Box, c: Base, d: nat) {
    forall j :: c.queued <= j < |b.log.queued| ==> b.log.queued[j].delay >= d
  }

  /** The i-th later message the worker published is the i-th pended, and came no less than `d`
      after that. */
  ghost predicate Late(ms: seq<Publication>, pended: seq<Stamp>, c: Base, d: nat) {
    forall k :: c.matured + c.waiting <= k < |ms| ==> InTime(ms[k].msg, ms[k].at, k, pended, c, d)
  }

  /** The message `m` is the one that matures k-th, at time `at`. */
  ghost predicate InTime(m: Message, at: nat, k: nat, pended: seq<Stamp>, c: Base, d: nat) {
    var i := c.pended + k - c.matured - c.waiting;
    0 <= i < |pended| && m == pended[i].msg && pended[i].at + d <= at
  }

  /** So is the message in the worker's hand. */
  ghost predicate HandLate(hand: seq<Message>, n: nat, now: nat, pended: seq<Stamp>, c: Base, d: nat) {
    hand != [] && n >= c.matured + c.waiting ==> InTime(hand[0], now, n, pended, c, d)
  }

  ghost predicate NotEarlySince(b: Box, c: Base, d: nat) {
    SlowSince(b, c, d) ==>
      && Late(Maturities(b.log.published), b.log.pended, c, d)
      && HandLate(b.hand, |Maturities(b.log.published)|, b.now, b.log.pended, c, d)
  }

  /** A fired work that can only belong to the next later message or one pended after it. */
  lemma LaterWork(b: Box, c: Base) returns (w: nat)
    requires Placed(b) && Counted(b, c) && Can(b, Fire) && b.limbo != [] && |b.log.pended| - |b.limbo| >= c.pended
    ensures w in b.log.fired + {b.current.w}
    ensures c.queued + c.about + |b.log.pended| - |b.limbo| - c.pended <= w < |b.log.queued|
  {
    assert b.current.w !in b.log.fired;
    w := Reaches(b.log.fired + {b.current.w}, c.queued + c.about + |b.log.pended| - |b.limbo| - c.pended);
  }

  /** It was queued, with delay at least `d`, after the next later message was pended, and it was
      due when it fired. */
  lemma WaitedSince(b: Box, c: Base, d: nat)
    requires Ordered(b) && Counted(b, c) && QueuedAfter(b, c) && OnTimeSince(b, c) && SlowSince(b, c, d)
    requires Can(b, Fire) && b.limbo != [] && |b.log.pended| - |b.limbo| >= c.pended
    ensures b.log.pended[|b.log.pended| - |b.limbo|].at + d <= b.now
  {
    var w := LaterWork(b, c);
    var j := c.queued + c.about + |b.log.pended| - |b.limbo| - c.pended;
    QueuedInOrder(b, j, w);
    assert Due(b.log, w) <= b.now && b.log.queued[w].delay >= d;
  }

  lemma QueuedInOrder(b: Box, j: nat, w: nat)
    requires Ordered(b) && j <= w < |b.log.queued|
    ensures b.log.queued[j].at <= b.log.queued[w].at
  {
  }

  /** The message a firing work takes is the next later one, if it is a later one. */
  lemma TakenInTime(b: Box, c: Base, d: nat)
    requires Ordered(b) && Suffixed(b) && Counted(b, c) && QueuedAfter(b, c) && OnTimeSince(b, c) && SlowSince(b, c, d)
    requires Can(b, Fire) && b.limbo != []
    ensures HandLate([b.limbo[0]], |Maturities(b.log.published)|, b.now, b.log.pended, c, d)
  {
    if |Maturities(b.log.published)| >= c.matured + c.waiting {
      NextLater(b, c);
      WaitedSince(b, c, d);
    }
  }

  lemma NextLater(b: Box, c: Base)
    requires Suffixed(b) && Counted(b, c) && b.hand == [] && b.limbo != []
    ensures c.pended + |Maturities(b.log.published)| - c.matured - c.waiting == |b.log.pended| - |b.limbo|
    ensures b.limbo[0] == b.log.pended[|b.log.pended| - |b.limbo|].msg
  {
  }

  lemma FireNotEarlySince(b: Box, c: Base, d: nat)
    requires Ordered(b) && Suffixed(b) && Counted(b, c) && QueuedAfter(b, c) && OnTimeSince(b, c)
    requires NotEarlySince(b, c, d) && Can(b, Fire)
    ensures NotEarlySince(Do(b, Fire), c, d)
  {
    var b' := Do(b, Fire);
    assert b'.log.pended == b.log.pended && b'.log.published == b.log.published && b'.log.queued == b.log.queued;
    if SlowSince(b, c, d) && b.limbo != [] {
      TakenInTime(b, c, d);
    }
  }

  lemma MatureNotEarlySince(b: Box, c: Base, d: nat)
    requires NotEarlySince(b, c, d) && Can(b, Mature)
    ensures NotEarlySince(Do(b, Mature), c, d)
  {
    Appended(b.log.published, Publication(b.hand[0], Matured, b.now));
  }

  lemma PendedNotEarlySince(b: Box, m: Message, c: Base, d: nat)
    requires NotEarlySince(b, c, d) && Can(b, Pended(m))
    ensures NotEarlySince(Do(b, Pended(m)), c, d)
  {
    StillInTime(b.log.pended, Stamp(m, b.now), c, d);
  }

  lemma StillInTime(pended: seq<Stamp>, st: Stamp, c: Base, d: nat)
    ensures forall m, at, k: nat :: InTime(m, at, k, pended, c, d) ==> InTime(m, at, k, pended + [st], c, d)
  {
  }

  /** Actions that touch none of the logs concerned. */
  lemma SameNotEarlySince(b: Box, b': Box, c: Base, d: nat)
    requires NotEarlySince(b, c, d) && b'.log.pended == b.log.pended && b'.hand == b.hand && b.now <= b'.now
    requires Maturities(b'.log.published) == Maturities(b.log.published)
    requires b.log.queued <= b'.log.queued
    ensures NotEarlySince(b', c, d)
  {
    assert forall j :: 0 <= j < |b.log.queued| ==> b'.log.queued[j] == b.log.queued[j];
  }

  predicate Touches(a: Action) { a.Fire? || a.Mature? || a.Pended? || a.Accept? || a.SpliceAll? }

  lemma OtherActions(b: Box, a: Action)
    requires Can(b, a) && !Touches(a)
    ensures var b' := Do(b, a);
            && b'.log.pended == b.log.pended && b'.log.published == b.log.published && b.log.queued <= b'.log.queued
            && b'.hand == b.hand && b.now <= b'.now
  {
  }

  lemma AcceptNotEarlySince(b: Box, data: seq<Byte>, delayed: bool, c: Base, d: nat)
    requires NotEarlySince(b, c, d) && Can(b, Accept(data, delayed))
    ensures NotEarlySince(Do(b, Accept(data, delayed)), c, d)
  {
    Appended(b.log.published, Publication(Message(|b.log.accepted|, data), Direct, b.now));
    SameNotEarlySince(b, Do(b, Accept(data, delayed)), c, d);
  }

  lemma DoNotEarlySince(b: Box, a: Action, c: Base, d: nat)
    requires Ordered(b) && Suffixed(b) && Counted(b, c) && QueuedAfter(b, c) && OnTimeSince(b, c)
    requires NotEarlySince(b, c, d) && Can(b, a) && !a.SpliceAll?
    ensures NotEarlySince(Do(b, a), c, d)
  {
    if !Touches(a) {
      OtherActions(b, a);
      SameNotEarlySince(b, Do(b, a), c, d);
    } else if a.Fire? {
      FireNotEarlySince(b, c, d);
    } else if a.Mature? {
      MatureNotEarlySince(b, c, d);
    } else if a.Pended? {
      PendedNotEarlySince(b, a.m, c, d);
    } else {
      AcceptNotEarlySince(b, a.data, a.delayed, c, d);
    }
  }

  // ---- All together --------------------------------------------------------------------

  ghost predicate Since(b: Box, c: Base, d: nat) {
    Suffixed(b) && Counted(b, c) && QueuedAfter(b, c) && OnTimeSince(b, c) && NotEarlySince(b, c, d)
  }

  lemma BaseSince(b: Box, d: nat)
    requires Matched(b) && Timely(b) && Suffixed(b)
    ensures Since(b, BaseOf(b), d)
  {
    BaseCounted(b);
  }

  lemma DoSince(b: Box, a: Action, c: Base, d: nat)
    requires Since(b, c, d) && Ordered(b) && Timely(b) && Can(b, a) && Prompt(b, a)
    ensures Since(Do(b, a), c, d)
  {
    DoSuffixed(b, a);
    DoCounted(b, a, c);
    DoQueuedAfter(b, a, c);
    DoOnTime(b, a, c);
    DoNotEarlySince(b, a, c, d);
  }
}
