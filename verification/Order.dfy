/** FIFO order and the delay guarantee, in every run of the mailbox before its first flush. */
module Order {
  import opened Model
  import opened Mailbox
  import opened Works

  // ---- Readings of the log -------------------------------------------------------------

  /** All messages put on the message list, in order. */
  ghost function Messages(ps: seq<Publication>): seq<Message> {
    if ps == [] then [] else Messages(ps[..|ps| - 1]) + [Last(ps).msg]
  }

  /** The publications made by the worker. */
  ghost function Maturities(ps: seq<Publication>): seq<Publication> {
    if ps == [] then []
    else if Last(ps).route.Matured? then Maturities(ps[..|ps| - 1]) + [Last(ps)]
    else Maturities(ps[..|ps| - 1])
  }

  lemma Appended(ps: seq<Publication>, p: Publication)
    ensures Messages(ps + [p]) == Messages(ps) + [p.msg]
    ensures Maturities(ps + [p]) == if p.route.Matured? then Maturities(ps) + [p] else Maturities(ps)
  {
    assert (ps + [p])[..|ps|] == ps;
  }

  // ---- Order ---------------------------------------------------------------------------

  /** What readers have removed, then what they will remove, is the publication log. */
  ghost predicate Fifo(b: Box) {
    !b.log.flushed ==> Messages(b.log.published) == b.log.removed + b.queue
  }

  /** The k-th message to pend is the k-th to mature; the rest is in hand or in limbo, in order. */
  ghost predicate InOrder(b: Box) {
    !b.log.flushed ==>
      var n := |Maturities(b.log.published)|;
      && |b.hand| <= 1
      && |b.log.pended| == n + |b.hand| + |b.limbo|
      && (forall k :: 0 <= k < n ==> Maturities(b.log.published)[k].msg == b.log.pended[k].msg)
      && (b.hand != [] ==> b.hand[0] == b.log.pended[n].msg)
      && (forall k :: 0 <= k < |b.limbo| ==> b.limbo[k] == b.log.pended[n + |b.hand| + k].msg)
  }

  lemma DoFifo(b: Box, a: Action)
    requires Fifo(b) && Can(b, a)
    ensures Fifo(Do(b, a))
  {
    match a
    case Accept(data, delayed) => AcceptFifo(b, data, delayed);
    case Mature => MatureFifo(b);
    case Remove(_) => Associates(b.log.removed, b.queue[..1], b.queue[1..]);
    case _ =>
  }

  lemma Associates(a: seq<Message>, b: seq<Message>, c: seq<Message>)
    ensures a + (b + c) == (a + b) + c
  {
  }

  lemma AcceptFifo(b: Box, data: seq<Byte>, delayed: bool)
    requires Fifo(b) && Can(b, Accept(data, delayed))
    ensures Fifo(Do(b, Accept(data, delayed)))
  {
    var m := Message(|b.log.accepted|, data);
    Appended(b.log.published, Publication(m, Direct, b.now));
    Associates(b.log.removed, b.queue, [m]);
  }

  lemma MatureFifo(b: Box)
    requires Fifo(b) && Can(b, Mature)
    ensures Fifo(Do(b, Mature))
  {
    assert b.hand == [b.hand[0]];
    Appended(b.log.published, Publication(b.hand[0], Matured, b.now));
    Associates(b.log.removed, b.queue, b.hand);
  }

  lemma AcceptInOrder(b: Box, data: seq<Byte>, delayed: bool)
    requires InOrder(b) && Can(b, Accept(data, delayed))
    ensures InOrder(Do(b, Accept(data, delayed)))
  {
    Appended(b.log.published, Publication(Message(|b.log.accepted|, data), Direct, b.now));
  }

  lemma MatureInOrder(b: Box)
    requires InOrder(b) && Can(b, Mature)
    ensures InOrder(Do(b, Mature))
  {
    Appended(b.log.published, Publication(b.hand[0], Matured, b.now));
  }

  lemma FireInOrder(b: Box)
    requires InOrder(b) && Can(b, Fire)
    ensures InOrder(Do(b, Fire))
  {
  }

  lemma DoInOrder(b: Box, a: Action)
    requires InOrder(b) && Can(b, a)
    ensures InOrder(Do(b, a))
  {
    match a
    case Accept(data, delayed) => AcceptInOrder(b, data, delayed);
    case Mature => MatureInOrder(b);
    case Fire => FireInOrder(b);
    case _ =>
  }

  // ---- Never early ---------------------------------------------------------------------

  /** The k-th work was queued no earlier than the k-th message was pended. */
  ghost predicate Ordered(b: Box) {
    && |b.log.queued| <= |b.log.pended|
    && (forall j :: 0 <= j < |b.log.pended| ==> b.log.pended[j].at <= b.now)
    && (forall j :: 0 <= j < |b.log.queued| ==>
          b.log.pended[j].at <= b.log.queued[j].at <= b.now)
    && (forall i, j :: 0 <= i < j < |b.log.queued| ==> b.log.queued[i].at <= b.log.queued[j].at)
  }

  /** All works so far were queued with a delay of at least `d`. */
  ghost predicate AtLeast(b: Box, d: nat) {
    forall j :: 0 <= j < |b.log.queued| ==> b.log.queued[j].delay >= d
  }

  /** Before the first splice, every fired work was due when it fired. */
  ghost predicate FiredLate(b: Box) {
    !b.log.flushed ==>
      forall w :: w in b.log.fired ==> w < |b.log.queued| && Due(b.log, w) <= b.now
  }

  /** No message that matured, or is in the worker's hand, left limbo less than `d` after it
      was pended. */
  ghost predicate NotEarly(b: Box, d: nat) {
    AtLeast(b, d) && !b.log.flushed ==>
      var ms := Maturities(b.log.published);
      && |b.log.fired| == |ms| + |b.hand| <= |b.log.pended|
      && (forall k :: 0 <= k < |ms| ==> b.log.pended[k].at + d <= ms[k].at)
      && (b.hand != [] ==> b.log.pended[|ms|].at + d <= b.now)
  }

  ghost predicate Clocked(b: Box, d: nat) { Ordered(b) && FiredLate(b) && NotEarly(b, d) }

  lemma QueueOrdered(b: Box, delay: nat)
    requires Ordered(b) && Covered(b) && Placed(b) && Can(b, QueueWork(delay))
    ensures Ordered(Do(b, QueueWork(delay)))
  {
  }

  lemma DoOrdered(b: Box, a: Action)
    requires Ordered(b) && Covered(b) && Placed(b) && Can(b, a)
    ensures Ordered(Do(b, a))
  {
    match a
    case QueueWork(delay) => QueueOrdered(b, delay);
    case _ =>
  }

  lemma FireFiredLate(b: Box)
    requires FiredLate(b) && Timely(b) && Can(b, Fire)
    ensures FiredLate(Do(b, Fire))
  {
  }

  lemma QueueFiredLate(b: Box, delay: nat)
    requires FiredLate(b) && Can(b, QueueWork(delay))
    ensures FiredLate(Do(b, QueueWork(delay)))
  {
    assert forall w: nat :: w < |b.log.queued| ==> Do(b, QueueWork(delay)).log.queued[w] == b.log.queued[w];
  }

  lemma DoFiredLate(b: Box, a: Action)
    requires FiredLate(b) && Timely(b) && Can(b, a)
    ensures FiredLate(Do(b, a))
  {
    match a
    case Fire => FireFiredLate(b);
    case QueueWork(delay) => QueueFiredLate(b, delay);
    case _ =>
  }

  /** A set with more than `k` naturals reaches `k`. */
  lemma Reaches(s: set<nat>, k: nat) returns (w: nat)
    requires |s| > k
    ensures w in s && w >= k
  {
    if forall v :: v in s ==> v < k {
      Below(k, s);
    }
    w :| w in s && w >= k;
  }

  /** When the works `fired` have fired, all queued with delay `d` or more and all due, as many
      messages have waited at least `d`: some of the works was queued after the last of them. */
  lemma Waited(b: Box, fired: set<nat>, d: nat)
    requires Ordered(b) && AtLeast(b, d) && fired != {}
    requires forall w :: w in fired ==> w < |b.log.queued| && Due(b.log, w) <= b.now
    ensures |fired| <= |b.log.pended| && b.log.pended[|fired| - 1].at + d <= b.now
  {
    var k := |fired| - 1;
    var w := Reaches(fired, k);
    Below(|b.log.queued|, fired);
    assert b.log.queued[k].at <= b.log.queued[w].at;
  }

  lemma FiredWaited(b: Box, d: nat)
    requires Ordered(b) && FiredLate(b) && Timely(b) && Can(b, Fire) && AtLeast(b, d) && !b.log.flushed
    ensures |b.log.fired| < |b.log.pended| && b.log.pended[|b.log.fired|].at + d <= b.now
  {
    var fired := b.log.fired + {b.current.w};
    assert |fired| == |b.log.fired| + 1;
    Waited(b, fired, d);
  }

  lemma FireNotEarly(b: Box, d: nat)
    requires Clocked(b, d) && Covered(b) && Timely(b) && Can(b, Fire)
    ensures NotEarly(Do(b, Fire), d)
  {
    if AtLeast(b, d) && !b.log.flushed {
      FiringFindsMessage(b);
      FiredWaited(b, d);
    }
  }

  lemma MatureNotEarly(b: Box, d: nat)
    requires NotEarly(b, d) && Can(b, Mature)
    ensures NotEarly(Do(b, Mature), d)
  {
    Appended(b.log.published, Publication(b.hand[0], Matured, b.now));
  }

  lemma DoNotEarly(b: Box, a: Action, d: nat)
    requires Clocked(b, d) && Covered(b) && Timely(b) && Can(b, a)
    ensures NotEarly(Do(b, a), d)
  {
    match a
    case Fire => FireNotEarly(b, d);
    case Mature => MatureNotEarly(b, d);
    case Accept(data, delayed) =>
      Appended(b.log.published, Publication(Message(|b.log.accepted|, data), Direct, b.now));
    case QueueWork(delay) =>
      assert AtLeast(Do(b, a), d) ==> AtLeast(b, d) by {
        assert forall j :: 0 <= j < |b.log.queued| ==> Do(b, a).log.queued[j] == b.log.queued[j];
      }
    case _ =>
  }
}
