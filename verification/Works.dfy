/** Where the delayed works are, and why before any flush each one finds a message. */
module Works {
  import opened Lists
  import opened Model
  import opened Mailbox

  /** Each queued work is in exactly one place: its timer runs, it waits in the workqueue, the
      worker is about to take a message with it, or it has fired. */
  ghost predicate Placed(b: Box) {
    && b.count == |b.log.queued|
    && (forall w :: w in b.armed ==> w < b.count && w !in b.log.fired && w !in b.ready)
    && Distinct(b.ready)
    && (forall w :: w in b.ready ==> w < b.count && w !in b.log.fired)
    && (forall w :: w in b.log.fired ==> w < b.count)
    && (b.current.Before? ==>
          && b.current.w < b.count && b.current.w !in b.armed
          && b.current.w !in b.ready && b.current.w !in b.log.fired)
    && (b.current.After? ==> b.current.w in b.log.fired)
    && (forall w: nat :: w < b.count ==>
          w in b.armed || w in b.ready || b.current == Before(w) || w in b.log.fired)
  }

  /** Before the first splice no work leaves its timer ahead of time. */
  ghost predicate OnTime(b: Box)
    requires Placed(b)
  {
    !b.log.flushed ==>
      && (forall w :: w in b.ready ==> Due(b.log, w) <= b.now)
      && (b.current.Before? ==> Due(b.log, b.current.w) <= b.now)
  }

  ghost predicate Timely(b: Box) { Placed(b) && OnTime(b) }

  lemma QueueTimely(b: Box, delay: nat)
    requires Timely(b) && Can(b, QueueWork(delay))
    ensures Timely(Do(b, QueueWork(delay)))
  {
    var b' := Do(b, QueueWork(delay));
    assert b.count !in b.ready;
    assert forall w: nat :: w < |b.log.queued| ==> b'.log.queued[w] == b.log.queued[w];
  }

  lemma FirstOut(l: seq<nat>)
    requires Distinct(l) && l != []
    ensures Distinct(l[1..]) && l[0] !in l[1..]
    ensures forall w :: w in l <==> w == l[0] || w in l[1..]
  {
    assert l == [l[0]] + l[1..];
  }

  lemma StartTimely(b: Box)
    requires Timely(b) && Can(b, Start)
    ensures Timely(Do(b, Start))
  {
    FirstOut(b.ready);
  }

  lemma ReadiedTimely(b: Box, w: nat)
    requires Timely(b) && Can(b, Readied(w))
    ensures Timely(Do(b, Readied(w)))
  {
  }

  lemma FireTimely(b: Box)
    requires Timely(b) && Can(b, Fire)
    ensures Timely(Do(b, Fire))
  {
  }

  /** The other actions move no work. */
  ghost predicate SamePlaces(b: Box, b': Box) {
    && b'.armed == b.armed && b'.ready == b.ready && b'.count == b.count
    && b'.log.queued == b.log.queued && b'.log.fired == b.log.fired
    && (b'.current == b.current || (b.current.After? && b'.current == Nobody))
    && b.now <= b'.now && (b.log.flushed ==> b'.log.flushed)
  }

  lemma SameTimely(b: Box, b': Box)
    requires Timely(b) && SamePlaces(b, b')
    ensures Timely(b')
  {
  }

  lemma DoTimely(b: Box, a: Action)
    requires Timely(b) && Can(b, a)
    ensures Timely(Do(b, a))
  {
    match a
    case QueueWork(delay) => QueueTimely(b, delay);
    case Start => StartTimely(b);
    case Readied(w) => ReadiedTimely(b, w);
    case Fire => FireTimely(b);
    case _ => SameTimely(b, Do(b, a));
  }

  // ---- No stranded message -------------------------------------------------------------

  /** Works queued and not yet fired. */
  ghost function Unfired(b: Box): int { b.count - |b.log.fired| }

  /** A pending message has a work, a writer about to queue one, or a writer that queued none. */
  ghost predicate Covered(b: Box) {
    && |b.limbo| <= Unfired(b) + b.about + b.log.unqueued
    && (!b.log.flushed ==> |b.limbo| == Unfired(b) + b.about + b.log.unqueued)
    && |b.log.pended| == b.count + b.about + b.log.unqueued
  }

  /** A set of naturals below `n` has at most `n` elements. */
  lemma {:induction false} Below(n: nat, s: set<nat>)
    requires forall w :: w in s ==> w < n
    ensures |s| <= n
  {
    if n > 0 {
      Below(n - 1, s - {n - 1});
      if n - 1 in s {
        assert s == (s - {n - 1}) + {n - 1};
      } else {
        assert s == s - {n - 1};
      }
    }
  }

  /** A work that has not fired leaves room for its message. */
  lemma SomeUnfired(b: Box)
    requires Placed(b) && b.current.Before?
    ensures Unfired(b) >= 1
  {
    Below(b.count, b.log.fired + {b.current.w});
  }

  lemma DoCovers(b: Box, a: Action)
    requires Covered(b) && Timely(b) && Can(b, a)
    ensures Covered(Do(b, a))
  {
    if a.Fire? {
      SomeUnfired(b);
    } else if a.SpliceAll? {
      Below(b.count, b.log.fired);
    }
  }

  /** Before any flush the empty branch of delayed_work_fun is unreachable. */
  lemma FiringFindsMessage(b: Box)
    requires Covered(b) && Timely(b) && Can(b, Fire) && !b.log.flushed
    ensures b.limbo != []
  {
    SomeUnfired(b);
  }
}
