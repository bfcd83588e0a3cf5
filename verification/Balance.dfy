/** Conservation of messages and the accounting of `messages_number`, in every mailbox. */
module Balance {
  import opened Model
  import opened Mailbox

  ghost predicate Conserved(b: Box) {
    && Adds(multiset(b.log.accepted), multiset(b.queue), multiset(b.limbo), multiset(b.hand), b.writers,
            multiset(b.log.removed))
    && Splits(multiset(b.log.removed), multiset(b.log.consumed), multiset(b.log.dropped), b.readers)
  }

  type Pile = multiset<Message>

  ghost predicate Adds(all: Pile, queue: Pile, limbo: Pile, hand: Pile, writers: Pile, removed: Pile) {
    all == queue + limbo + hand + writers + removed
  }

  ghost predicate Splits(removed: Pile, consumed: Pile, dropped: Pile, readers: Pile) {
    removed == consumed + dropped + readers
  }

  lemma Enters(all: Pile, queue: Pile, limbo: Pile, hand: Pile, writers: Pile, removed: Pile, x: Pile)
    requires Adds(all, queue, limbo, hand, writers, removed)
    ensures Adds(all + x, queue + x, limbo, hand, writers, removed)
    ensures Adds(all + x, queue, limbo, hand, writers + x, removed)
  {
  }

  /** Moving `x` from one place to the next loses nothing. */
  lemma Passes(all: Pile, queue: Pile, limbo: Pile, hand: Pile, writers: Pile, removed: Pile, x: Pile)
    requires Adds(all, queue, limbo, hand, writers, removed)
    ensures x <= writers ==> Adds(all, queue, limbo + x, hand, writers - x, removed)
    ensures x <= limbo ==> Adds(all, queue, limbo - x, hand + x, writers, removed)
    ensures x <= hand ==> Adds(all, queue + x, limbo, hand - x, writers, removed)
    ensures x <= limbo ==> Adds(all, x + queue, limbo - x, hand, writers, removed)
    ensures x <= queue ==> Adds(all, queue - x, limbo, hand, writers, removed + x)
  {
  }

  ghost predicate Numbered(b: Box) {
    forall i :: 0 <= i < |b.log.accepted| ==> b.log.accepted[i].id == i
  }

  ghost predicate Accounted(b: Box) {
    && b.number == |b.queue| + |b.limbo| + |b.hand| + |b.writers|
    && b.number <= b.log.maxEver
    && b.maxStorage <= b.log.maxEver < TWO_TO_THE_32
  }

  lemma First(l: seq<Message>)
    requires l != []
    ensures multiset(l) == multiset{l[0]} + multiset(l[1..])
    ensures multiset(l) - multiset{l[0]} == multiset(l[1..])
  {
    assert l == [l[0]] + l[1..];
  }

  lemma Append(l: seq<Message>, m: Message)
    ensures multiset(l + [m]) == multiset(l) + multiset{m}
  {
  }

  lemma PlacesEnter(b: Box, x: Pile)
    requires Conserved(b)
    ensures var (all, q, l, h, w, r) := (multiset(b.log.accepted), multiset(b.queue), multiset(b.limbo),
                                         multiset(b.hand), b.writers, multiset(b.log.removed));
            Adds(all + x, q + x, l, h, w, r) && Adds(all + x, q, l, h, w + x, r)
  {
    Enters(multiset(b.log.accepted), multiset(b.queue), multiset(b.limbo), multiset(b.hand), b.writers,
           multiset(b.log.removed), x);
  }

  lemma AcceptConserves(b: Box, data: seq<Byte>, delayed: bool)
    requires Conserved(b) && Can(b, Accept(data, delayed))
    ensures Conserved(Do(b, Accept(data, delayed)))
  {
    var m := Message(|b.log.accepted|, data);
    PlacesEnter(b, multiset{m});
    Append(b.log.accepted, m);
    Append(b.queue, m);
  }

  lemma PlacesPass(b: Box, x: Pile)
    requires Conserved(b)
    ensures var (all, q, l, h, w, r) := (multiset(b.log.accepted), multiset(b.queue), multiset(b.limbo),
                                         multiset(b.hand), b.writers, multiset(b.log.removed));
            && (x <= w ==> Adds(all, q, l + x, h, w - x, r))
            && (x <= l ==> Adds(all, q, l - x, h + x, w, r))
            && (x <= h ==> Adds(all, q + x, l, h - x, w, r))
            && (x <= l ==> Adds(all, x + q, l - x, h, w, r))
            && (x <= q ==> Adds(all, q - x, l, h, w, r + x))
  {
    Passes(multiset(b.log.accepted), multiset(b.queue), multiset(b.limbo), multiset(b.hand), b.writers,
           multiset(b.log.removed), x);
  }

  lemma PendedConserves(b: Box, m: Message)
    requires Conserved(b) && Can(b, Pended(m))
    ensures Conserved(Do(b, Pended(m)))
  {
    PlacesPass(b, multiset{m});
    Append(b.limbo, m);
  }

  lemma FireConserves(b: Box)
    requires Conserved(b) && Can(b, Fire)
    ensures Conserved(Do(b, Fire))
  {
    if b.limbo != [] {
      First(b.limbo);
      PlacesPass(b, multiset{b.limbo[0]});
    }
  }

  lemma MatureConserves(b: Box)
    requires Conserved(b) && Can(b, Mature)
    ensures Conserved(Do(b, Mature))
  {
    assert b.hand == [b.hand[0]];
    PlacesPass(b, multiset{b.hand[0]});
    Append(b.queue, b.hand[0]);
    First(b.hand);
  }

  lemma SpliceConserves(b: Box)
    requires Conserved(b)
    ensures Conserved(Do(b, SpliceAll))
  {
    PlacesPass(b, multiset(b.limbo));
    assert multiset(b.limbo + b.queue) == multiset(b.limbo) + multiset(b.queue);
    assert multiset(b.limbo) - multiset(b.limbo) == multiset{};
  }

  lemma RemoveConserves(b: Box, len: nat)
    requires Conserved(b) && Can(b, Remove(len))
    ensures Conserved(Do(b, Remove(len)))
  {
    First(b.queue);
    PlacesPass(b, multiset{b.queue[0]});
    Append(b.log.removed, b.queue[0]);
    Takes(multiset(b.log.removed), multiset(b.log.consumed), multiset(b.log.dropped), b.readers, b.queue[0]);
  }

  lemma Takes(r: Pile, c: Pile, d: Pile, readers: Pile, m: Message)
    requires Splits(r, c, d, readers)
    ensures Splits(r + multiset{m}, c, d, readers + multiset{m})
  {
  }

  lemma Leaves(r: Pile, c: Pile, d: Pile, readers: Pile, m: Message)
    requires Splits(r, c, d, readers) && m in readers
    ensures Splits(r, c + multiset{m}, d, readers - multiset{m})
    ensures Splits(r, c, d + multiset{m}, readers - multiset{m})
  {
  }

  lemma ConsumeConserves(b: Box, m: Message)
    requires Conserved(b) && m in b.readers
    ensures Conserved(Do(b, Consume(m)))
  {
    Append(b.log.consumed, m);
    Leaves(multiset(b.log.removed), multiset(b.log.consumed), multiset(b.log.dropped), b.readers, m);
  }

  lemma DropConserves(b: Box, m: Message)
    requires Conserved(b) && m in b.readers
    ensures Conserved(Do(b, Drop(m)))
  {
    Append(b.log.dropped, m);
    Leaves(multiset(b.log.removed), multiset(b.log.consumed), multiset(b.log.dropped), b.readers, m);
  }

  /** No action loses or duplicates a message. */
  lemma DoConserves(b: Box, a: Action)
    requires Conserved(b) && Can(b, a)
    ensures Conserved(Do(b, a))
  {
    match a
    case Accept(data, delayed) => AcceptConserves(b, data, delayed);
    case Pended(m) => PendedConserves(b, m);
    case Fire => FireConserves(b);
    case Mature => MatureConserves(b);
    case SpliceAll => SpliceConserves(b);
    case Remove(len) => RemoveConserves(b, len);
    case Consume(m) => ConsumeConserves(b, m);
    case Drop(m) => DropConserves(b, m);
    case _ =>
  }

  lemma DoNumbers(b: Box, a: Action)
    requires Numbered(b) && Can(b, a)
    ensures Numbered(Do(b, a))
  {
  }

  lemma NoWrap(x: U32)
    ensures x < TWO_TO_THE_32 - 1 ==> Inc32(x) == x + 1
    ensures x > 0 ==> Dec32(x) == x - 1
  {
  }

  lemma AcceptAccounts(b: Box, data: seq<Byte>, delayed: bool)
    requires Accounted(b) && Can(b, Accept(data, delayed))
    ensures Accounted(Do(b, Accept(data, delayed)))
  {
    NoWrap(b.number);
    assert |b.writers + multiset{Message(|b.log.accepted|, data)}| == |b.writers| + 1;
  }

  lemma PendedAccounts(b: Box, m: Message)
    requires Accounted(b) && Can(b, Pended(m))
    ensures Accounted(Do(b, Pended(m)))
  {
    assert |b.writers - multiset{m}| == |b.writers| - 1;
  }

  lemma RemoveAccounts(b: Box, len: nat)
    requires Accounted(b) && Can(b, Remove(len))
    ensures Accounted(Do(b, Remove(len)))
  {
    NoWrap(b.number);
  }

  lemma DoAccounts(b: Box, a: Action)
    requires Accounted(b) && Can(b, a)
    ensures Accounted(Do(b, a))
  {
    match a
    case Accept(data, delayed) => AcceptAccounts(b, data, delayed);
    case Pended(m) => PendedAccounts(b, m);
    case Remove(len) => RemoveAccounts(b, len);
    case _ =>
  }
}
