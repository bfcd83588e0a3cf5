/** The device seen without semaphores and program counters: a mailbox whose messages wait in
    read order, whose delayed messages wait in age order, and whose actions are atomic. Every
    step of the device is one action (module Simulation). */
module Mailbox {
  import opened Model

  /** The work the worker runs, before or after it took from the pending list. */
  datatype Current = Nobody | Before(w: nat) | After(w: nat)

  datatype Box = Box(
    queue: seq<Message>,         // published, oldest first
    limbo: seq<Message>,         // pending, oldest first
    hand: seq<Message>,          // between the worker's critical sections
    writers: multiset<Message>,  // counted, not yet pending
    readers: multiset<Message>,  // removed, not yet copied out
    number: U32,
    maxStorage: U32,
    now: nat,
    about: nat,                  // writers that may still queue a work
    armed: set<nat>,
    ready: seq<nat>,
    current: Current,
    count: nat,                  // works queued so far
    log: Log)

  datatype Action =
    | Quiet
    | Pass
    | Limit(maxStorage: U32)
    | Full(data: seq<Byte>)
    | Accept(data: seq<Byte>, delayed: bool)
    | Pended(m: Message)
    | Skip
    | QueueWork(delay: nat)
    | Readied(w: nat)
    | Start
    | Fire
    | Mature
    | Finish
    | SpliceAll
    | Empty(len: nat)
    | Remove(len: nat)
    | Consume(m: Message)
    | Drop(m: Message)

  predicate Can(b: Box, a: Action) {
    match a
    case Full(_) => b.number >= b.maxStorage
    case Accept(_, _) => b.number < b.maxStorage
    case Pended(m) => m in b.writers
    case Skip => b.about > 0
    case QueueWork(_) => b.about > 0
    case Readied(w) => w in b.armed && (b.log.flushed || (w < |b.log.queued| && Due(b.log, w) <= b.now))
    case Start => b.current == Nobody && b.ready != []
    case Fire => b.current.Before? && b.hand == []
    case Mature => |b.hand| == 1 && b.current.After?
    case Finish => b.current.After? && b.hand == []
    case Empty(_) => b.queue == []
    case Remove(_) => b.queue != []
    case Consume(m) => m in b.readers
    case Drop(m) => m in b.readers
    case _ => true
  }

  function Do(b: Box, a: Action): Box
    requires Can(b, a)
  {
    match a
    case Pass => b.(now := b.now + 1)
    case Limit(ms) => b.(maxStorage := ms, log := b.log.(maxEver := Max(b.log.maxEver, ms)))
    case Accept(data, delayed) =>
      var m := Message(|b.log.accepted|, data);
      var b1 := b.(number := Inc32(b.number), log := b.log.(accepted := b.log.accepted + [m]));
      if delayed then b1.(writers := b.writers + multiset{m})
      else
        b1.(queue := b.queue + [m],
            log := b1.log.(published := b.log.published + [Publication(m, Direct, b.now)]))
    case Pended(m) =>
      b.(writers := b.writers - multiset{m}, limbo := b.limbo + [m], about := b.about + 1,
         log := b.log.(pended := b.log.pended + [Stamp(m, b.now)]))
    case Skip => b.(about := b.about - 1, log := b.log.(unqueued := b.log.unqueued + 1))
    case QueueWork(delay) =>
      var b1 := b.(about := b.about - 1, count := b.count + 1,
                   log := b.log.(queued := b.log.queued + [Queueing(b.now, delay)]));
      if delay == 0 then b1.(ready := b.ready + [b.count]) else b1.(armed := b.armed + {b.count})
    case Readied(w) => b.(armed := b.armed - {w}, ready := b.ready + [w])
    case Start => b.(current := Before(b.ready[0]), ready := b.ready[1..])
    case Fire =>
      var b1 := b.(current := After(b.current.w), log := b.log.(fired := b.log.fired + {b.current.w}));
      if b.limbo == [] then b1 else b1.(hand := [b.limbo[0]], limbo := b.limbo[1..])
    case Mature =>
      b.(queue := b.queue + b.hand, hand := [],
         log := b.log.(published := b.log.published + [Publication(b.hand[0], Matured, b.now)]))
    case Finish => b.(current := Nobody)
    case SpliceAll =>
      b.(queue := b.limbo + b.queue, limbo := [],
         log := b.log.(published := b.log.published + Publications(b.limbo, Spliced, b.now), flushed := true))
    case Remove(_) =>
      b.(queue := b.queue[1..], number := Dec32(b.number), readers := b.readers + multiset{b.queue[0]},
         log := b.log.(removed := b.log.removed + [b.queue[0]]))
    case Consume(m) =>
      b.(readers := b.readers - multiset{m}, log := b.log.(consumed := b.log.consumed + [m]))
    case Drop(m) =>
      b.(readers := b.readers - multiset{m}, log := b.log.(dropped := b.log.dropped + [m]))
    case _ => b
  }

  function NewBox(maxStorage: U32): Box {
    Box([], [], [], multiset{}, multiset{}, 0, maxStorage, 0, 0, {}, [], Nobody, 0,
        Log([], [], [], [], [], [], [], {}, 0, false, maxStorage))
  }

  /** The mailbox after the actions `acts`, oldest first. */
  ghost predicate Replays(b: Box, acts: seq<Action>, b': Box)
    decreases acts
  {
    if acts == [] then b == b'
    else Can(b, acts[0]) && Replays(Do(b, acts[0]), acts[1..], b')
  }
}
