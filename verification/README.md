# Thread synchronisation and messaging: a verified model

This project models the per-group message device of the kernel module (`kmodule/group_dev.c`), the
registry that owns the devices (`kmodule/group_dev_manager.c`) and the two library calls that send and
retrieve messages (`lib/tsm_lib.c`), and proves what the device keeps under every interleaving of its users,
its timers and its worker. `dafny verify dfyconfig.toml` checks all of it.

## How the model is built

**The device as a concurrent machine** (`Model.dfy`). A state holds the fields of `struct group_dev`, the
three semaphores, the timers and the queue of the single-threaded workqueue, the program counter of the worker
and of any number of threads, and ghost logs of what was accepted, pended, published, removed, queued and fired.
One step is the acquisition of a semaphore, the body of one critical section with the `up` that ends it, or one
unprotected access to shared data. The failure of an allocation or a user copy is chosen by the event. `Reachable`
means reachable from an empty device by any finite sequence of enabled events.

**A simple form it refines** (`Mailbox.dfy`, `Simulation.dfy`). A mailbox has no semaphores and no program
counters: a queue in read order, delayed messages in age order, and atomic actions. Every step of the device is
proved to be one mailbox action; conservation, accounting, order and timing are then invariants of the mailbox.

**Separate arguments on projections.** `Locks.dfy` and `Progress.dfy` treat the semaphores, `Flush.dfy` what a
returned flush guarantees, `Handover.dfy` the life of each `struct work`, `Fifo.dfy` linearisability without delay,
`Teardown.dfy` the flush inside `group_free`. `Theorems.dfy` joins the invariants and states the main results.

**From calls to answers.** `Settings.dfy` says which delay and limits are in force in a run, `Timers.dfy` ties timers and
the delay guarantee to the delay that was set, `Promises.dfy` follows a write and a flush from the call to the return,
`Wakeup.dfy` a sleep and an awake, and `Record.dfy` ties the ghost logs to the lists of the device.

**Exact conditions.** Where the code meets a property only under a condition, the condition is proved exact.
`Misuse.dfy` and `Witnesses.dfy` do that for the hand-over of works, `Afterwards.dfy`, `Renewal.dfy` and `Excess.dfy` for
the delay guarantee after flushes, `Release.dfy` for the return of sleepers, `Flush.dfy` for the order of the splice.

**The device as an object** (`Device.dfy`, `Solo.dfy`). A class has the device's fields and the system calls as one
thread executes them; its contracts use the same functions as the steps, and `Solo.dfy` proves that the steps of a lone
thread lead to the same lists. `Library.dfy` and `Registry.dfy` build on that class.

**The barrier** (`Flags.dfy`, `Barrier.dfy`, `Release.dfy`, `Wakeup.dfy`) is a machine of its own, on the bits of the shared `flags`.

## Assumptions

- Steps are sequentially consistent, and each update of `flags`, each list operation and each hand-over from a timer
  to the workqueue is one step. The source updates `flags` with plain `|=` and `&=`.
- `create_singlethread_workqueue` gives one worker that runs works in queue order, one at a time; a timer never
  expires early; `flush_delayed_work` queues an armed work at once and waits until it is neither queued nor running;
  `drain_workqueue` waits until the queue is empty and the worker is idle, and does not wait for armed timers.
- `wait_event` tests, enqueues, tests again and blocks until a wake-up dequeues it; `wake_up_all` dequeues everyone.
- After a `struct work` was misused (linked or expedited after it was freed, unlinked twice, freed while linked) the machine stops
  with `fault`. Results that need the absence of a fault say so; the hand-over results say when there is none.

## Where the code and its documentation differ

- `list_splice_tail_init` puts the pending messages at the tail, where readers take from; the comments at
  `kmodule/group_dev.c:199-205` and `kmodule/group_dev.h:299-302` say the head. The code is followed, and
  `Flush.SpliceAsDocumented` says exactly when the two agree.
- Revoking publishes delayed messages, as `lib/tsm_lib.h:140-150` says; `README.md:20` of the repository describes
  retraction.
- `max_storage_size` is compared with a number of messages (`kmodule/group_dev.c:622`).
- `group_flush` does nothing (`kmodule/group_dev.c:779-784`), although the repository's README describes a flush; a flush
  here is the revoke command.
- The comment at `kmodule/group_dev.c:750-751` says that every thread awakes. A raise between the wake-up and a sleeper's
  next test blocks that sleeper again (`Release.AwakeMayLeaveASleeper`). With no awake in progress a sleeper returns if and
  only if the barrier is down (`Release.ReturnsExactlyWhenDown`), and after an awake with no raise since its test every
  sleeper returns (`Release.AwakeFreesSleepers`).
- A message is documented to be stored after its timeout. A flush that splices between the two halves of a delayed write
  leaves a work without a message (`Excess.ExcessArises`), which then publishes a later message before its time.
  `Excess.NeverEarlyExactly` says exactly when a device at rest is free of that.

## Model

| member | source | states |
|---|---|---|
| Simulation.SimStep | kmodule/group_dev.c:356-445 | Every step of every thread, timer or worker is one atomic mailbox action, allowed by the mailbox and leading to the mailbox of the new state |
| Simulation.SimRun | kmodule/group_dev.c:505-694 | Every run of the device, with any number of threads, is a run of the mailbox |
| Simulation.SimInit | kmodule/group_dev_manager.c:113-218 | A new device is the empty mailbox with the given storage limit |
| Settings.InForceFromInit | kmodule/group_dev.c:596-622 | In every run from a new device the limits in force are those it was made with or those set last, the delay is 0 or the last one accepted, the time is what has passed, and threads and workqueue are the given ones |
| Settings.InForce | kmodule/group_dev.c:757-765 | The same from any state |
| Settings.SetDelayCall | kmodule/group_dev.c:757-765 | In every state the command refuses a negative delay with -1, puts any other in force with 0, and changes nothing else |
| Settings.LargestLimit | kmodule/group_dev.c:622 | The largest limit on record is one that was in force, and no other was larger |
| Settings.AlwaysOpen | kmodule/group_dev.c:703-777 | Time passes, limits change and idle threads call whatever the device is doing |
| Record.EveryStepIsRecorded | kmodule/group_dev.c:356-384 | Whenever a message enters or leaves a list, the step that moves it records that message with the time of the step, and nothing else is recorded |
| Record.ReadAnswers | kmodule/group_dev.c:514-556 | A read ends with 0 and no effect, with the prefix and its message consumed, or with -1 and its message dropped |
| Theorems.ExactlyOnce | kmodule/group_dev.c:662-681 | In every reachable state the accepted messages are, as a multiset, the published, pending, held by the worker, held by writers and removed ones; the removed are the consumed, the dropped and those being copied; no message occurs twice |
| Balance.DoConserves | kmodule/group_dev.c:523-556 | No mailbox action loses or duplicates a message |
| Theorems.CountIsExact | kmodule/group_dev.c:619-662 | `messages_number`, a wrapping unsigned int, always equals the messages stored on both lists and in hands, never underflows and never exceeds the largest `max_storage_size` so far, with any number of concurrent writers |
| Theorems.CountIsBounded | kmodule/group_dev.c:622-628 | In every run it is at most some limit that was in force |
| Balance.DoAccounts | kmodule/group_dev.c:522-534 | Every mailbox action keeps the count exact and within the bound |
| Theorems.PublishedInOrder | kmodule/group_dev.c:356-384 | Before the first flush, removal log plus remaining read order is the publication log, and the k-th delayed message published is the k-th one pended, however timers fire and delays change |
| Order.DoInOrder | kmodule/group_dev.c:365-383 | Every action keeps the age order of matured, in-hand and pending messages across the unlocked gap between the worker's sections |
| Order.DoFifo | kmodule/group_dev.c:523-534 | Every action before a flush keeps the publication log equal to removals plus the remaining queue |
| Theorems.NeverEarly | kmodule/group_dev.c:438-443 | Before the first flush, if every work was queued with delay at least d, no delayed message is published less than d after it was pended, although works are not tied to messages |
| Timers.TimerIsSet | kmodule/group_dev.c:438-443 | A delayed write's work starts its timer with the delay of the device at that step, or is queued at once without one; in every later state, while the timer runs, it can expire if and only if that delay has passed |
| Timers.ExpiresExactlyWhenDue | kmodule/group_dev.c:441 | Without a flush, until the work expires, it can expire if and only if the delay has passed |
| Timers.NeverEarlyWhileDelayed | kmodule/group_dev.c:438-443 | While the delay of the device is at least d whenever a work is queued and no splice happens, later messages are published in order and none less than d after it was pended, from any reachable state without a work in excess or a flush past its splice |
| Timers.NeverBeforeTheDelaySet | kmodule/group_dev.c:757-765 | From a new device: if every delay ever set is at least d and nobody flushes, no delayed message is published less than d after it was pended |
| Renewal.NeverEarlySince | kmodule/group_dev.c:666-673 | The delay guarantee from any reachable state, whatever flushes came before, if no flush is past its splice there and queued and coming works do not outnumber the pending messages: as long as no splice follows and works are queued with delay at least d, later messages are published in order and none before its delay |
| Afterwards.WaitedSince | kmodule/group_dev.c:367-383 | The counting step from such a state: when a work takes a later message, some fired work was queued after that message was pended, and was due |
| Excess.NeverEarlyExactly | kmodule/group_dev.c:438-445 | For a device at rest: every continuation without a splice keeps the delay guarantee for later messages if and only if the armed works do not outnumber the pending messages |
| Excess.ExcessIsEarly | kmodule/group_dev.c:356-384 | From every such device with a work too many, a run in which a message is published at the moment it was pended |
| Excess.ExcessArises | kmodule/group_dev.c:206 | Such a device is reachable: a splice between `list_add` to the pending list and `queue_delayed_work` leaves a work without a message |
| Order.Waited | kmodule/group_dev.c:666-673 | The counting step: when n works have fired, the n-th pended message has waited at least d |
| Order.DoNotEarly | kmodule/group_dev.c:367-383 | Every action keeps the delay guarantee, including for the message in the worker's hand |
| Theorems.NoStrandedMessage | kmodule/group_dev.c:411-451 | Pending messages are at most the unfired works plus writers about to queue one plus failed queueings, with equality before the first flush; then a firing work finds a message; an unfired work is armed, queued or about to take |
| Works.DoTimely | kmodule/group_dev.c:438-445 | Each queued work stays in exactly one place, and before a flush leaves its timer only when due |
| Works.DoCovers | kmodule/group_dev.c:671-673 | Every action keeps the count of pending messages against works |
| Works.FiringFindsMessage | kmodule/group_dev.c:359-363 | Before any flush the empty branch of the worker is unreachable |
| Theorems.FlushIsComplete | kmodule/group_dev.c:216-289 | Every message whose write returned before a flush was called has entered the message list when that flush returns, including one in the worker's hand at the splice |
| Promises.FlushReturns | kmodule/group_dev.c:216-289 | The same from the call of a flush to its return, in every run |
| Promises.WriteReturns | kmodule/group_dev.c:566-701 | Every write, delayed or not, from its call to its return: a positive answer means that a new message with the first min(length, `max_message_size`) bytes has been published, is pending or is in the worker's hand |
| Promises.WriteThenFlush | kmodule/group_dev.c:216-289 | A write that answered a positive length and then a flush: when the flush returns, a message with the written bytes has been published |
| Flush.StepTracked | kmodule/group_dev.c:252-285 | Every step keeps what writers and flushers may rely on about how far messages have come |
| Flush.DoForward | kmodule/group_dev.c:377-384 | Messages only move forward: pending, in hand, published |
| Theorems.WriteAnswers | kmodule/group_dev.c:591-701 | A write answers 0 when full and -1 on a failed copy, both without effect, and otherwise the stored length with its message recorded as completed |
| Flush.SpliceOrder | kmodule/group_dev.c:198-206 | After the splice readers meet all pending messages oldest first, then the published ones; the documented join would give the opposite order |
| Flush.SpliceAsDocumented | kmodule/group_dev.h:294-308 | For distinct messages the splice is the documented join if and only if one of the lists is empty |
| Theorems.SpliceInReachable | kmodule/group_dev.c:194-209 | The same equivalence in every reachable state, with distinctness derived from exactly-once |
| Theorems.MutualExclusion | kmodule/group_dev.c:194-209 | In every reachable state no two threads are inside the section of the same semaphore |
| Theorems.HeldExactlyInside | kmodule/group_dev.c:356-390 | Every thread and the worker hold a semaphore exactly while inside its section: the worker excludes every thread, never holds `wq_sem`, and a returned call has released all it took |
| Theorems.WaitsOnlyForAHolder | kmodule/group_dev.c:505-694 | A call that cannot step wants a section in which another thread or the worker is, or flushes and waits for the worker |
| Theorems.FlushWaitsForWorks | kmodule/group_dev.c:272-283 | A flush goes past a work only when it is neither queued nor running, and past the drain only when no work is |
| Theorems.WorkerWaitsOnlyForAHolder | kmodule/group_dev.c:356-384 | The worker waits only for a thread inside the section it wants |
| Locks.StepLocked | kmodule/group_dev.c:505-559 | Every step keeps each semaphore held by exactly the thread inside its section, on every path including errors |
| Theorems.DeadlockFreedom | kmodule/group_dev.c:356-390 | In every reachable state with an unfinished call or work some thread or the worker can step, without help of a timer |
| Progress.NoDeadlock | kmodule/group_dev.c:252-285 | Finds that step: of a holder in the order message, pending, wq, or of the worker, which never takes `wq_sem` |
| Progress.BoundedWork | kmodule/group_dev.c:264-285 | Under any scheduler, work already begun ends within a number of steps known beforehand |
| Progress.EveryCallReturns | kmodule/group_dev.c:619-694 | A run after which no thread and no worker can step has returned every call and emptied the workqueue, or misused a work |
| Theorems.CallsReturn | kmodule/group_dev.c:505-564 | The same for every run from every reachable state |
| Theorems.WorksAreHandedOver | kmodule/group_dev.c:393-405 | In every disciplined run no work is misused; `delay_list` is duplicate-free and exactly the linked works, hence all unfreed ones once nobody handles one |
| Theorems.DisciplineIsExact | kmodule/group_dev.c:252-285 | From every state of a disciplined run, an enabled step can be continued to the misuse of a work by disciplined steps if and only if the step itself breaks the condition |
| Misuse.BrokenFaults | kmodule/group_dev.c:264-280 | Constructs that continuation for every broken clause in every tidy state, whoever holds the semaphores |
| Misuse.KeptIsSafe | kmodule/group_dev.c:393-405 | No disciplined step has one |
| Theorems.MisuseExactlyWithout | kmodule/group_dev.c:438-443 | A set of the three clauses (no work runs before it is linked; when a traversal begins none is queued and one in progress is past harming it; no timer expires during one) excludes every misuse if and only if it holds all three |
| Theorems.FlushEmptiesWorks | kmodule/group_dev.c:282-285 | A flush that reaches its end leaves `delay_list` empty, the flag clear and `wq_sem` free |
| Theorems.WorksAdvance | kmodule/group_dev.c:264-280 | No disciplined step takes a work back or skips a stage, so each is linked, unlinked and freed at most once |
| Theorems.DisciplinedCallsReturn | kmodule/group_dev.c:216-289 | The condition stops nothing: some disciplined step is possible until all calls returned, and it lowers the measure |
| Handover.StepTidy | kmodule/group_dev.c:252-285 | Every disciplined step keeps the invariant on works and misuses none |
| Handover.DisciplinedRun | kmodule/group_dev.c:393-405 | So does every disciplined run |
| Progress.DisciplinedProgress | kmodule/group_dev.c:438-445 | Finds a disciplined step, the linker's where the next work is not yet linked |
| Witnesses.EveryClauseIsNeeded | kmodule/group_dev.c:393-405 | For each clause, a run from a new device that breaks only that clause misuses a work |
| Witnesses.LinkedFirstIsNeeded | kmodule/group_dev.c:438-443 | A work that fires between `queue_delayed_work` and `list_add` is freed and then linked |
| Witnesses.CalmBeginIsNeeded | kmodule/group_dev.c:254-272 | A work running when the traversal sets the flag is freed while it is linked |
| Witnesses.QuietTimersAreNeeded | kmodule/group_dev.c:264-280 | So is a work whose timer expires during the traversal |
| Theorems.DelayZeroIsFifo | kmodule/group_dev.c:514-556 | With delay zero, the operations in the order in which they take effect are a legal history of a bounded FIFO of byte strings: full writes change nothing, accepted ones append, reads take the oldest |
| Theorems.EveryCallLinearises | kmodule/group_dev.c:481-701 | Every run splits at the call and the return of a read or write; the history splits with it and stays legal, and in between lies exactly one operation of that call, with the call's arguments, the limits set last (those of the new device before any others) and the value it returned |
| Fifo.Linearises | kmodule/group_dev.c:591-687 | Every step serves at most one operation, with the answer the sequential FIFO gives, from the queue before to the queue after |
| Fifo.WriteIsServedOnce | kmodule/group_dev.c:591-701 | A write, from call to return, serves exactly one Put of the first min(length, `max_message_size`) bytes and returns its answer, or returns -1 and serves none, which happens only for an empty buffer, a failed allocation or a failed copy |
| Fifo.ReadIsServedOnce | kmodule/group_dev.c:505-556 | A read serves exactly one Get of its length and returns its answer, or -1 after a failed copy to user space, the message being gone all the same |
| Fifo.HistoryJoin | kmodule/group_dev.c:481-701 | Histories of consecutive runs follow each other, so a call that returned before another began is served before it |
| Fifo.ReaderReturns | kmodule/group_dev.c:534-556 | Between its operation and its return a reader keeps its answer whatever others do, and serves nothing more; a failed copy answers -1 |
| Theorems.TeardownLeavesNothing | kmodule/group_dev_manager.c:381-400 | With a live workqueue and no other user, when the flush of `group_free` returns both lists are empty, no work is left anywhere, and every message ever accepted was consumed, dropped by a failed copy, or is on the list the last loop frees |
| Teardown.RunCloses | kmodule/group_dev_manager.c:381-444 | Every disciplined run of that flush stays on the way to such a device |
| Flags.BitsAreIndependent | kmodule/group_dev.h:15-21 | Setting or clearing a bit shows in that bit and in no other |
| Barrier.NoEarlyReturn | kmodule/group_dev.c:733-739 | In every run a thread returns from sleep only if the barrier was lowered after that thread's own raise, whatever flushes do to the other bit |
| Barrier.BlockedIsAboutToWake | kmodule/group_dev.c:740-756 | Whenever the barrier is down and a thread is blocked, some waker is past its lowering, has yet to wake, and can step |
| Release.AllSleepersReturn | kmodule/group_dev.c:733-756 | Once the barrier is down, as long as nobody raises it, any scheduler brings every sleeper to return within a bound given by the unfinished threads |
| Release.ReturnsExactlyWhenDown | kmodule/group_dev.c:735-739 | In every reachable state with no awake in progress and no raise to come, a sleeper returns under every schedule, and under some schedule, if and only if the barrier is down |
| Release.AwakeFreesSleepers | kmodule/group_dev.c:740-756 | An awake that has returned with no raise since its call frees every sleeper, under any scheduler and within a bound |
| Wakeup.AwakeWakesAll | kmodule/group_dev.c:743-754 | Every awake, whether or not it finds the barrier up: when it has returned, no thread is on the wait queue that has not put itself there since the call |
| Wakeup.AwakeUnblocks | kmodule/group_dev.c:748-754 | So every thread blocked at the call can go on |
| Wakeup.SleepOutlastsALowering | kmodule/group_dev.c:733-739 | Every sleep, from its call to its return: the thread raised the barrier since the call and somebody lowered it after that |
| Wakeup.OnlyBlockedWait | kmodule/group_dev.c:737 | Inside the barrier commands only a thread blocked on the wait queue has to wait |
| Wakeup.FlushBitStep | kmodule/group_dev.c:117-131 | A flush raises and lowers its own bit, which nothing sleepers and wakers do affects |
| Wakeup.FlushTogglesBit | kmodule/group_dev.c:254-284 | A flush sets its bit with its first step and clears it with its second, and leaves the barrier bit alone |
| Release.StaysAsleep | kmodule/group_dev.c:737 | Behind a raised barrier with no awake in progress no schedule gets a sleeper past its test |
| Release.AwakeLeavesItDown | kmodule/group_dev.c:743-754 | From the awake's test on, with no raise in between, the barrier is down when the awake has returned |
| Release.BlockedOnlyByLaterRaise | kmodule/group_dev.c:748-754 | A thread left blocked with no waker on the way is blocked by a raise later than every lowering |
| Release.AwakeMayLeaveASleeper | kmodule/group_dev.c:735-754 | A reachable state in which a completed awake leaves an earlier sleeper blocked, because another thread raised the barrier first |
| Barrier.StepInv | kmodule/group_dev.c:117-155 | Every step keeps the barrier bit equal to the last barrier event, the wait queue sound and no wake-up lost |
| Device.GroupDev.constructor | kmodule/group_dev_manager.c:113-218 | A new device is empty, undelayed and not flushing |
| Device.GroupDev.Write | kmodule/group_dev.c:566-701 | The whole new state and answer in each case: invalid length, failed allocation, full, failed copy, undelayed, delayed with and without a work |
| Device.GroupDev.AddDelayedWork | kmodule/group_dev.c:411-451 | Links one new work exactly if there is a workqueue and memory |
| Device.GroupDev.Read | kmodule/group_dev.c:481-564 | Takes the oldest message and delivers its prefix; the message is gone also when less is asked for or the copy fails |
| Device.GroupDev.SetDelay | kmodule/group_dev.c:757-765 | Refuses a negative delay, else changes only the delay |
| Device.GroupDev.SplicePending | kmodule/group_dev.c:165-214 | Moves all pending messages to the tail of the message list |
| Device.GroupDev.RunWork | kmodule/group_dev.c:291-409 | Publishes the oldest pending message if any, unlinks the work unless flushing, frees it once |
| Device.GroupDev.FflushWorkqueue | kmodule/group_dev.c:216-289 | With a workqueue: the splice, all works freed once from the tail, `delay_list` empty, flag clear; without one, only the splice |
| Device.GroupDev.Free | kmodule/group_dev_manager.c:361-509 | The pending cleanup is entered exactly without a workqueue and with pending messages; otherwise every stored message is freed once, pending ones first |
| Solo.WriteNow | kmodule/group_dev.c:591-687 | The steps of a lone undelayed write lead to the lists and answer of the object's write |
| Solo.WriteLater | kmodule/group_dev.c:662-673 | So do those of a lone delayed write, with one new work linked, whose timer runs and can expire exactly once the delay has passed |
| Solo.ReadOne | kmodule/group_dev.c:505-556 | So do those of a lone read |
| Solo.FlushAlone | kmodule/group_dev.c:216-289 | Some schedule of a lone flush over any list of works returns with exactly the object's flushed device |
| Solo.EveryFlushAlone | kmodule/group_dev.c:252-285 | So does every schedule of flush and worker in which no timer expires and the flush returns |
| Solo.WriteRefused | kmodule/group_dev.c:591-644 | The steps of a refused write (length, memory, full, copy) leave the device alone and answer as the object does |
| Solo.WriteUnqueued | kmodule/group_dev.c:411-430 | A delayed write without workqueue or memory for its work pends its message, as the object's does |
| Solo.ReadNone | kmodule/group_dev.c:515-520 | A read of an empty device answers 0 |
| Solo.ReadFails | kmodule/group_dev.c:523-549 | A read whose copy fails has removed its message and answers -1 |
| Solo.WorkFires | kmodule/group_dev.c:356-409 | A due timer and the worker do to the device exactly what the object's work does |
| Solo.RestIsScheduled | kmodule/group_dev.c:438-443 | A tidy device whose worker rests has exactly the armed, linked works that the lone flush expects |
| Library.StrLen | lib/tsm_lib.c:147-150 | Stops at the first NUL |
| Library.CStringCut | lib/tsm_lib.c:147-150 | A terminator stored at n cuts the C string to that of the first n bytes |
| Library.SendMessage | lib/tsm_lib.c:116-166 | The caller's buffer is unchanged despite the terminator; each refusal leaves the device alone; else the C string cut at the cached maximum is written |
| Library.Stored | kmodule/group_dev.c:662-681 | A stored text is the newest published message without delay and the newest pending one with it |
| Library.RetrieveMessage | lib/tsm_lib.c:168-195 | Delivers a prefix of the oldest message and consumes it |
| Library.CutsCompose | kmodule/group_dev.c:539-555 | The cuts by library, kernel and reader amount to one prefix of length min(strlen, cached, kernel maximum, read length) |
| Library.SendAll | lib/tsm_lib.c:147-163 | Any number of sends that fit are stored in order, with every buffer intact |
| Library.RetrieveAll | lib/tsm_lib.c:191-194 | As many retrieves deliver the stored texts in order and empty the group |
| Library.Exchange | lib/tsm_lib.c:116-195 | n sends into an empty undelayed group, then n retrieves, return in order the prefixes of that length; buffers intact, group empty |
| Registry.Pigeonhole | kmodule/group_dev_manager.h:6 | Distinct numbers below n are at most n |
| Registry.RoomForFresh | kmodule/group_dev_manager.c:330-335 | The capacity check never rejects a fresh descriptor |
| Registry.InstallsAreAMap | kmodule/group_dev_manager.c:306-350 | After any sequence of installs minors are distinct and at most 256, and a descriptor is installed exactly if it was before or some attempt succeeded |
| Registry.Groups.constructor | kmodule/group_dev_manager.c:36-70 | A new registry is empty |
| Registry.Groups.GetGroup | kmodule/group_dev_manager.c:72-111 | Finds a device exactly for installed descriptors, and the one installed under it |
| Registry.Groups.Install | kmodule/group_dev_manager.c:290-359 | Keeps minors distinct and `used` equal to the list; reinstalling changes nothing; a fresh descriptor fails only if its device cannot be made |
| Registry.Groups.FreeOldest | kmodule/group_dev_manager.c:542-568 | One turn of the cleanup unlinks the oldest group and frees it: with a workqueue its works are run and freed once from the tail and all its messages freed in read order, without one and with nothing pending the published messages are; no other group is touched |
| Registry.Groups.FreeAll | kmodule/group_dev_manager.c:511-588 | Every registered group is unlinked and freed once, oldest first, each with exactly the works and messages it held, and `to_free` ends at 0 |

## Left out

- Solo: every schedule is treated for a lone flush; the other calls of a lone thread, with the worker at rest and no timer,
  have only one, which is the one given.
- Kernel services (allocation, user copies, semaphores, timers, workqueues, wait queues) appear as the contracts under
  "Assumptions" or as outcomes given by events and parameters.
- The conversion between milliseconds and jiffies (`kmodule/group_dev.c:80-107`): the delay is an abstract number of ticks.
- Character-device, class and udev registration and the rollback of a failed install
  (`kmodule/group_dev_manager.c:113-288`): one outcome decides. The variable tested at line 232 is assigned only on the
  first registration, so the success of later ones is part of that outcome.
- Logging and list printing, including the unlocked print at `kmodule/group_dev.c:682`.
- The terminator store at `kmodule/group_dev.c:656`, which lies beyond the allocated bytes: a payload is exactly its data.
- Null-pointer guards on fields set once at install, except the missing workqueue, which is modelled.
- A failed `init_group_devs` and a null `group_devs`: the registry always exists. Concurrent installs: the code takes no
  lock, and installs are modelled one after another.
- Device.GroupDev.Free: the loop over a nonempty pending list, which reads the list head as if it were a message, is
  modelled only as entered or not; nothing is claimed about the device afterwards.
- Registry.Groups.FreeAll: says nothing about a device without a workqueue that still has pending messages,
  for the same reason.
- The barrier wake-up inside `group_free` (`kmodule/group_dev_manager.c:369-377`), which is the awake of the barrier machine
  without its queue test.
- What memory holds after a work was misused; the machine stops at the misuse.
- Lost updates of `flags` by interleaved `|=` and `&=`; each update is one step.
- Opening a group and its retry (`lib/tsm_lib.c:12-114`), ioctl numbers, and the demonstration programs.
