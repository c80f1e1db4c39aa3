# Snowy: a verified model of its runtime protocols

Snowy is a C++20 coroutine runtime. Its logic is a set of small protocols that must stay
correct under cancellation, loop shutdown, out-of-order completion and other threads. This
project models those protocols in Dafny and proves what they promise, for every input,
every run and every interleaving.

`dafny verify dfyconfig.toml` checks all of it.

## How the model is built

* Operations that update linked nodes, rings, arrays and counters in place are classes with
  the same fields, loops and branches. Protocols between threads, or between the runtime
  and the kernel, are state machines whose runs are sequences of events.
* Each class keeps a ghost run of its state machine and ties every real field to the state
  that run reaches, so what is proved of runs holds of the code.
* A coroutine is an operation identifier. Stop tokens, loop stops, the kernel, the clock,
  consumer callbacks and other producers are nondeterministic steps; the code that reads a
  flag is modelled with flags changing just before each read.
* A mutex section is one step and atomics are sequentially consistent.

| file | what it models |
|---|---|
| `Options.dfy`, `Sequences.dfy` | a value that may be absent; facts about sequences |
| `IntrusiveList.dfy` | the doubly linked lists of waiters, the ready queue |
| `Ring.dfy` | the ring of slots in channel and mailbox |
| `BoundedQueue.dfy` | the abstract bounded FIFO with parked operations, and its theorems |
| `Parking.dfy` | how linked nodes stand for abstract waiters |
| `Queues.dfy` | channel and mailbox, proved to perform runs of `BoundedQueue` |
| `RemoteWaits.dfy` | waiters shared between threads, exactly-once delivery, a loop's message queue, the futex |
| `Wakeup.dfy` | the loop's wait and its producers |
| `Owner.dfy` | yields, timers, parked waits, events and requests over the real ready queue |
| `Loops.dfy` | fairness of bounded turns, and when a turn may wait |
| `Joins.dfy` | `when_all` and `when_any` |
| `Uring.dfy` | lifetime of native requests, cancel requests, DRAIN and the wake poll |
| `Provided.dfy` | the provided-buffer ring and bundle decoding |
| `Streams.dfy` | multishot receive over requests that are armed again |
| `Sends.dfy` | socket direction reservation and zero-copy sends |
| `Batches.dfy` | linked batches: submission and results |

## Where the code and a natural expectation part

* `ready_queue::push` asserts that a node's hook is clear. That does not detect every
  double push: `IntrusiveList.AssertMissesExactlyTheTail` shows it misses a queued node if
  and only if the node is the tail, so being on no queue is the caller's duty. `Owner.Loop`
  meets it at every push of the ready queue and `RemoteWaits.Inbox` at every push of a
  loop's messages: hooks are clear and off the queue whenever one is pushed.
* A channel waiter that its loop has expired stays linked until its frame is destroyed; a
  mailbox waiter leaves the list at once. Both refine the same abstract queue because an
  inactive linked waiter still faces the same way as the others.
* A zero-copy send has a retirement handler, so the driver does not flush a full batch
  before queueing it, as it would for another standalone request.

## Model

| member | source | states |
|---|---|---|
| `BoundedQueue.FifoRefinement` | include/snowy/channel.hpp:36-159 | in every run, at any capacity including 0: values handed out, then buffered values, then the values of pending parked senders are exactly all sends in call order without the failed ones |
| `BoundedQueue.SendSucceedsIffEntered` | include/snowy/channel.hpp:36-55 | a send succeeded if and only if its value entered the buffer or reached a receiver; the value of a failed send is nowhere |
| `BoundedQueue.ReceiversGetThePrefix` | include/snowy/channel.hpp:131-159 | the receiver of place p got exactly the p-th value of the non-failed sends, and no other receiver has that place |
| `BoundedQueue.DrainedMeansOver` | include/snowy/mailbox.hpp:34-38 | an awaited receive ends empty without error only on a closed queue all of whose accepted values have been handed out; while the close is still evicting, only receivers are left |
| `BoundedQueue.WaitersPinTheBuffer` | include/snowy/channel.hpp:108-159 | all linked waiters, canceled ones included, face one way; a linked sender means a full ring, a linked receiver an empty one |
| `BoundedQueue.EndIsFinal` | include/snowy/channel.hpp:89-129 | no step changes how an operation that has ended, ended |
| `BoundedQueue.FailuresAreBlamed` | include/snowy/channel.hpp:36-44 | a canceled operation's own token fired or its own loop stopped; a broken pipe means the queue was closed |
| `BoundedQueue.StepInv` | include/snowy/channel.hpp:36-159 | every send, receive, refusal, pruning, close, eviction, expiry and unlinking keeps order, conservation, receipts and the waiter-list invariant |
| `BoundedQueue.RunInv` | include/snowy/channel.hpp:36-159 | that invariant holds in every reachable state |
| `BoundedQueue.RunSends` | include/snowy/channel.hpp:72-79 | the recorded sends are the send calls of the run, in call order, whatever became of them |
| `Queues.Queue.AwaitSuspend` | include/snowy/channel.hpp:36-55 | a suspending send or receive extends the run by exactly its own event, after environment steps and prunings; it suspends as the last linked waiter and pending, or ends unlinked showing its outcome; a stop seen on entry always refuses it; no other operation is recorded and no token of an operation yet to come fires, so calls compose |
| `Queues.Queue.TrySend` | include/snowy/channel.hpp:79 | success if and only if the value was sent; a channel refuses on a stopped loop, a mailbox never does; only this operation is recorded and waiters leave only from the front |
| `Queues.Queue.TryRecv` | include/snowy/channel.hpp:81-85 | the value is the next one in order, or none was available, or a channel's loop is stopped; only this operation is recorded and waiters leave only from the front |
| `Queues.Queue.Close` | include/snowy/channel.hpp:89-99 | closing empties the waiter list by evictions only, each with the outcome the abstract close prescribes |
| `Queues.Queue.EvictAll` | include/snowy/mailbox.hpp:109-114 | a mailbox close reads each head's cancellation flags as they are at that moment, a channel close does not |
| `Queues.Queue.Take` | include/snowy/channel.hpp:114-129 | dead heads are pruned one by one with cancellation; the waiter returned is live, at the head and faces the wanted way; none is returned only if the list is empty or faces the other way |
| `Queues.Queue.PushValue` | include/snowy/channel.hpp:131-141 | hands over or stores, which is the abstract send; without room nothing but pruning happened |
| `Queues.Queue.PopValue` | include/snowy/channel.hpp:143-159 | takes the oldest value and refills from the head sender, which is the abstract receive; a missing value means no buffered value and no sender |
| `Queues.Queue.Interrupt` | include/snowy/detail/wait_queue.hpp:32-40 | a marked linked mailbox waiter is unlinked and completed as canceled; one with a delivery in flight is untouched |
| `Queues.Queue.ExpireWait` | src/loop.cpp:187-197 | a marked channel waiter is completed once as canceled and stays linked |
| `Queues.Queue.Resume` | include/snowy/channel.hpp:34 | the oldest completion leaves the queue, where it was once; the resumed operation observes exactly how it ended, and its node is off the list when its frame goes |
| `Queues.Queue.CancelFn` | src/loop.cpp:30-34 | a stop callback only marks a parked operation |
| `Ring.Buffer.Push` | include/snowy/channel.hpp:137-140 | appends to the contents in order through the wrapped slot index |
| `Ring.Buffer.Pop` | include/snowy/channel.hpp:145-150 | removes the oldest of the contents and clears its slot |
| `Ring.Buffer.TryPop` | include/snowy/mailbox.hpp:61-67 | yields the oldest value, or nothing exactly when empty, also at capacity 0 where no remainder is taken |
| `IntrusiveList.List.PushBack` | include/snowy/detail/wait_queue.hpp:56-63 | links at the end and keeps the list well formed |
| `IntrusiveList.List.PushFront` | src/loop.cpp:94-96 | links at the front and keeps the list well formed |
| `IntrusiveList.List.Unlink` | include/snowy/channel.hpp:108-112 | removes any member and keeps the order of the others |
| `IntrusiveList.ReadyQueue.Push` | include/snowy/detail/intrusive_queue.hpp:47-56 | the linked nodes refine a sequence: a push appends |
| `IntrusiveList.ReadyQueue.Pop` | include/snowy/detail/intrusive_queue.hpp:62-74 | a pop removes the first element and clears its hook, or reports emptiness |
| `IntrusiveList.AssertMissesExactlyTheTail` | include/snowy/detail/intrusive_queue.hpp:48 | the assertion misses a second push of a queued node if and only if that node is the tail |
| `RemoteWaits.StepInv` | include/snowy/detail/wait_queue.hpp:32-84 | every interleaved step keeps each shared waiter in exactly one place, consistent with its flags |
| `RemoteWaits.RunInv` | include/snowy/detail/wait_queue.hpp:32-84 | the same over whole runs |
| `RemoteWaits.ExactlyOnce` | include/snowy/detail/wait_queue.hpp:32-84 | in every run a parked waiter is linked, in one message, or queued once, never two of these; at most one message and one notification; whoever is destroyed is neither linked nor active |
| `RemoteWaits.StepKeepsVerdict` | include/snowy/detail/wait_queue.hpp:72-76 | no step changes the error of an unlinked waiter, and only its resumption removes it |
| `RemoteWaits.VerdictIsFinal` | include/snowy/detail/wait_queue.hpp:35-39 | from unlinking to resumption no cancellation, stop, close or other delivery changes what a waiter reports |
| `RemoteWaits.Accounting` | include/snowy/detail/wait_queue.hpp:29-47 | waiters parked so far are those resumed plus those linked, in a message or queued |
| `RemoteWaits.NoMissedNotify` | include/snowy/futex.hpp:27-54 | once no storer is between its store and its notification, every parked waiter checked the value the atomic still has |
| `RemoteWaits.NotifyOne` | include/snowy/futex.hpp:46-49 | with flags raised at any moment: the notification goes to a waiter that reports success, those failed before it are canceled ones, and only a queue of dead waiters absorbs it |
| `RemoteWaits.NotifyAll` | include/snowy/futex.hpp:51-54 | everybody leaves in parking order with one message each, and only canceled ones report cancellation |
| `RemoteWaits.Front` | include/snowy/detail/wait_queue.hpp:79-84 | prunes exactly a prefix of waiters that are dead, each failed as canceled |
| `RemoteWaits.Inbox.Send` | src/loop.cpp:11-16 | delivering a waiter of this loop appends its own hook, which is clear and off the queue, to the real message queue; a waiter of another loop leaves it alone |
| `RemoteWaits.Inbox.Receive` | src/loop.cpp:219-234 | the oldest message is taken off the real queue, and running it is the step of the shared protocol that notifies its waiter |
| `Wakeup.StepInv` | src/loop.cpp:208-259 | every producer, owner and kernel step keeps the wakeup invariant |
| `Wakeup.RunInv` | src/loop.cpp:208-259 | the invariant holds in every reachable state |
| `Wakeup.NoLostWakeup` | src/loop.cpp:11-16 | with any number of producers, and whether the loop stays for requests, parked waits, roots or a guard alone: in an unbounded wait, published posts or messages have raised the event, a raised cancel flag or last guard release has a wake coming, and the wake poll can report it |
| `Wakeup.WaitEnds` | src/loop.cpp:208-259 | for every run into an unbounded wait with published work, also one only parked waits or roots keep, and every continuation in which the wait has not ended: the work is still there, the distance to the end has not grown, and either the wait can end by seeing the wake or an enabled step of a waking thread or the kernel brings it nearer, at most two of them |
| `Wakeup.WaitStep` | src/uring.cpp:249-260 | nothing that happens during such a wait takes it further from its end or loses published work |
| `Loops.TurnAdvances` | src/loop.cpp:237-241 | a turn resumes exactly the first items within its budget and moves the others forward by the whole budget, whatever is pushed |
| `Loops.StaysQueued` | src/loop.cpp:237-253 | until its turn comes an item is still queued, one budget further per turn |
| `Loops.RunsWithin` | src/loop.cpp:237-253 | an item at position p is run in turn p / budget + 1 at its place p modulo budget, and every earlier turn decides about waiting while the item is still queued |
| `Loops.ReadyNeverWaits` | src/loop.cpp:247-258 | no turn before a ready item's own blocks: it skips the poll or polls with zero delay, whatever else is pending |
| `Loops.MessagesNeverWait` | src/loop.cpp:219-227 | the same for a message left behind by the budgeted detach, which makes the turn see posted work |
| `Owner.ExactlyOnce` | src/loop.cpp:54-105 | in every run over yields, timers, waits, event awaiters and native requests: pushes of an operation without a handler are exactly its armings, less one while pending; one with a handler, which only a native request can have, is never pushed and handled exactly so often; an operation is queued at most once and never while pending |
| `Owner.DoSound` | src/loop.cpp:41-105 | every act on an operation keeps each pending one on the list of its kind, each queued one off all lists, and the accounts |
| `Owner.Loop.Accounts` | include/snowy/detail/intrusive_queue.hpp:47-56 | the same equations in every state the code can reach, and a hook is on the real ready queue at most once, not while its operation is pending, and clear when off it |
| `Owner.Loop.YieldNow` | src/loop.cpp:41-45 | a yield is armed and queued at once |
| `Owner.Loop.Start` | src/loop.cpp:54-98 | a timer, wait or request becomes pending on its list, unless refused |
| `Owner.Loop.Notify` | src/loop.cpp:100-105 | a pending wait leaves the linked list and is queued once; one already retired is ignored |
| `Owner.Loop.Complete` | src/loop.cpp:153-166 | a native request ends with its own handler and no push if it has one, with one push otherwise |
| `Owner.Loop.Await` | include/snowy/event.hpp:59-67 | an awaiter parks, links to its event and is notified at once if the event is set |
| `Owner.Loop.SetEvent` | include/snowy/event.hpp:34-38 | every linked awaiter is notified in list order |
| `Owner.NotifyAllIs` | include/snowy/event.hpp:34-38 | setting an event queues exactly the pending awaiters, once each and in order; setting it again queues nobody, although they are still linked |
| `Owner.Loop.Sweep` | src/loop.cpp:173-179 | while marks rise: every armed timer is looked at once; one marked at the start, or any on a stopped loop, is failed and queued; whoever is failed was marked when read; the rest stay in order |
| `Owner.Loop.Scan` | src/loop.cpp:187-197 | while marks rise and shared waiters are delivered: every wait of the linked list is looked at once although failing it unlinks it; one marked at the start is failed and queued, unless it is shared and was delivered meanwhile; whoever is failed was doomed when read; the rest stay in order |
| `Owner.ScanSplits` | src/loop.cpp:173-179 | a scanned list is split without loss between those that stay and those that are failed |
| `Owner.Loop.FireDue` | src/loop.cpp:199-205 | finishes exactly the due timers, none twice, in nondecreasing deadline order |
| `Owner.Loop.Expire` | src/loop.cpp:168-206 | one pass queues what the sweep failed, then what the scan failed, then what fired; without a cancel flag nothing is failed, and whoever is failed was doomed when read; nothing doomed at the start is missed unless delivered meanwhile; of the timers not failed exactly the due ones fire, once each in nondecreasing deadline order, and exactly the others stay |
| `Owner.Loop.Next` | src/loop.cpp:236-241 | the oldest queued operation is taken off the ready queue |
| `Owner.Loop.Destroy` | src/loop.cpp:22-24 | an operation goes only when neither pending nor queued |
| `Joins.Join.Launch` | include/snowy/when.hpp:119-124 | starts children in order up to the first that fails to start, and remembers that failure |
| `Joins.Join.Collect` | include/snowy/when.hpp:62-83 | a child publishes into its own slot; the barrier is set by the last started child and by no other |
| `Joins.Join.BarrierDrains` | include/snowy/when.hpp:125 | when the parent goes on, every child that started has published |
| `Joins.Join.ReportAll` | include/snowy/when.hpp:125-130 | the values in input order, or the startup failure, or the first error in publication order; no empty slot is read |
| `Joins.Join.ReportAny` | include/snowy/when.hpp:168-172 | the startup failure, or the first publisher's index and value, or its error; no empty slot is read |
| `Joins.WinnerSlot` | include/snowy/when.hpp:171-172 | the winner's slot still holds what the winner published |
| `Joins.SlotFilled` | include/snowy/when.hpp:127-129 | without an error whoever published has filled its slot |
| `Uring.StepInv` | src/uring.cpp:178-247 | every submission, cancel, posted or handled completion and poll boundary keeps the lifetime invariant |
| `Uring.RunInv` | src/uring.cpp:178-247 | the invariant holds in every reachable state |
| `Uring.ListedIffReferenced` | src/uring.cpp:222-247 | a request is listed if and only if the kernel holds or has posted something that names it |
| `Uring.HandledIsListed` | src/uring.cpp:226-235 | every completion taken from the queue names a listed request |
| `Uring.ListChange` | src/loop.cpp:153-166 | a request enters the list only by submission and leaves it only by retirement, after which nothing names it |
| `Uring.RetiredExactlyOnce` | src/uring.cpp:231-246 | submissions of an address equal its retirements, plus one while it is listed, in every run |
| `Uring.NeverDeaf` | src/uring.cpp:187-197 | every poll has the wake poll armed or its completion queued, or waits at most one millisecond |
| `Uring.DrainCount` | src/uring.cpp:222-225 | the DRAIN counter is the number of listed draining requests |
| `Uring.Driver.Submit` | src/uring.cpp:132-146 | queues a request as the submission step, waking an armed wake poll before DRAIN |
| `Uring.Driver.Cancel` | src/uring.cpp:178-185 | asks once for cancellation and keeps the request until that completes too |
| `Uring.Driver.CancelMarked` | src/loop.cpp:181-186 | while marks rise: every pending request is looked at once; one marked at the start, or any on a stopped loop, is asked unless it was before; whoever is asked was marked when read; the others are untouched |
| `Uring.Driver.Retire` | src/uring.cpp:226-246 | one completion updates its request and retires it exactly when its main completion is final and no cancel completion is outstanding |
| `Uring.Driver.RetireAll` | src/uring.cpp:226-247 | a whole snapshot is handled in order; those retired are distinct and were listed, and whoever left the list is among them |
| `Uring.Driver.Rearm` | src/uring.cpp:249-260 | after every poll the wake poll is armed or DRAIN requests are pending |
| `Uring.Driver.Poll` | src/uring.cpp:218-260 | a poll is a run of begin, one handling per completion and end; what it retired is unlisted and unreferenced afterwards, and whatever it unlisted is reported as retired |
| `Provided.Table.constructor` | src/uring_net.cpp:96-114 | all buffers published in ID order, none leased, and the chain agrees |
| `Provided.Table.Take` | src/uring_net.cpp:118-130 | leases if and only if the completion names a free buffer in range with a fitting size; an error changes nothing |
| `Provided.Table.Put` | src/uring_net.cpp:131-141 | returning a lease in any order appends the buffer to the publication order and keeps the chain in agreement with it |
| `Provided.Table.Part` | include/snowy/uring.hpp:324-333 | one step of a bundle never meets an invalid or held ID, and reads the successor before the lease can change it |
| `Provided.Table.Each` | include/snowy/uring.hpp:318-336 | for any posted bundle, whatever others are pending: the chunks are exactly the IDs the kernel took in publication order, distinct, with lengths that sum to the completion's size; if the consumer throws, every later chunk has been returned; no error path is reached; the other bundles stay decodable |
| `Provided.Table.Serve` | include/snowy/uring.hpp:318-336 | any run of consumptions, returns and decodings of posted bundles in any order: every decoding succeeds, yields the kernel's own buffers, and happens once per bundle |
| `Provided.DecodeBooked` | include/snowy/uring.hpp:323-334 | decoding inside one bundle's window leaves every other pending bundle delivered and undecoded |
| `Provided.NoMissedReturn` | src/uring_net.cpp:142-147 | in every run whoever sleeps for a lease went to sleep after the last return, with every buffer leased since |
| `Provided.PublishChained` | src/uring_net.cpp:135-136 | the in-array chain agrees with the publication log after every return |
| `Provided.PublishPartitioned` | src/uring_net.cpp:131-139 | a returned buffer is out again, and every buffer is either leased or out |
| `Provided.DecodePartitioned` | src/uring_net.cpp:123-124 | leasing a delivered buffer keeps that partition |
| `Provided.WindowDistinct` | include/snowy/uring.hpp:319-320 | undecoded publications name distinct buffers, so a well-behaved bundle is no longer than the table |
| `Provided.FillsIffParts` | include/snowy/uring.hpp:319 | the number of parts is the only one whose buffers, all full but the last, hold the size |
| `Provided.WithIdNames` | include/snowy/uring.hpp:327 | the rebuilt completion flags name the intended buffer |
| `Provided.LeaseConservation` | src/uring_net.cpp:118-141 | leases, delivered but undecoded buffers and available ones add up to the table |
| `Streams.Receiver.Receive` | include/snowy/uring.hpp:441-466 | over any requests the kernel ends in any way: the consumer gets the posted chunks in order from the first on, all of them unless it had enough, failed or a buffer was missing, and is never called again after it had enough or failed; a consumer failure or a missing buffer is what is thrown; otherwise the last request decides, and every earlier one ended early with data or for want of buffers |
| `Streams.Receiver.Result` | src/uring_net.cpp:172-181 | one completion: its error or size is kept, its chunks go to the consumer in order, the first failure is remembered and stops the request |
| `Streams.Receiver.Settle` | include/snowy/uring.hpp:457-465 | when a drained request ends the receive and how, and when it is armed again |
| `Sends.StepInv` | src/loop.cpp:125-151 | creation, every way a start can end, completions, resumption and destruction keep the invariant above the ring |
| `Sends.RunInv` | src/loop.cpp:125-151 | the invariant holds in every reachable state |
| `Sends.DirectionExclusion` | include/snowy/detail/io.hpp:75-95 | a direction is busy if and only if some request has reserved it, and then it is the only one |
| `Sends.OneInFlight` | src/uring_net.cpp:63-71 | at most one request per direction awaits its outcome, although sends with unreleased buffers may be listed beside it |
| `Sends.ReleaseIsTheEnd` | src/uring_net.cpp:60-85 | a zero-copy buffer is released if and only if the send was started and nothing can name it any more; a failure is observable only then, a success from the primary completion on |
| `Sends.SafeToDestroy` | src/loop.cpp:22-24 | whoever has seen its request end destroys one that is not active and that no completion can reach |
| `Batches.Submissions.Append` | src/uring.cpp:19-32 | a submission goes to the end of the queue; without flush and with room nothing is submitted before it |
| `Batches.Submissions.Reserve` | src/uring.cpp:92-106 | makes room if and only if the batch fits the ring, and has the wake poll fire before a draining batch |
| `Batches.Submissions.Submit` | src/uring.cpp:132-146 | a request of a reserved batch is queued without entering the kernel, draining or not |
| `Batches.Submissions.Prepare` | src/uring_ops.cpp:276-295 | accepts exactly batches of supported, unlinked entries and links each to the next, the last to nothing |
| `Batches.Submissions.Launch` | src/uring_ops.cpp:301 | reserved entries are queued in consecutive slots and none is submitted meanwhile |
| `Batches.Submissions.SubmitBatch` | src/uring_ops.cpp:248-301 | the outcome for every input; when queued, the whole chain sits unsubmitted at the end of the queue, otherwise nothing is queued |
| `Batches.ChainJoins` | src/uring_ops.cpp:289-292 | links join only entries of the same batch, whatever was queued before |
| `Batches.StepInv` | src/uring_ops.cpp:259-275 | launches, other traffic, cancellations and completions keep the batch invariant |
| `Batches.BarrierIsLast` | src/uring_ops.cpp:267-303 | the barrier opens once, exactly when every entry was queued and retired; then every result is what was recorded when the kernel posted it, and nothing can reach a request |
| `Batches.ResultsAreTheKernels` | src/uring_ops.cpp:269-272 | when the barrier has opened, result i is the one the kernel posted for entry i at an earlier point of the run |
| `Batches.ResultIsFinal` | src/uring_ops.cpp:269 | a stored result is never overwritten |

## Left out

- Coroutine machinery (tasks, symmetric transfer, frame allocation): a continuation is an identifier.
- kqueue and IOCP backends, sockets, UDP, files and typed system call wrappers: little state of their own.
- Ring setup, registration, affinity, NAPI and IOPOLL waiting: configuration.
- Memory ordering weaker than sequential consistency and the inside of mutexes.
- The standard heap algorithms and the compaction of the timer vector: `Owner.Loop` keeps timers in a sequence, takes the earliest deadline and removes swept timers one by one.
- Exceptions from allocation and failed kernel submission inside the driver; a failed start is modelled in `Sends` as `Rejected`.
- `pool`, `spawn` and `sync_wait`.
- Move construction and assignment of a lease.
- The multishot accept and message loops, which differ from `Streams.Receiver` in what they hand over.
- Streams.Receiver.Receive: the kernel's answers are given as the requests it would end, the wait for a buffer is the one of `Provided.NoMissedReturn` and may be canceled, and which buffers a bundle holds is `Provided.Table.Each`.
- RemoteWaits.Inbox.Receive: the batch detached under the mutex and the messages left behind are one queue, as the batch is run first and in order.
- Pointer threading of some lists: `Uring` keeps listed requests in a map, `RemoteWaits` the shared list, and `Owner.Loop` the requests and the awaiters of an event as sequences; the links themselves are `IntrusiveList.List`, which `Owner.Loop` and `Queues.Queue` use.
- Owner.Loop.Start: gives a wait a new link each time it parks, because an awaiter is one-shot.
- Provided.Table.Each: assumes a kernel that consumes buffers in published order and fills each before the next; for completions of any other kernel only `Take`'s refusals are modelled.
- Provided.Table.Take: assumes that a kernel naming a free buffer has consumed it.
- Batches.Submissions.Append: a submission interrupted by a signal is retried without a step of its own, and every other submission takes at least one entry.
- Wakeup.WaitEnds: fairness of threads and kernel, under which an enabled step is eventually taken, is not modelled.
- RemoteWaits.NoMissedNotify: stores are notified by `notify_all`; `notify_one` wakes one waiter by design.
- Joins.Join.Launch: children publish only after all are launched, because each first yields to the owner loop.
- Joins.Join.ReportAny: the race of no children, which the code refuses before anything starts, is not modelled.
- Provided.Table.constructor: assumes dimensions the code has validated (a positive power of two up to 32768, a positive size) and a registration that succeeds.
