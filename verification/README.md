# Userspace RCU: a Dafny model

This project models the concurrent core of the userspace RCU library and proves
what its protocols keep over every run. Each protocol is a state machine: every
shared load, store, exchange or compare-and-exchange is one atomic step, any number
of threads interleave, and a run is any sequence of states that starts in an
initial state and takes one step at a time. The theorems speak of every state, or
every pair of states, of every run. Memory is sequentially consistent throughout.

The parts, each resting on the one before:

- **Hash table** (`SplitOrder`, `SplitList`, `HashTable*`). The split-ordered list of
  `rculfhash.c`: bit reversal and bucket arithmetic for every word width; lookup, plain
  and unique add, add-or-replace, replace, logical delete, cooperative garbage
  collection, and growing and shrinking by any number of helper threads, all on one
  list whose next words carry the REMOVED, BUCKET and REMOVAL_OWNER flags. What each
  operation answers is stated from its call to its return. Grace periods
  are part of the state, so freeing an item or a bucket table is a step whose safety
  is proved.
- **Grace periods** (`GracePeriod`, `GpBatching`, `Synchronize`, `Qsbr`, `QsbrOnline`). The two-phase
  protocol with its counter word, registry lists and futex; the stack on which concurrent
  `synchronize_rcu` callers share a grace period; the two joined, for any number of callers;
  and the QSBR counter protocol.
- **Queues** (`WfcQueue`, `WfcQueueAnswers`, `LfQueue`, `LfQueueAnswers`, `LfQueueReclaim`). The
  wait-free queue with splice, and the
  lock-free queue with dummy nodes, a lagging tail, and nodes reclaimed and reused after
  grace periods.
- **Deferred work** (`CallRcu`, `CallRcuWake`, `DeferQueue`, `DeferRace`, `PollWorker`). Callback workers,
  `rcu_barrier` and worker removal; how workers and barriers sleep and wake; the
  `defer_rcu` ring, its encoding, and its owner racing with a reclaimer; and
  grace-period polling.

A state machine keeps records that the program does not have, such as the order in
which nodes were linked or the grace periods begun so far. Records do not steer the
program: where a step mentions one, the invariant shows that the case it leaves out
does not arise. Each record is tied to the program's own words by the invariant.

Four properties one might expect fail, each on a family of runs that is pinned down:

- "A lookup finds a key that is in the table all along" fails only if, while the lookup
  is under way, a unique add inserts the key at a place the lookup has already passed,
  and plain adds use the key too. `LookupFindsPresentKey` proves the property for every
  other lookup, whatever adds came before or after it; `LookupCanMiss` gives, for every
  key and every word width, a run in which such an insertion makes a lookup miss.
- "A QSBR grace period has seen a quiescent state of every thread online at its start,
  and its writer is woken" fails for a thread that calls `thread_online` while it is
  online: the call stores the current counter and wakes nobody. `CoversWithoutQuiescence`
  and `WakeupCanBeLost` give the runs. `GracePeriodCovers` proves that it takes such a
  call by that very thread within the grace period, and `NotLostOtherwise` that the
  writer is left asleep only if every reader it awaits made such a call after it was
  flagged.
- "A node dequeued from the lock-free queue, or a dummy the head has passed, is out of use
  once a grace period has gone by" fails for a node that the tail still points to when the
  grace period begins: dequeue never looks at the tail, and an enqueue that starts later
  still loads the node from it. `MetAgainIff` proves, in every run in which no such
  grace period has begun, that a thread not yet in an operation can come to hold a passed
  node if and only if the tail points to it now. `ReclaimedInUse` gives a run that compares and exchanges in reclaimed memory, and
  `NodeLost` one in which an enqueued node is lost that way. The other theorems on this queue
  hold in every run up to the first grace period that begins for the node under the tail.
- "A passed polling target reads as reached" fails once the counter has moved far enough
  to wrap. `BeforeIff` and `PollState` say exactly when it holds: when the distance, taken
  modulo 2^64, is at least 1 and at most 2^63. A target never reads as reached too early.

## Model

| member | source | states |
|---|---|---|
| SplitOrder.RevInvolution | src/rculfhash.c:448-455 | Reversing the bits of a word of any width twice gives the word back. |
| SplitOrder.BitReverse64 | src/rculfhash.c:406-455 | The byte-table reversal of eight bytes is the reversal of the 64-bit word, for every word. |
| SplitOrder.TableReverses | src/rculfhash.c:406-421 | Every entry of the 256-entry table is the reversal of its index. |
| SplitOrder.BucketPrecedes | src/rculfhash.c:950-956 | The bucket of a hash sorts no later than any item with that hash, at every table order. |
| SplitOrder.BucketGap | src/rculfhash.c:950-956 | No other bucket of the same table size sorts between an item's bucket and the item. |
| SplitOrder.ParentPrecedes | src/rculfhash.c:1376-1394 | A bucket of the upper half sorts strictly after the lower-half bucket it is inserted behind. |
| SplitList.ChainOrder | src/rculfhash.c:961-1005 | Of two nodes on the list, one is reached from the other, in split order. |
| SplitList.PublishEvolves | src/rculfhash.c:1157-1182 | Inserting a node keeps every path, and between old nodes it makes no new ones. |
| SplitList.UnlinkEvolves | src/rculfhash.c:989-1003 | Unlinking a removed node keeps every path to an unremoved node. |
| SplitList.FlagEvolves | src/rculfhash.c:1224-1240 | Setting the REMOVED flag changes no path. |
| HashTableCreate.CountOrder | src/rculfhash.c:616-639 | The smallest order whose power of two is at least the size. |
| HashTableCreate.CreateBuckets | src/rculfhash.c:1563-1609 | The nested loops yield one list, sorted by reversed hash, of exactly the buckets below the size. |
| HashTableCreate.CreatedIsInitial | src/rculfhash.c:1563-1609 | A created table is an initial state of the hash-table machine, for every width and order. |
| HashTableRuns.NextInv | src/rculfhash.c:961-1269 | Every step of every operation, of garbage collection and of resizing keeps the invariant. |
| HashTableTheorems.ListIsSound | src/rculfhash.c:961-1269 | In every state all edges ascend in split order, there is no loop, every unremoved node is reachable from bucket 0, and no node is owned without being removed. |
| HashTableTheorems.RemovedIsFrozen | src/rculfhash.c:1201-1269 | Once a node is removed its successor never changes and its flags stay. |
| HashTableTheorems.GoneForever | src/rculfhash.c:961-1005 | A removed node that left the list never becomes reachable again. |
| HashTableTheorems.GcUnlinks | src/rculfhash.c:961-1005 | When a garbage collection returns, each node removed before its call and sorting between bucket and marker is out of the list, then and in every later state. |
| HashTableTheorems.KeysStayUnique | src/rculfhash.c:1124-1182 | A key never used with a plain add has at most one unremoved node, in every state. |
| HashTableTheorems.OneRemovalWins | src/rculfhash.c:1025-1269 | Of all deletes and replacements of a node at most one succeeds; the owner flag is set exactly when one has; and once no remover is between flag and verdict, exactly one has. |
| HashTableTheorems.NothingFreedIsUsed | src/rculfhash.c:1507-1558 | No pointer of an operation in a read section, and nothing it leads to, is freed memory, for items and for buckets of a shrunk table. |
| HashTableTheorems.BucketsStayUsable | src/rculfhash.c:1507-1558 | Every bucket of the stored size is live and not freed, in every state of every resize. |
| HashTableTheorems.LookupFindsPresentKey | src/rculfhash.c:1720-1765 | A lookup during which its key always has some unremoved node finds a node with that key, unless a unique add inserts the key behind it, during the lookup, while plain adds use it too. |
| HashTableTheorems.LookupAnswers | src/rculfhash.c:1720-1765 | From call to return, whatever happens meanwhile: a lookup answers that there is no such key, or gives a node with the key that was unremoved when it was read and that the caller may use until it leaves its section; it changes nothing. |
| HashTableTheorems.AbsentKeyIsMissed | src/rculfhash.c:1720-1765 | A lookup of a key that has no unremoved node in any state of it answers that there is none. |
| HashTableAnswers.AddAnswers | src/rculfhash.c:1837-1886 | An add answers with a new node that is then in the table, a unique one only if the key was absent unless plain adds use it; or, if unique, with an unremoved node that has the key; or, if replacing, with two nodes it has exchanged. |
| HashTableAnswers.PlainIsCalled | src/rculfhash.c:1837-1846 | The keys taken as used by plain adds are exactly those of the plain adds called so far. |
| HashTableAnswers.DelAnswers | src/rculfhash.c:1201-1269 | A delete reports success only if its own last step set REMOVAL_OWNER on its node, which is then out of the list for good; it refuses only if it was given no node or somebody else, or an earlier call, removed the node or took its removal. |
| HashTableAnswers.ReplaceAnswers | src/rculfhash.c:1007-1076 | A replacement answers with the given node, unremoved until then, and the new one it put in its place; it refuses only if the node is none, has another key or is removed, or the caller's next word was flagged. |
| HashTableOwners.OneIsTold | src/rculfhash.c:1252-1268 | In a whole run at most one call is told that the removal of a node is its own, be it a delete or a replacement. |
| HashTableOwners.ToldIsOwner | src/rculfhash.c:1252-1268 | Who is told so is the thread whose step set REMOVAL_OWNER on the node. |
| HashTableOwners.OwnerIsTold | src/rculfhash.c:1252-1268 | Who sets REMOVAL_OWNER is told so, or is still collecting the bucket after a replacement. |
| HashTableMixed.LookupCanMiss | src/rculfhash.c:1720-1765 | For every key and word width: a run in which a lookup misses that key although it is in the table in every state of the lookup, with such an insertion in the middle of it. |
| GracePeriod.NestMore | include/urcu/static/urcu-mb.h:59-69 | A nested lock adds one to the nesting count and leaves the phase. |
| GracePeriod.NestLess | include/urcu/static/urcu-mb.h:101-111 | An unlock takes one from the nesting count and leaves the phase. |
| GracePeriod.FlipPhase | include/urcu/static/urcu-common.h:48-51 | Switching parity flips the phase, leaves the nesting count, and is its own inverse. |
| GracePeriod.NextInv | src/urcu.c:229-458 | Every step of readers and writer keeps the invariant. |
| GracePeriod.GracePeriodCovers | src/urcu.c:337-458 | When `synchronize_rcu` has returned, every outermost section open when it began has ended in between: its reader held no lock in some state of it, for any nesting, any stale load, and threads that register or unregister meanwhile. |
| GracePeriod.ListsPartitionReaders | src/urcu.c:229-275 | Every registered thread is in exactly one of registry, snapshot and quiescent list, and no other thread is. |
| GracePeriod.NoLostWakeup | src/urcu.c:186-299 | The futex is 0 or -1; a sleeping writer has a reader that must still wake it, or a wake call on its way. |
| GpBatching.NextInv | src/urcu-wait.h:74-202 | Every step of pushing, waiting, leading and waking keeps the invariant. |
| GpBatching.OneLeader | src/urcu.c:354-370 | The waiter stack is non-empty exactly when there is a leader that has not popped it, and that leader is unique. |
| GpBatching.LeaderAtBottom | include/urcu/static/wfstack.h:127-147 | From the head down each linked node leads to the one pushed before it, and the leader's node is the last. |
| GpBatching.ReturnsAfterGracePeriod | src/urcu.c:449-457 | A call returns only after a grace period that began after the call did has ended. |
| GpBatching.NodeStillThere | src/urcu-wait.h:113-202 | The wait node a leader is about to touch has not got TEARDOWN, and its call has not returned. |
| GpBatching.SleeperHasWaker | src/urcu-wait.h:131-186 | A sleeping waiter has a leader that has yet to make its futex call for it. |
| Synchronize.NextInv | src/urcu.c:337-458 | Every step of callers and of the grace-period protocol, joined, keeps both invariants and the link between them. |
| Synchronize.SynchronizeCovers | src/urcu.c:337-458 | When any call of `synchronize_rcu` has returned, leader or woken waiter, every read-side section open in a state before the call was pushed has ended in between. |
| Qsbr.NextInv | src/urcu-qsbr.c:144-218 | Every step of readers and writer keeps the invariant. |
| Qsbr.CountersInOrder | include/urcu/static/urcu-qsbr.h:86-99 | No reader's counter exceeds the global one, and an online counter is never mistaken for offline. |
| Qsbr.GracePeriodCovers | src/urcu-qsbr.c:349-438 | When `synchronize_rcu` has returned every thread online when it began has in between reported a quiescent state or gone offline, stale stores included, unless a `thread_online` of that very thread stored the counter while it was online, in between. |
| Qsbr.ListsPartitionReaders | src/urcu-qsbr.c:144-218 | A thread is registered exactly when it is in one, and only one, of registry and quiescent list. |
| Qsbr.NoLostWakeup | include/urcu/static/urcu-qsbr.h:68-84 | The futex is 0 or -1; a sleeping writer has a wake call on its way, or awaits readers each of which is flagged and has not yet reset the futex, except those that called `thread_online` while online after they were flagged. |
| QsbrOnline.WakeupCanBeLost | include/urcu/static/urcu-qsbr.h:211-223 | A run at whose end the writer sleeps, every reader is current, and nobody is about to wake it. |
| QsbrOnline.QuiescenceDoesNotHelp | include/urcu/static/urcu-qsbr.h:170-179 | In such a state a quiescent state of an online thread changes nothing. |
| QsbrOnline.NotLostOtherwise | include/urcu/static/urcu-qsbr.h:211-223 | No run reaches such a state as long as one awaited reader has not called `thread_online` while online since it was flagged. |
| QsbrOnline.CoversWithoutQuiescence | include/urcu/static/urcu-qsbr.h:211-223 | A run in which a grace period is done although a thread online at its start never reported a quiescent state or went offline. |
| WfcQueue.NextInv | include/urcu/static/wfcqueue.h:390-569 | Every step of enqueue, dequeue and splice keeps the invariant. |
| WfcQueue.FirstInFirstOut | include/urcu/static/wfcqueue.h:390-569 | In every state, the nodes that dequeues returned and splices took, followed by the content, are the nodes appended, in the order of the tail exchanges. |
| WfcQueue.HistoryGrows | include/urcu/static/wfcqueue.h:390-569 | What was appended to a queue, and what left it, only ever grows at the end. |
| WfcQueue.AppendsInOrder | include/urcu/static/wfcqueue.h:168-199 | The tail exchange puts the nodes behind the content, in order, and reports whether there was any. |
| WfcQueueAnswers.AppendedTells | include/urcu/static/wfcqueue.h:168-199 | What an append returns is whether the queue was non-empty at its tail exchange, after which it was only about to link. |
| WfcQueueAnswers.EnqueueAnswers | include/urcu/static/wfcqueue.h:211-219 | From call to return, an enqueue puts its node behind the content of its queue and returns whether there was any. |
| WfcQueueAnswers.SpliceAnswers | include/urcu/static/wfcqueue.h:516-569 | A splice takes the whole content of its source and puts it, in order, behind that of its destination, and returns whether there was any; or it finds the source empty, or would block, and changes nothing. |
| WfcQueueAnswers.DequeueAnswers | include/urcu/static/wfcqueue.h:390-447 | From call to return, a dequeue gives the oldest node of its queue and takes only that one, with LAST exactly when it empties the queue; or it finds the queue empty, or would block, and changes nothing. |
| WfcQueueAnswers.CheckAnswers | include/urcu/static/wfcqueue.h:136-152 | The emptiness test says truly whether the queue is empty, as of its last read. |
| WfcQueue.DequeuesOldest | include/urcu/static/wfcqueue.h:390-447 | A dequeue returns the oldest node, removes only that one, and says LAST exactly when it empties the queue. |
| WfcQueue.EmptyMeansEmpty | include/urcu/static/wfcqueue.h:136-152 | An operation reports empty only at a tail read at which the queue is empty, and changes nothing. |
| WfcQueue.WouldBlockChangesNothing | include/urcu/static/wfcqueue.h:409-440 | WOULDBLOCK leaves every queue as it was, non-empty, and its first node in place behind the head. |
| WfcQueue.SpliceTakesAll | include/urcu/static/wfcqueue.h:516-569 | The two exchanges of a splice take the first and the last node of the whole content. |
| WfcQueue.NoNodeLostOrDuplicated | include/urcu/static/wfcqueue.h:390-569 | Every node is free, or once in one queue, or once in one thread's hands. |
| WfcQueue.FreeNodeUntouched | include/urcu/static/wfcqueue.h:449-458 | No thread will touch a node that was dequeued: it can be reused at once. |
| WfcQueue.MemoryHoldsQueue | include/urcu/static/wfcqueue.h:168-199 | With no link owed and no dequeue under way, following next pointers from the head gives exactly the queue. |
| LfQueue.NextInv | include/urcu/static/rculfqueue.h:129-213 | Every step of enqueue, dequeue and reclamation keeps the invariant, except one that begins a grace period for the node under the tail. |
| LfQueue.FirstInFirstOut | include/urcu/static/rculfqueue.h:129-213 | Unless a grace period began for the node under the tail: what was dequeued followed by what is queued is the sequence of real nodes in the order of their linking, with memory reused. |
| LfQueue.NeverRewritten | include/urcu/static/rculfqueue.h:129-213 | The order of linking and the sequence of dequeued nodes only ever grow at the end, in every run. |
| LfQueue.NoNodeTwice | include/urcu/static/rculfqueue.h:129-173 | Unless a grace period began for the node under the tail: no node is in the queue twice, nor in it and among the passed ones not yet reclaimed. |
| LfQueueAnswers.DequeuesOldest | include/urcu/static/rculfqueue.h:182-211 | Unless a grace period began for the node under the tail: the node a dequeue returns is the oldest real node queued, and it takes off just that one. |
| LfQueueAnswers.EmptyMeansEmpty | include/urcu/static/rculfqueue.h:182-192 | Unless a grace period began for the node under the tail: a dequeue returns NULL only at a load at which no real node is queued, and changes nothing. |
| LfQueueAnswers.EnqueueAppends | include/urcu/static/rculfqueue.h:129-160 | Unless a grace period began for the node under the tail: an enqueue that returns has put its node behind what was queued, in exactly one of its steps. |
| LfQueueAnswers.OnlyOperationsChange | include/urcu/static/rculfqueue.h:129-213 | Unless a grace period began for the node under the tail: what is queued changes only when an enqueue links its node or a dequeue returns one; dummies and reclamation do not change it. |
| LfQueue.ReloadFindsSuccessor | include/urcu/static/rculfqueue.h:193-204 | Unless a grace period began for the node under the tail: after adding a dummy the second load finds a successor, so the head never becomes null. |
| LfQueue.HeadAndTail | include/urcu/static/rculfqueue.h:129-213 | Unless a grace period began for the node under the tail: the head is a linked node, and the tail the last node or the one before it. |
| LfQueue.MemoryHoldsQueue | include/urcu/static/rculfqueue.h:129-160 | Unless a grace period began for the node under the tail: next pointers from the head visit what was linked and not passed, in order, and end in NULL. |
| LfQueue.TailHeldByLinker | include/urcu/static/rculfqueue.h:144-152 | Unless a grace period began for the node under the tail: while the tail points to a node the head has passed, the enqueuer that linked past it is still in its operation. |
| LfQueue.NothingFreedIsUsed | include/urcu/static/rculfqueue.h:176-213 | Unless a grace period began for the node under the tail: no operation, nor the head or the tail, points to reclaimed memory. |
| LfQueueReclaim.MetAgainIff | include/urcu/static/rculfqueue.h:205-211 | Unless a grace period began for the node under the tail: a thread in no operation can, before one does, come to hold a node the head has passed if and only if the tail still points to that node. |
| LfQueueReclaim.ReclaimedInUse | include/urcu/static/rculfqueue.h:142-145 | A run with a whole grace period before the reclamation of a dummy, in which an enqueue is then about to compare and exchange in its memory. |
| LfQueueReclaim.NodeLost | include/urcu/static/rculfqueue.h:142-154 | Such a run in which the exchange succeeds and no linked node leads to the new node. |
| CallRcu.NextInv | src/urcu-call-rcu-impl.h:335-433 | Every step of workers, barriers and worker removal keeps the invariant. |
| CallRcu.ExactlyOnce | src/urcu-call-rcu-impl.h:382-400 | A callback runs at most once; until it has run it waits once, at one worker that is not freed, and afterwards nowhere. |
| CallRcu.RunsAfterGracePeriod | src/urcu-call-rcu-impl.h:382-400 | The callback a worker is running was queued before the grace period of its batch began: every state of the run without it precedes that. |
| CallRcu.BarrierWaits | src/urcu-call-rcu-impl.h:877-957 | `rcu_barrier` leaves only when all callbacks there were in any state before it began, on any worker and moved to any other, have run. |
| CallRcu.CompletionKeptWhileUsed | src/urcu-call-rcu-impl.h:868-891 | The completion has a reference as long as the barrier or a completion callback will use it, and none in the end. |
| CallRcu.FreedWorkerIsEmpty | src/urcu-call-rcu-impl.h:784-821 | A freed worker has no callback left, and the default worker is never freed. |
| CallRcuWake.WorkerIsWoken | src/urcu-call-rcu-impl.h:249-289 | A worker does not sleep on queued work or a stop request unless somebody is about to wake it; its futex is 0 or -1. |
| BarrierWake.BarrierIsWoken | src/urcu-call-rcu-impl.h:291-331 | A barrier does not sleep on a count of zero unless somebody is about to wake it, and stops waiting only at zero. |
| DeferQueue.RoundTrip | src/urcu-defer-impl.h:46-63 | Decoding the encoding of any sequence of calls gives it back, odd pointers and the -2 mark included. |
| DeferQueue.Unambiguous | src/urcu-defer-impl.h:46-63 | Two sequences of calls with the same words are the same. |
| DeferQueue.EncodeConcat | src/urcu-defer-impl.h:325-367 | The words can be cut between any two calls, carrying the last function over the cut. |
| DeferQueue.RingStore | src/urcu-defer-impl.h:350-362 | A store at the head extends the used part of the ring by that word and overwrites none of it. |
| DeferQueue.Queue.Defer | src/urcu-defer-impl.h:306-373 | The call is added behind the pending ones, or all pending calls are made first when fewer than three words are free; a head read earlier stays good. |
| DeferQueue.Queue.BarrierQueue | src/urcu-defer-impl.h:213-242 | The loop makes exactly the calls up to a published head, in order, and ends exactly on it. |
| DeferQueue.Queue.BarrierThread | src/urcu-defer-impl.h:244-261 | All pending calls are made, in order, and head and tail meet. |
| DeferQueue.DeferBarrier | src/urcu-defer-impl.h:276-301 | Every registered queue has all its pending calls made, in order, also when the grace period is skipped. |
| DeferRace.NextInv | src/urcu-defer-impl.h:213-373 | Every word-sized step of the owner and of a concurrent flush keeps the invariant. |
| DeferRace.MadeInOrder | src/urcu-defer-impl.h:213-242 | In every state of every run the calls made are a prefix of the calls queued. |
| DeferRace.NoUnreadSlotOverwritten | src/urcu-defer-impl.h:318-323 | A word is stored only to a slot that no index from the tail up to it uses. |
| DeferRace.FlushEndsOnHead | src/urcu-defer-impl.h:225-239 | A flush never reads past the head it loaded, and arrives on it only between calls. |
| DeferRace.FlushMakesAllBefore | src/urcu-defer-impl.h:276-301 | When a flush ends, the calls made are exactly those queued before it loaded the head, whatever the owner added meanwhile. |
| DeferRace.MadeAfterGracePeriod | src/urcu-defer-impl.h:276-301 | The call a flush is about to make was queued before a grace period began that the flush has waited for. |
| DeferRace.FullOwnerFindsEmptyRing | src/urcu-defer-impl.h:318-323 | An owner that had to wait for a flush finds head and tail equal, as it asserts. |
| DeferRace.EmptyRingAllMade | src/urcu-defer-impl.h:244-254 | When head and tail are equal and no flush runs, every queued call has been made. |
| PollWorker.BeforeExact | src/urcu-poll-impl.h:33-33 | The signed comparison of wrapped numbers is their order while they are at most half the range apart. |
| PollWorker.BeforeIff | src/urcu-poll-impl.h:82-83 | Exactly when a number reads as before a later one: when their distance modulo 2^64 is at least 1 and at most 2^63. |
| PollWorker.WrapHidesTarget | src/urcu-poll-impl.h:82-83 | A passed target does not read as reached at any distance that is a multiple of 2^64 or more than 2^63 beyond one. |
| PollWorker.Worker.Callback | src/urcu-poll-impl.h:27-41 | One more grace period is counted; the callback is queued again exactly when a target is not yet passed. |
| PollWorker.Worker.StartPoll | src/urcu-poll-impl.h:53-70 | The target is the current number, or the next one when the worker is active; the callback is queued exactly once. |
| PollWorker.Worker.PollState | src/urcu-poll-impl.h:77-86 | A target not passed reads as not reached; a passed one as reached exactly when its distance modulo 2^64 is at least 1 and at most 2^63. If it reads as reached, a grace period began after the ticket was issued and has ended. |
| PollWorker.TwoMoreCallbacks | src/urcu-poll-impl.h:43-70 | No target is more than one ahead: two more callbacks pass it. |

## Left out

- Weak memory: fences, acquire and release annotations, `membarrier` and the architecture headers; every access is sequentially consistent.
- The bp and memb flavours, the 32-bit QSBR two-phase variant and the incoherent-cache variant of `wait_for_readers`: the same protocols with other barriers.
- Wrap-around of the QSBR counter and of ring indices: they are unbounded here.
- `cds_lfht_next` and `cds_lfht_next_duplicate` as operations (the scan for duplicates inside a unique add is modelled), table destruction, the automatic resize heuristics, split counters and the memory backends of bucket tables. A bucket table is an injective map from index to node.
- Resize targets that are not powers of two: a resize is asked for by its order.
- Reuse of hash-table nodes: ids are fresh. Freeing is modelled, and no operation holds a freed node. For both queues reuse is modelled.
- A thread that unregisters inside a read-side section: sections are for registered threads.
- Reader nesting deeper than the nesting field: the library asserts against it.
- Wake-up of the deferral thread, `rcu_defer_unregister_thread` and stopping that thread.
- Workers that poll instead of sleeping, pausing around fork, CPU affinity, per-CPU worker tables, and the creation of the default worker, which exists from the start here.
- Failing allocations and thread creation, signals, fork handlers.
- `workqueue.c`, `lfstack`, `rculfstack`, `wfqueue`, list headers and reference counting helpers: simpler relatives of what is here.
