# Verified models of five components of msec

The project models, in Dafny 4.11, the parts of the repository whose correctness is hardest to see from the code, and
proves what their documentation and their callers rely on. `dafny verify dfyconfig.toml` checks everything.

## The components

**Lock-free queue** (`QueueMachine`, `QueueInvariant`, `QueueSteps`, `QueueTheorems`, `QueueOrder`, `QueueProgress`,
`QueueSolo`, `QueueAlone`, `QueueLockFree`). `concurrent_queue` as a step machine. Any number of threads run `push`,
`push_all`, both forms of `pop`, `peek` and `size`; every read and every compare-and-swap of shared memory is one step,
the item is copied one unit a step, and a node that was popped may be reused by any thread at once. `HeadStep` is the
loop of `pop` and `peek` (concurrent_queue.cpp:38-101), `TailStep` the loop of `size`, `push` and `push_all`
(:103-162), `BuildStep` and `CreateNode` the building of a batch (concurrent_queue.h:120-139,
concurrent_node_factory.h:155-164). The history variable `hist` lists every node ever linked; it shows the two versions
to be positions in that list. The main theorem is a refinement: the successful compare-and-swap on a link word appends
the whole batch, the successful one on the head removes the oldest item and delivers it, and no other step of any
thread changes the queue. What a call does is tied to the operation that its caller asked for, so that first in, first
out speaks of the batches requested. Progress is proved for a thread that runs alone, from everywhere and with the
result that a sequential queue gives (`QueueAlone`), and for the queue as a whole: a thread retries only because a
push, a pop or the advance of a lagging tail went through.

**Stack of free nodes** (`NodeStack`, `NodeReuse`). `node_stack` step by step. Its `cas_top` changes the element count
but never the version, so a pop is not protected against a node that comes back during it. The project proves exactly
when a pop is sound, and reaches a state in which one is not.

**Thread pool** (`PoolMachine`, `PoolInvariant`, `PoolSteps`, `PoolTheorems`, `PoolProgress`). Worker loop, semaphore,
task queue and barrier, `execute`, `wait()` and `stop()`, for any number of workers and callers. The task queue is the
FIFO that the queue theorems provide. Besides safety, `PoolProgress` proves that an awake worker takes the next task,
that no worker spins, that every queued task is started, and that nothing gets stuck short of finishing all tasks.

**Shared-memory ring** (`RingLayout`, `RingReserve`, `RingImage`, `Ring`, `RingRuns`; `RingMachine`, `RingInvariant`,
`RingSteps`, `RingTheorems`, `RingUsage`, `RingNoData`, `RingRefusal`, `RingAlone`). Two levels. `Ring.MmapQueue` is an
object over an array of bytes: `mq_put` and `mq_get` with the macros' arithmetic, the 16-byte headers, skip marks and
tokens, for calls that do not overlap; `Decode` says what a reader can make of the bytes between head and tail. The
macros' remainders are written once as a conditional subtraction and shown equal (`EmptyNodesIsMacro`, `AfterIsMacro`,
`NeededIsMacro`). `RingMachine` lets any number of puts and gets overlap: every access to `head_pos`, `tail_pos` and to
a slot is one step, and what a payload byte reads as a token or a length is arbitrary. How an overlapping get may end
without data, and a put with a refusal, is in `RingNoData` and `RingRefusal`; what a call does that runs alone in any
state that overlapping calls can reach is in `RingAlone`. This step model has no exit for a buffer that is too small,
and counts a record in chunks, one for each slot, where the program has its length in bytes; both are in
`Ring.MmapQueue`.

**Date printing and parsing** (`Calendar`, `DateText`, `DateFormat`, `DateLetters`, `Datepicker`, `DateRoundTrip`).
`formatDate`, `parseDate`, `iso8601Week` and `_getDaysInMonth` of the datepicker, over dates of the proleptic Gregorian
calendar. `Datepicker` has the loops over the format; `DateFormat` says what a format means, and `DateLetters` pins
that meaning letter by letter, on texts that were not printed, and on joined formats. Known dates anchor the calendar.

**MD5, HMAC and UTF-8** (`Md5Words`, `Md5Bits`, `Md5Rounds`, `Md5Pack`, `Md5Block`, `Md5Codec`, `Md5Hash`, `Md5Masks`,
`Md5`, `Md5Bytes`, `Md5Turns`, `Md5Trace`, `Md5Example`, `Utf8`). The hashing front end of the console against RFC
1321, RFC 2104 and RFC 3629. The 64 unrolled steps and the packing loops are proved for any word type whose bytes and
operations obey stated laws; `Md5Codec` and `Md5Block` prove the laws for 32-bit words. What the word functions compute
is fixed bit by bit (`Md5Bits`) and against the operators of 32-bit bit-vectors (`Md5Bytes`). The reference itself is
tied to the RFC by the digest of "abc": `Md5Trace` derives the registers after each of the 64 operations, and
`Md5Example` the sixteen bytes.

`Common` and `Arithmetic` hold what several of them share.

## Hypotheses

- Steps of different threads interleave (sequential consistency); versions, null tags and addresses do not wrap.
- `RingTheorems`, `RingUsage`, `RingNoData`, `RingRefusal` and `RingAlone` speak of clean runs. `RingMachine.Hazard`
  names what the code does not guard against: a compare-and-swap on `head_pos` or `tail_pos` that succeeds after a full
  lap, a reservation of slots that a reader has claimed but not yet copied and reset, and the branch that gives up on a
  slot after ten conflicts.
- Most of `NodeStack` speaks of clean runs too: no pop completes whose `next` is no longer that of the top. All
  runs in which no node is pushed again during a pending pop of it are clean (`NodeStack.NoReuseIsClean`).
- In `PoolMachine` at most one caller is in `wait()`, and `wait()` and `stop()` do not overlap.
- Hashing: 8 times the length of a message, and of a key, is below 2^31, as the program's 32-bit shifts need.
- Round trips of dates: the year is at least 100, because the host takes the years 0 to 99 for 1900 to 1999; no
  text gives a date of those years (`DateRoundTrip.EarlyYearsAreNeverParsed`). Names are lower-cased character by
  character, and of several names of the same length that stand at a position the first one is taken, which the
  original's sort does not promise; neither makes a difference for tables in which no name begins with another.

## Where the code does not keep its promise

- `node_stack::pop` can corrupt the stack. Witness: `NodeReuse.ReuseBreaksPop`, a run of two threads after which a
  node is on the stack and in hands at once and another one is lost. Exact condition:
  `NodeStack.RunIsSoundExactly`; a run keeps the stack and all threads sound if and only if in every pop that goes
  through the link read before is still that of the top node.
- `mq_get_usage` is documented to return 0 to 99 (mmap_queue.h:144-146) and can return 100. Witness:
  `RingRuns.FillCompletely`, four calls on a ring of 409 elements. Exact condition: `RingRuns.UsageStaysInRange`;
  in a run of calls usage leaves the range if and only if some accepted put goes round to slot 0 and needs exactly
  `head_pos - 1` slots. Records of fewer than 100 slots never do (`RingRuns.SmallRecordsStayInRange`). The same
  holds at every moment of clean runs while calls overlap (`RingUsage`).
- `mq_get` with a buffer that is too small returns -2, drops the record, and leaves its token behind:
  `Ring.MmapQueue.Get`, `RingImage.StaleToken`. The comment on it (mmap_queue.h:136-141) knows no -2.
- `thread_pool::wait()` on a pool without workers returns at once with tasks still queued:
  `PoolTheorems.WaitWithoutWorkers`. It keeps its promise if and only if the pool has workers:
  `PoolTheorems.WaitFinishesCallersTasks`.
- The day of the year does not come back for 29 February of year 0, which the host takes for 1900:
  `DateRoundTrip.OrdinalRoundTrip`.
- Quoting a text of the format and doubling its quotes gives the text back unless it is made of quotes alone:
  `DateRoundTrip.QuotingIsExact`. Literal text stands between single quotes, not double ones as the comment says
  (jquery-ui.js:5062). A `shortYearCutoff` of 0 counts as not given, by the `||` that picks the default.

## Model

| member | source | states |
|---|---|---|
| QueueTheorems.RunKeeps | monitor/lib/wbl/concurrent_queue.cpp:31-162 | In every reachable state, after any interleaving with reused nodes, the nodes from head on form one chain in link order, head and tail versions are positions in the link history with head not behind tail and tail not behind the last node, null tags are unique, and each thread's local variables say of the queue what its next compare-and-swap relies on. |
| QueueTheorems.StepRefines | monitor/lib/wbl/concurrent_queue.cpp:38-162 | Every step of every thread is a step of an atomic FIFO for the caller whose thread takes it: a call begins as the operation asked for, with nothing seen, and keeps it until it returns; a push takes effect once, with its whole batch; a pop returns the oldest item, copied before its compare-and-swap; peek returns it without removing it; "empty" is returned only if the queue was empty during the call; what size returns, plus what had been dequeued when it read the head, lies between what had been enqueued when the call began and when it ends. All other calls stay as they were. |
| QueueOrder.CallIsRequest | monitor/lib/wbl/concurrent_queue.h:120-139 | Whatever runs in a thread, or has ended there, is the operation that the thread asked for last. |
| QueueOrder.FirstInFirstOut | monitor/lib/wbl/concurrent_queue.cpp:38-162 | In every run the k-th pop to take effect returns the k-th item of the batches that callers asked to push, taken in the order in which the pushes took effect, and the linked list in memory holds, in order, exactly the items pushed and not popped. |
| QueueTheorems.ListHoldsContents | monitor/lib/wbl/concurrent_queue.cpp:31-36 | Following the link words from the dummy node gives the abstract queue's items in order, and no more of them. |
| QueueTheorems.VersionsGrow | monitor/lib/wbl/concurrent_node_factory.h:54-71 | Along every run the versions of head and tail only grow, and a pair changes only together with its version. |
| QueueTheorems.EqualVersionsPinThePair | monitor/lib/wbl/concurrent_queue.cpp:41-44 | If head, or tail, has the same version at two moments, the whole pair stood still at all moments between; this is what the check before each decision buys. |
| QueueTheorems.EqualTagsPinTheLastNode | monitor/lib/wbl/concurrent_queue.cpp:122-141 | A linked null tag that was read from a node's link word and is found there again means that the node was the last one of the queue at every moment between, however often nodes were popped, reused and pushed. |
| QueueTheorems.LinkedTagIsNotRewritten | monitor/lib/wbl/concurrent_queue.h:38-47 | No step writes a tag that has once been linked; tags are never issued twice. |
| QueueTheorems.SizeOfASnapshot | monitor/lib/wbl/concurrent_queue.cpp:103-120 | size() never underflows, and if the head did not move between its two reads and the tail does not lag, it is the length of the queue. |
| QueueTheorems.NodesArePartitioned | monitor/lib/wbl/concurrent_node_factory.h:153-164 | Every allocated node is free, in the list, or in the hands of one thread, and only there. |
| QueueTheorems.PoppedNodeIsOut | monitor/lib/wbl/concurrent_queue.cpp:46-55 | The node a pop returns is neither the tail nor reachable from head, so that destroy_node may reuse it. |
| QueueTheorems.DereferencesAreNodes | monitor/lib/wbl/concurrent_queue.cpp:38-162 | Every pointer a thread is about to follow is the address of an allocated node; a null tag is never followed. |
| QueueTheorems.PushAssertHolds | monitor/lib/wbl/concurrent_queue.cpp:131-134 | The assertion that push makes before it swings the tail holds in every reachable state, for push_all as well. |
| QueueTheorems.NoNodeLinksToItself | monitor/lib/wbl/concurrent_queue.cpp:31-162 | No step of the queue makes a node's link point to that node. |
| QueueSteps.StepKeeps | monitor/lib/wbl/concurrent_queue.cpp:31-162 | The invariant is inductive: every enabled step of every thread keeps it. |
| QueueProgress.PushFinishesAlone | monitor/lib/wbl/concurrent_queue.cpp:122-162 | From the top of its loop a push or push_all that runs alone is done after exactly 6 * (lag + 1) + 1 steps, lag being how far the tail is behind the last node, and leaves the tail at the last node. |
| QueueProgress.PopFinishesAlone | monitor/lib/wbl/concurrent_queue.cpp:38-101 | From the top of its loop a pop or peek that runs alone is done within two iterations, in at most width + 18 steps. |
| QueueSolo.FinishesFromAnywhere | monitor/lib/wbl/concurrent_queue.cpp:38-162 | In every reachable state, a thread at any step of push, push_all, pop, peek or size that then runs alone is finished within an explicit number of steps, and is not stuck before; at most the iteration it is in is wasted. |
| QueueSolo.StepsLeftBounded | monitor/lib/wbl/concurrent_queue.cpp:38-162 | That number in closed form: at most 2 * width + 27 for the head loop, 6 * lag + 13 for the tail loop, and 2 more for each item of a batch not yet built. |
| QueueAlone.CallAlone | monitor/lib/wbl/concurrent_queue.cpp:38-162 | In every reachable state an idle thread may start any operation; if it then runs alone, it ends within 2 * items + 6 * lag + 10 steps for a push, 6 * lag + 8 for size, width + 18 for the others, is not stuck before, and has changed the queue and got its result exactly as on a sequential queue. |
| QueueLockFree.RetryNeedsProgress | monitor/lib/wbl/concurrent_queue.cpp:38-162 | In every run, if a thread comes back to the top of its loop within one operation, then since its last visit there a push or a pop took effect or the tail was advanced. |
| QueueLockFree.RetriesArePaidFor | monitor/lib/wbl/concurrent_queue.cpp:38-162 | The retries of one operation are at most the items dequeued, plus twice the items enqueued, by anyone meanwhile, plus the lag of the tail at its first visit. |
| NodeStack.PushIsSound | monitor/lib/wbl/concurrent_node_factory.cpp:89-99 | In every interleaving a push whose compare-and-swap succeeds puts its node on top of a well-formed stack. |
| NodeStack.PopIsSoundExactlyWhenNextIsCurrent | monitor/lib/wbl/concurrent_node_factory.cpp:74-87 | A pop whose compare-and-swap succeeds leaves a well-formed stack if and only if the link it read is still the top's link. |
| NodeStack.PopIsSound | monitor/lib/wbl/concurrent_node_factory.cpp:74-87 | Such a pop takes the true top and nothing else, and the count follows. |
| NodeStack.StepKeepsExactly | monitor/lib/wbl/concurrent_node_factory.cpp:74-99 | A step of any thread keeps the invariant of stack and threads if and only if it is not a pop that goes through with a stale link. |
| NodeStack.RunIsSoundExactly | monitor/lib/wbl/concurrent_node_factory.cpp:74-99 | Stack and threads are sound in all states of a run if and only if no step of it is such a pop. |
| NodeStack.NoReuseIsClean | monitor/lib/wbl/concurrent_node_factory.cpp:74-99 | There is no such pop unless a node is pushed again while a pop that read its link is pending. |
| NodeStack.CleanStepIsStackStep | monitor/lib/wbl/concurrent_node_factory.cpp:74-99 | In clean runs every step pushes one node, pops the top node, or leaves the abstract stack alone. |
| NodeStack.EmptyAndSize | monitor/lib/wbl/concurrent_node_factory.cpp:101-106 | In clean runs the top is NULL exactly when the stack is empty, and size() is the number of nodes modulo 2^32. |
| NodeStack.NodesAreInOnePlace | monitor/lib/wbl/concurrent_node_factory.cpp:74-99 | In clean runs a node is on the stack once, in hands, or on its way in through one thread. |
| NodeStack.PopAssertHolds | monitor/lib/wbl/concurrent_node_factory.cpp:81-83 | The assertion that pop makes on the link it read holds in clean runs in which no holder of a node makes it point to itself. |
| NodeReuse.ReuseBreaksPop | monitor/lib/wbl/concurrent_node_factory.cpp:52-87 | A reachable state of two threads in which a pending pop goes through after its node was popped and pushed again: a node in hands becomes the top and another one is lost. |
| NodeReuse.PopAlone | monitor/lib/wbl/concurrent_node_factory.cpp:74-87 | Undisturbed, a pop of a non-empty stack takes the top in one round. |
| PoolTheorems.NoLostWakeUp | monitor/lib/wbl/thread_pool.cpp:102-116 | While tasks are queued and the pool is not stopped, the semaphore is positive, a post is due, or some woken worker is about to look at the queue. |
| PoolTheorems.WaitMeansDone | monitor/lib/wbl/thread_pool.cpp:222-231 | When wait() returns, every user task queued before its last barrier task is finished. |
| PoolTheorems.WaitFinishesCallersTasks | monitor/lib/wbl/thread_pool.cpp:222-231 | When wait() returns, each task queued before it was called has finished if and only if the pool has workers. |
| PoolTheorems.WaitWithoutWorkers | monitor/lib/wbl/thread_pool.cpp:222-231 | On a pool without workers wait() queues nothing and returns at once, with every task as it was. |
| PoolTheorems.NothingRunsWithoutWorkers | monitor/lib/wbl/thread_pool.cpp:157-181 | There no task ever runs: each is still queued, or was deleted by stop(). |
| PoolTheorems.NoDeadlock | monitor/lib/wbl/thread_pool.cpp:92-138 | While a caller of wait() is blocked in an unfilled barrier, a worker or a poster can still move. |
| PoolTheorems.ExactlyOnce | monitor/lib/wbl/thread_pool.cpp:92-138 | Over every run a task is taken at most once, finished only after that and at most once, or deleted once and never run. |
| PoolTheorems.StartedInOrder | monitor/lib/wbl/thread_pool.cpp:102-116 | Tasks leave the queue in the order in which they were queued; none is forgotten. |
| PoolTheorems.PostsCoverSleepers | monitor/lib/wbl/thread_pool.cpp:183-203 | After stop() raises its flag, remaining posts and the semaphore cover every worker that can still go to sleep. |
| PoolTheorems.StopEndsSoon | monitor/lib/wbl/thread_pool.cpp:183-203 | From then on all workers together take at most four more events each. |
| PoolProgress.TwoEventsTakeATask | monitor/lib/wbl/thread_pool.cpp:102-116 | Two consecutive events of a worker at the top of its loop, the stop flag being down at the first, take the first queued task and run it, or find the queue empty and go to sleep; whatever others do in between. |
| PoolProgress.NoSpinning | monitor/lib/wbl/thread_pool.cpp:102-116 | In every run the events of all workers together are at most four for each task taken, three for each way out of the semaphore by a unit or a signal, and two for each worker. |
| PoolProgress.TaskStarts | monitor/lib/wbl/thread_pool.cpp:102-116 | The k-th task has left the queue once the workers have taken more events than that bound allows with k tasks, all units ever posted and all interrupts; before stop() it has been taken exactly once. |
| PoolProgress.NothingFromNowhere | monitor/lib/wbl/thread_pool.cpp:92-231 | Over every run each task was queued by an event or at the start, and each unit of the semaphore was posted or there at the start: the counts agree exactly. |
| PoolProgress.QuietMeansDone | monitor/lib/wbl/thread_pool.cpp:92-231 | When before stop() nothing can move but by a new call or a signal, wait() has returned, no post is due, and if there are workers every task ever queued is finished. |
| PoolProgress.StopClears | monitor/lib/wbl/thread_pool.cpp:183-186 | A task queued when stop() begins has been taken once or deleted once when stop() is through with the queue. |
| PoolTheorems.StopReachesAll | monitor/lib/wbl/thread_pool.cpp:183-203 | Once all posts are made, if no worker can move then all of them have stopped, so the joins return. |
| RingLayout.NeededIsMacro | monitor/agent/monitor_api/mmap_queue.c:85-86 | The slot count of a record, defined by repeated subtraction, is the rounded-up quotient of the macro. |
| RingLayout.KnownTokens | monitor/agent/monitor_api/mmap_queue.c:42-44 | The three tokens as the bytes that lie in memory, low byte first, and the byte order in which words are read. |
| RingLayout.BlocksFit | monitor/agent/monitor_api/mmap_queue.c:85-86 | A record fits its slots, and would not fit one slot fewer. |
| RingLayout.DecodeFrame | monitor/agent/monitor_api/mmap_queue.c:436-544 | What a reader makes of the queue depends on the slots between head and tail only. |
| RingLayout.DecodeJoins | monitor/agent/monitor_api/mmap_queue.c:436-544 | Two stretches of the ring that decode and do not overlap decode together to the records of both, in order. |
| RingReserve.UsedIsDistance | monitor/agent/monitor_api/mmap_queue.c:72-76 | The used-slot macro is the distance from head to tail round the ring. |
| RingReserve.ReserveIsRoom | monitor/agent/monitor_api/mmap_queue.c:348-379 | A reservation is contiguous, inside the array, free of used slots, and with the skipped slots makes up exactly the advance of the tail, which never reaches head. |
| RingReserve.ReserveRefuses | monitor/agent/monitor_api/mmap_queue.c:356-379 | A put is refused exactly if the reserve would be touched, or if it would go round and head is not above its slots. |
| RingReserve.ReserveKeepsSpare | monitor/agent/monitor_api/mmap_queue.c:356-379 | After a put that does not go round at least 100 slots are free; after one that does, at least 100 less its own. |
| RingReserve.SpareCanBeEatenUp | monitor/agent/monitor_api/mmap_queue.c:366-379 | A put leaves no slot free exactly when it goes round and ends directly below head, which takes at least 100 slots. |
| RingReserve.UsageRange | monitor/agent/monitor_api/mmap_queue.c:417-422 | Usage is the distance from head to tail in percent of all usable slots, rounded down; it is at most 100, and at most 99 exactly while a slot is free. |
| RingReserve.EmptyRingTakes | monitor/agent/monitor_api/mmap_queue.c:356-379 | A record can be put into the empty ring from every position if and only if it leaves the reserve and takes less than half of the array. |
| RingImage.PutAppends | monitor/agent/monitor_api/mmap_queue.c:381-412 | Whatever bytes the payload holds, after the stores of a put a reader decodes the old records followed by the new one. |
| RingImage.GetKeepsRest | monitor/agent/monitor_api/mmap_queue.c:533-539 | Resetting the tokens of what was read leaves the rest readable, and everything outside head and tail clean. |
| RingImage.StaleToken | monitor/agent/monitor_api/mmap_queue.c:518-522 | A record passed over without that reset leaves a data token outside head and tail. |
| Ring.MmapQueue.constructor | monitor/agent/monitor_api/mmap_queue.c:175-202 | A new ring is empty and clean, with slots of 16 bytes and the element size rounded up to 8, and one slot more than asked for. |
| Ring.MmapQueue.Put | monitor/agent/monitor_api/mmap_queue.c:333-415 | Appends the record and leaves exactly the memory and the tail of the specification, or returns -1 for a bad length, or -2 exactly if there is no room, with nothing changed. |
| Ring.MmapQueue.Get | monitor/agent/monitor_api/mmap_queue.c:436-544 | Returns the first record's length and bytes and removes it; 0 exactly if the queue is empty; -2 for a small buffer, the record being lost; -1 for a bad argument. Head moves over the skip marks and the slots of that record, never past the tail, and exactly the tokens in between are reset, except for -2. |
| Ring.MmapQueue.Scan | monitor/agent/monitor_api/mmap_queue.c:453-501 | The scan stops at the first data token or at the tail, having passed skip marks only, and terminates by the distance to the tail. |
| Ring.MmapQueue.MarkSkips | monitor/agent/monitor_api/mmap_queue.c:383-397 | Every slot from the old tail to the array's end gets the skip token, and the loop ends there. |
| Ring.MmapQueue.GetUsage | monitor/agent/monitor_api/mmap_queue.c:417-422 | Usage is the percentage of usable slots between head and tail, rounded down: 0 to 100, and at most 99 exactly if they are less than all slots apart. |
| Ring.MmapQueue.UsedBlocks | monitor/agent/monitor_api/mmap_queue.c:424-429 | The number of used blocks is the distance from head to tail, and 0 exactly if they are equal. |
| RingRuns.UsageStaysInRange | monitor/agent/monitor_api/mmap_queue.h:144-146 | In a run of calls usage stays in the documented 0 to 99 if and only if no accepted put goes round to end directly below head. |
| RingRuns.SmallRecordsStayInRange | monitor/agent/monitor_api/mmap_queue.h:144-146 | If all records need fewer than 100 slots, usage stays in 0 to 99 over the whole run. |
| RingRuns.Replay | monitor/agent/monitor_api/mmap_queue.c:333-544 | Any list of calls on the object is such a run, with the usage read after each call; the queue ends up as what it held and what was added, less its oldest records. |
| RingRuns.FillCompletely | monitor/agent/monitor_api/mmap_queue.c:417-422 | Four calls on a new ring of 409 elements of 8 bytes, after which mq_get_usage returns 100. |
| RingTheorems.CleanRunKeeps | monitor/agent/monitor_api/mmap_queue.c:333-544 | The invariant of overlapping calls holds in every state of a clean run. |
| RingTheorems.StepRefines | monitor/agent/monitor_api/mmap_queue.c:381-509 | The successful compare-and-swap on tail_pos appends the record that the thread asked to be put, that on head_pos removes the first one, whose token has been written, and records the claim, and no other step of any thread changes the queue. |
| RingTheorems.PutIsRequest | monitor/agent/monitor_api/mmap_queue.c:333-347 | The record that a put carries up to its compare-and-swap is the one asked for last. |
| RingTheorems.WritersAreApart | monitor/agent/monitor_api/mmap_queue.c:381-412 | Writers between reservation and token have no slot in common, and only used ones. |
| RingTheorems.ReadersAndWritersAreApart | monitor/agent/monitor_api/mmap_queue.c:381-530 | No slot of a writer is one that a reader still copies from. |
| RingTheorems.ClaimedOnce | monitor/agent/monitor_api/mmap_queue.c:509-531 | A claimed record is in the hands of the one reader that claimed it. |
| RingTheorems.DeliveredAsPut | monitor/agent/monitor_api/mmap_queue.c:509-525 | What a reader has copied is the record as it was put. |
| RingTheorems.HistoryGrows | monitor/agent/monitor_api/mmap_queue.c:333-544 | Reservations and claims are never taken back or reordered. |
| RingTheorems.EqualMeansEmpty | monitor/agent/monitor_api/mmap_queue.c:455-466 | The positions of head and tail are equal exactly when nothing is queued. |
| RingTheorems.NoneMeansEmpty | monitor/agent/monitor_api/mmap_queue.c:455-466 | A get that reports the end of the queue with head unmoved found it empty. |
| RingNoData.NoDataHasReason | monitor/agent/monitor_api/mmap_queue.c:451-509 | A get that ends without a claim ends at one of three places, with its reason: at an empty token, head being in the slot where it was read, the first record being unwritten at a moment of the call unless head went round; at the end, the queue being empty unless head moved; or because head was moved by another. It never ends before it has looked, nor by losing the race for a record. |
| RingNoData.NoDataMeans | monitor/agent/monitor_api/mmap_queue.c:451-509 | A get that ends without a claim found, at some moment of the call, the queue empty or the token of the first record unwritten, or head moved during the call. |
| RingRefusal.PutEnds | monitor/agent/monitor_api/mmap_queue.c:333-415 | A put ends only with the token of its own reservation written, which holds the record asked for, or refused because with positions read during the call there are too few free slots, or none below head for a record that goes round. A lost race never ends it. |
| RingAlone.GetAlone | monitor/agent/monitor_api/mmap_queue.c:436-544 | In every state of a clean run whose first record is written, a get that runs alone claims that record, copies exactly it, resets the tokens of its slots and the skipped ones and no others, and is back after 8 + 4 * skipped + 2 * slots steps. |
| RingAlone.GetAloneOnEmpty | monitor/agent/monitor_api/mmap_queue.c:455-466 | Alone on the empty queue it is back after two steps and changes nothing. |
| RingAlone.PutAlone | monitor/agent/monitor_api/mmap_queue.c:333-415 | In every state of a clean run, a put that runs alone is refused exactly when there is no reservation for the record, and changes nothing then; otherwise it appends exactly that record, readable, with the skipped slots marked and no other slot touched, in an explicit number of steps. |
| RingUsage.ReservationKeepsSpare | monitor/agent/monitor_api/mmap_queue.c:356-382 | However puts and gets overlap in a clean run, a successful compare-and-swap on tail_pos leaves at least 100 slots free if it does not go round, at least 100 less its own if it does, and none exactly if it ends directly below head. |
| RingUsage.UsageStaysInRange | monitor/agent/monitor_api/mmap_queue.h:144-146 | In a clean run usage is 0 to 99 at every moment if and only if no reservation goes round to end directly below head. |
| RingUsage.SmallRecordsStayInRange | monitor/agent/monitor_api/mmap_queue.h:144-146 | If all records need fewer than 100 slots, usage is 0 to 99 at every moment of a clean run. |
| Calendar.AcceptedExactlyWhenReal | msec_console/web/js/jquery-ui.js:5022-5025 | The check after `new Date(year, month - 1, day)` accepts exactly the dates that exist, of years not taken for 19xx. |
| Calendar.HostDate | msec_console/web/js/jquery-ui.js:5022 | What `new Date` makes of a real date: the same day and month, in the host's year; except for 29 February of year 0. |
| Calendar.DaysInMonthIsLength | msec_console/web/js/jquery-ui.js:5677-5679 | `_getDaysInMonth` is the length of the month, leap years and month overflow included, in the year that the host makes of the given one. |
| Calendar.KnownLengths | msec_console/web/js/jquery-ui.js:5677-5679 | The lengths of the twelve months as a table, one more for February in leap years; 2000 and 2016 are leap years, 1900 and 2015 are not. |
| Calendar.WeekdaysFollow | msec_console/web/js/jquery-ui.js:4844 | The day after a date has the next weekday, round the week. |
| Calendar.KnownWeekdays | msec_console/web/js/jquery-ui.js:4841-4844 | 1 January 1970 is a Thursday, 10 January 2016 a Sunday. With WeekdaysFollow this fixes the weekday of every date. |
| Calendar.KnownWeeks | msec_console/web/js/jquery-ui.js:4839-4850 | The week numbers of eight dates around the ends of 2015, 2018 and 2020; 10 January 2016, a Sunday, is still in week 1. |
| Calendar.ShiftCounts | msec_console/web/js/jquery-ui.js:4844-4846 | Shifting a date by any number of days shifts its day number by as many. |
| Calendar.WeekIsConstant | msec_console/web/js/jquery-ui.js:4839-4850 | The days from Monday to Sunday have the same week number (section 2.2.10 of ISO 8601:2004). |
| Calendar.WeekOneHoldsFirstThursday | msec_console/web/js/jquery-ui.js:4839-4850 | The number is 1 exactly for the week that holds the first Thursday of a year. |
| Calendar.WeekInRange | msec_console/web/js/jquery-ui.js:4839-4850 | The number is always 1 to 53. |
| Calendar.WeeksFollow | msec_console/web/js/jquery-ui.js:4839-4850 | A week later the number is one more, or 1 when the Thursdays lie in different years. |
| DateText.NameIsFound | msec_console/web/js/jquery-ui.js:4913-4934 | In a table in which no name begins with another, letter case aside, a printed name is found again, whatever follows it. |
| DateLetters.NumberLetters | msec_console/web/js/jquery-ui.js:5118-5132 | What "d", "dd", "m", "mm", "o" and "oo" print: the day, the month and the day of the year, doubled letters padded to two and three places. |
| DateLetters.YearLetters | msec_console/web/js/jquery-ui.js:5135-5138 | "yy" prints the year, "y" its last two digits for the years that show as two. |
| DateLetters.NameLetters | msec_console/web/js/jquery-ui.js:5121-5135 | "D" and "DD" print the short and the long name at the date's weekday, counted from Sunday, "M" and "MM" those of its month. |
| DateLetters.OtherCharacters | msec_console/web/js/jquery-ui.js:5152-5154 | Any other character but the quote, '@' and '!' prints itself. |
| DateLetters.FormatsJoin | msec_console/web/js/jquery-ui.js:5107-5157 | A format made of two prints what the two print, unless the seam splits a doubled letter or lies within quotes; so the letters fix every format. |
| DateLetters.ReadsLeniently | msec_console/web/js/jquery-ui.js:4899-4912 | "mm/dd/yy" reads months and days of one or two digits and any four-digit year, whatever they are, to exactly these fields. |
| DateLetters.NumberRefused | msec_console/web/js/jquery-ui.js:4899-4912 | No digit where a number is due, or fewer than four for a full year, is the missing-number error at that position. |
| DateLetters.TextRefused | msec_console/web/js/jquery-ui.js:4913-4941 | Another character than the format has is the literal error, none of the names the name error, at that position. |
| Datepicker.FormatDate | msec_console/web/js/jquery-ui.js:5074-5159 | The loop over the format prints what its tokens mean, quotes, doubled quotes and doubled letters included. |
| Datepicker.ParseDate | msec_console/web/js/jquery-ui.js:4865-5027 | The loop reads along the same tokens, to the same date, null or thrown error as the specification. |
| DateRoundTrip.RoundTrip | msec_console/web/js/jquery-ui.js:4865-5159 | For a format that can be read back, parsing the printed date gives the date if and only if the format fixes year and day. |
| DateRoundTrip.RoundTripSeparated | msec_console/web/js/jquery-ui.js:4865-5159 | The same with conditions on format, name tables and year alone: unpadded numbers are followed by a non-digit or the end, tables are prefix-free, years have four digits or show as two. |
| DateRoundTrip.IsoRoundTrip | msec_console/web/js/jquery-ui.js:5030-5041 | "yy-mm-dd" gives back every date of the years 1000 to 9999. |
| DateRoundTrip.OrdinalRoundTrip | msec_console/web/js/jquery-ui.js:5009-5020 | The day-of-year loop inverts what "o" prints for every valid date of every year, but for 29 February of year 0. |
| DateRoundTrip.TrailingText | msec_console/web/js/jquery-ui.js:4995-5000 | Text behind a printed date is refused with the extra-characters error, unless it begins with white space: then all of it is ignored. |
| DateRoundTrip.RelativeCutoff | msec_console/web/js/jquery-ui.js:4877-5007 | A cutoff of n counted from the current year makes two digits the one year with these digits among the hundred that end n years from now. |
| DateRoundTrip.KnownCutoffs | msec_console/web/js/jquery-ui.js:4877-5007 | In 2016, by the default, 26 is 2026 and 27 is 1927; a cutoff of 0 counts as not given, other numbers are taken as they are; no year is the current one and a full year itself. |
| DateRoundTrip.WindowIsExact | msec_console/web/js/jquery-ui.js:5002-5007 | Two digits of a year give the year back if and only if it lies within the hundred years of shortYearCutoff. |
| DateRoundTrip.ShortYearReads | msec_console/web/js/jquery-ui.js:5135-5138 | What "y" prints is two digits if and only if the year is 1900 or later, or a multiple of 100. |
| DateRoundTrip.FinishIsExact | msec_console/web/js/jquery-ui.js:5002-5026 | The fields read make a date exactly when they name it and its year is not one of 0 to 99; nothing else is accepted for it. |
| DateRoundTrip.EarlyYearsAreNeverParsed | msec_console/web/js/jquery-ui.js:5002-5026 | No text gives a date of the years 0 to 99, whatever the format. |
| DateRoundTrip.QuotedText | msec_console/web/js/jquery-ui.js:5145-5151 | What a text between quotes, its own quotes doubled, stands for, wherever it is in the format. |
| DateRoundTrip.QuotingIsExact | msec_console/web/js/jquery-ui.js:5145-5151 | It stands for itself if and only if it is not made of quotes alone. |
| DateRoundTrip.UnpaddedIsAmbiguous | msec_console/web/js/jquery-ui.js:5093-5101 | Why unpadded numbers have to be set apart: two dates that "dmyy" prints alike. |
| Utf8.Str2RstrUtf8 | msec_console/web/js/md5-min.js:9 | The loop over the code units, surrogate pairs joined, is the encoder of the specification. |
| Utf8.BitsOfPoint | msec_console/web/js/md5-min.js:9 | The masked, shifted and or-ed bits that the encoder writes for a code point are the bytes of the specification. |
| Utf8.BitsOfPair | msec_console/web/js/md5-min.js:9 | The bits that join a pair of surrogates are its code point. |
| Utf8.DecodeEncode | msec_console/web/js/md5-min.js:9 | A decoder gets every string of UTF-16 code units back from its bytes, lone surrogates included. |
| Utf8.EncodeIsInjective | msec_console/web/js/md5-min.js:9 | Different strings have different bytes. |
| Utf8.EncodesCharacters | msec_console/web/js/md5-min.js:9 | For a well-formed string the bytes are those of the table of section 3 of RFC 3629, character by character. |
| Utf8.RowIsBytes | msec_console/web/js/md5-min.js:9 | That table leaves no choice of bytes. |
| Md5Words.SafeAdd | msec_console/web/js/md5-min.js:9 | Addition by 16-bit halves, the upper ones signed, is addition modulo 2^32. |
| Md5Words.BitRol | msec_console/web/js/md5-min.js:9 | The joined shifts are a rotation, defined one position at a time. |
| Md5Bits.BitsOfWords | msec_console/web/js/md5-min.js:9 | Every bit of and, or, exclusive or and complement is the Boolean operation on the bits of the words. |
| Md5Bits.BitsOfFun | msec_console/web/js/md5-min.js:9 | Bit by bit, F of section 3.4 of RFC 1321 chooses by x, G chooses by z, H is the parity, and I differs from y exactly where x or not z. |
| Md5Bits.BitsOfRotate | msec_console/web/js/md5-min.js:9 | Rotation by s moves each bit s places up, round the 32. |
| Md5Bytes.FunOnWords | msec_console/web/js/md5-min.js:9 | The four functions on numbers are those on 32-bit vectors with the machine's own operators. |
| Md5Rounds.Unrolled | msec_console/web/js/md5-min.js:9 | The 64 unrolled steps are the four rounds of section 3.4 of RFC 1321, for whatever a step does. |
| Md5Block.ProgramAgrees | msec_console/web/js/md5-min.js:9 | The program's step, with its functions and its addition, is the operation of that section. |
| Md5Codec.WordsLawful | msec_console/web/js/md5-min.js:9 | On 32-bit words, shifts, or, and exclusive or behave on bytes as the packing loops need. |
| Md5Pack.Rstr2Binl | msec_console/web/js/md5-min.js:9 | The array of words packs the bytes of the string, low byte first. |
| Md5Pack.BytesPack | msec_console/web/js/md5-min.js:9 | Packing the bytes of words gives the words back. |
| Md5Hash.PaddedLength | msec_console/web/js/md5-min.js:9 | The padded message is the shortest one of whole blocks with room for the one bit and the length. |
| Md5Hash.Pad | msec_console/web/js/md5-min.js:9 | The array after its two stores holds the message padded as in sections 3.1 and 3.2 of RFC 1321, a missing last word reading as 0. |
| Md5Hash.BinlMd5 | msec_console/web/js/md5-min.js:9 | The loop over the blocks gives the digest of the padded message. |
| Md5Hash.FoldChains | msec_console/web/js/md5-min.js:9 | Hashing whole blocks and then the rest is hashing the rest from the registers that the blocks leave. |
| Md5Hash.RstrHmacMd5 | msec_console/web/js/md5-min.js:9 | The masking, joining and double hashing of words is HMAC on bytes, for short, block-length and over-long keys. |
| Md5Example.Abc | msec_console/web/js/md5-min.js:9 | The reference hash of the three bytes of "abc" is the sixteen bytes 90 01 50 98 3c d2 4f b0 d6 96 3f 7d 28 e1 7f 72 (section A.5 of RFC 1321), which the program's own check expects. |
| Md5Masks.HmacByBits | msec_console/web/js/md5-min.js:9 | HMAC in terms of bits: the inner hash takes the key block with the bits 1, 2, 4 and 5 of each byte turned over, the outer one with the bits 2, 3, 4 and 6; a key longer than a block is hashed first. |
| Md5.RawMd5 | msec_console/web/js/md5-min.js:9 | rstr_md5 is MD5 as defined by RFC 1321. |
| Md5.RawHmacMd5 | msec_console/web/js/md5-min.js:9 | rstr_hmac_md5 is HMAC as defined by RFC 2104, with that hash. |

## Left out

- Weak memory, fences and the per-compiler branches of atomicity.h: steps are sequentially consistent.
- Wrap-around of versions, null tags and, in the ring, of `int` arithmetic: numbers are unbounded there.
- Several queues of one element size share one free stack. The queue machine has one queue, and takes the free
  stack and the allocator as one atomic source of free nodes; the stack's own steps are in `NodeStack`.
- `push` is `push_all` of one item: the two differ in how the tail's new version is written, not in its value.
- `node_stack::peek`, the copying of a queue, and the destructor of `concurrent_queue`, which runs alone.
- `wait(int timeout)`, forced cancellation, thread-local data, restarting a pool after `stop()`, and tasks that are
  submitted through executor.h.
- RingTheorems.StepRefines: holds in clean runs; without them framing can be lost, by design of the ten-conflict
  limit.
- RingUsage.UsageStaysInRange: is about head and tail at one moment; `mq_get_usage` reads the one after the other.
- NodeStack.PopAssertHolds: requires that no link holds its node's own address at first, and that no holder of a
  node writes it there; the queue does not (`QueueTheorems.NoNodeLinksToItself`).
- RingTheorems.DeliveredAsPut: counts a record in chunks, one for each slot; bytes are in `Ring.MmapQueue`.
- Ring.MmapQueue.Get: does not meet reserved but unwritten slots, because calls do not overlap there; waiting and
  giving up are in `RingMachine`.
- mmap, file locks, `mq_open`, error texts and the clock of the ring. `mq_create` with a bad argument, where it
  returns NULL, and null pointers passed to `mq_put` and `mq_get`.
- The fields '@' and '!' of date formats, time zones and daylight saving; conversion of arguments to strings;
  formats or values that are null.
- Datepicker.FormatDate: requires a format without '@' and '!', which print the clock behind the date.
- Datepicker.ParseDate: requires a format without '@' and '!'; what these read depends on the host's clock.
- DateText.NameIsFound: does not cover lower-casing that changes the length of a name.
- Md5.RawMd5: requires 8 times the length below 2^31; longer inputs go beyond the program's 32-bit shifts.
- Md5.RawHmacMd5: requires the same of the key and of the inner message.
- Output as hexadecimal digits.
