# RT-Thread kernel and recorder calendar: a verified model

This project models the concurrent and memory-managing core of the RT-Thread kernel in this
repository, and the calendar arithmetic of the vehicle recorder built on it, and proves what they
promise. `dafny verify dfyconfig.toml` checks everything.

Each area has the same three layers: a specification on values (`...Spec`, or the first module of a
file), lemmas about it over single steps and over whole runs, and a class whose methods update
fields and arrays in the order of the C code and are proved to produce exactly what the
specification says.

| files | area |
|---|---|
| Base, Chains | what several areas share: options, lists without duplicates, singly linked lists in arrays |
| IntrusiveList, ThreadRings | the circular doubly linked list against sequences, and wait lists made of it |
| Bitmap, ReadyTable | ready lists and bitmaps of the scheduler, for 32 and for 256 priorities |
| Threads, ThreadLemmas, ThreadEffects, Arrivals, Kernel | thread operations, wait lists, the placement invariant, round robin, first come first served, and the scheduler lock |
| Waiters, WaiterEffects | threads inside blocking calls: waiting, resumed but not yet run, timed out, reset |
| MailboxSpec, Mailbox, MailboxEffects; MessageQueueSpec, NodePool, MessageQueue, MessageQueueEffects; EventSpec, Event, EventEffects; Semaphore; Mutex, MutexEffects | the blocking IPC objects as protocols |
| TimerSpec, Timer, TimerChecks, TimerRuns, Clock | the timer list under tick wrap-around, when its check returns, the tick interrupt |
| Timeouts, TimeoutRuns | threads and the timer list together: when blocking calls time out and sleepers wake up |
| HeapSpec, HeapLemmas, HeapOps, HeapRuns, HeapEffects, HeapHeaders, SmallHeap | the small-memory heap with in-band headers |
| Pages, PageList, SlabSpec, Slab, SlabEffects, ZoneLinks, ZoneHeaders, SlabAllocator | the slab heap: page runs, zones, and their links in memory |
| Calendar | date stepping and differencing, and the quick comparison |

A blocking IPC call is cut where `rt_schedule` may let other threads run. Each piece is one section
with interrupts disabled and one step of a state machine; threads, interrupt handlers, timeouts,
resets, sleeps, yields, priority changes and resumes by anybody interleave freely between the pieces.
`blocked` (in the classes: `calls`) says which list a call is about and stays set until the thread
has run again, so a thread that has been resumed and has not run yet is visible to the invariants.
Counters and sets that only record what happened (`sent`, `got`, `deque`, `taken`, `owed`, `stray`,
`supply`, `returned`, `takes`, `bases`, `plan`, `log`) are ghost fields in the classes.

The main results:

* Mailbox and message queue lose no wake-up, whatever the interleaving: as long as a receiver
  sleeps, as many resumed receivers as there are messages are still on their way
  (`NobodyLeftAsleep`). Mails leave in the order they came; message nodes are never lost or shared
  although they are in flight between critical sections, and every receiver gets the message it
  unlinked. A call that blocked does in the end exactly what it was called for, or reports an error
  and leaves all mails and messages alone (`ContinueOutcome`, `CallStays`).
* What a sender hands over is what is queued: over every run the message and the urgency that are
  linked are those of the call, an urgent one in front of all others (`QueuedAsSent`).
* An event never leaves a thread asleep whose bits are there, although earlier waiters clear bits
  during the scan; a bit that was sent stays until a reset or a granted receive takes it away, so a
  thread whose bits come in several sends is resumed (`SeveralSends`); and having waited does not change the answer, unless somebody else than a send
  resumed the thread (`ResumedReceive`).
* The mutex has one owner, passes ownership on by itself, and no waiting thread outranks the owner.
  A step keeps this if and only if it does not wrap the 8-bit hold count and does not resume a waiting
  thread from outside (`NextExactly`).
* Semaphore tokens are conserved, step by step if and only if the step does not wrap the 16-bit value
  and does not resume a waiting thread from outside (`PlainStep`, `TokensConserved`).
* Timers fire exactly on time and in order, for every start tick, across the 32-bit wrap; and a
  blocking call with a timeout of k ticks that nobody serves reports -RT_ETIMEOUT exactly k ticks after
  it went to sleep, while the timer of one that is served never fires (`Timeouts.TimeoutsOnTime`). A
  call that has to sleep several times keeps the deadline of its first sleep (`OneDeadline`), a call
  without a timeout never times out (`ForeverNeverTimesOut`), and a thread that sleeps for k ticks is
  READY exactly k ticks later (`SleepOnTime`). A timer that is started for k ticks fires then, and a
  periodic one every k ticks from then on, and at no other tick (`FiresAsAsked`).
* Waiters are served first come, first served, within their priority if the list is a PRIO list
  (`FirstComeFirstServed`), and the READY threads of the best priority run in turns (`RoundRobin`).
* The scheduler's bitmaps agree with the ready lists under every thread operation, for 32 and for 256
  priorities, as long as the masks kept in each thread agree with its priority, which `Startup` and
  `ChangePriority` see to.
* The small-memory heap refines a set of disjoint live extents, keeps its hint and its statistics,
  and never touches the payload of other blocks. The slab heap never hands out a chunk twice, its live
  blocks never overlap, and nothing a caller writes to its block reaches a header or a link of the
  heap; freeing all pages restores the initial free list. A block that is taken and given back leaves
  the small heap as it was, and one that is given back and asked for again the slab heap
  (`MallocThenFree`, `FreeThenMalloc`).
* For every call of every object, what it answers and what it leaves behind, on all paths: the `Does`
  and `Outcome` lemmas.
* Stepping and differencing dates is arithmetic on a count of minutes, and the recorder's quick
  comparison agrees with it from year 2 on.

Where the code and its comments or obvious intent differ, the model follows the code and says
exactly when it holds, with an input for the other side:

* `rt_malloc` (software/src/mem.c:240) rounds the size up in 32 bits; the last three sizes wrap to 0
  and get a minimum block (`HeapRuns.RequestHonoured`, `HugeRequestGranted`). Its loop bound passes over
  an exact fit at the end of the heap (`HeapOps.BoundIsException`, `HeapRuns.ExactFitRefused`), and makes
  it loop for ever in heaps of fewer than three words of payload, which `rt_system_heap_init` accepts
  (`HeapRuns.TinyHeapSpins`). The shrink path of `rt_realloc` can leave the hint above a free block
  (`HeapRuns.ShrinkLowestExactly`, `HintTooHigh`).
* The hold count of a mutex wraps at 256 nested takes (`MutexLemmas.AgainExactly`, `HoldWraps`), the
  value of a semaphore at 65536 tokens (`SemaphoreLemmas.ReleaseWraps`, `WrapHappens`).
* `rt_thread_resume` may be called on a thread that waits for an IPC object. Mailboxes and message
  queues test again and are safe; a semaphore or mutex take then reports success without a token or
  the ownership, and an event receive without its bits (`SemaphoreLemmas.StrayTakes`,
  `MutexLemmas.StrayBreaks`, `EventLemmas.StrayReceives`).
* The comment of `rt_enter_critical` promises 65535 nested critical sections; the count is signed and
  32768 is the most that unlock at the right one (`Kernel.LockedUntilLast`).
* The message size of a queue is rounded up and then cut to 16 bits: above 65532 bytes it comes out
  shorter than asked for (`MessageQueueSpec.SizeHonoured`).
* `rt_realloc(RT_NULL, n)` is `rt_malloc(n)` unless rounding n wraps (`HeapEffects.ReallocNull`).
* The timeout that a blocking call recomputes is right unless it runs again more than half the tick
  range late (`ThreadLemmas.TimeLeftIs`, `LateTimeLeft`, `Timeouts.AgainExactly`).
* Two ticks exactly 0x7FFFFFFF apart compare the wrong way round (`TimerLemmas.WrappedExactly`).
* A timeout function that restarts its own timer puts the list out of order (`TimerLemmas.FireExactly`),
  and functions that start each other's timers with 0 ticks can keep `rt_timer_check` from returning
  (`TimerChecks.ReturnsExactly`, `EndlessCheck`). A timer started with 0 ticks outside of the check fires one tick later
  than asked (`EveryTimerOnTime`, `ZeroTicksLate`).
* The comments of slab.c promise that all power-of-two sizes are aligned to their size; sizes 8192 and
  16384 are so only if the first page of their zone is (`SlabLemmas.ChunkAligned`, `ChunkUnaligned`).
  They promise that `malloc(0)` is not null; the code returns null. `zoneindex` does not expect the
  largest chunk size it returns (`SlabLemmas.RoundingAgain`).
* `IfOneAfterAotherDay` goes from the first of January of year 1 back to year 99
  (`Calendar.OneAfterExactly`, `JudgeExactly`, `SlipHappens`).

## Model

| member | source | states |
|---|---|---|
| `HeapOps.BoundIsException` | software/src/mem.c:258-263 | A free block that is large enough is passed over by the loop bound exactly when it is the last block and the request fits it without a remainder |
| `HeapOps.FirstFitIsFirst` | software/src/mem.c:258-270 | The search returns the first block from its starting index that can serve the request, and none only if there is no such block |
| `HeapOps.PlugKeeps` | software/src/mem.c:123-157 | plug_holes merges a freed block with both neighbours: tiling, no two adjacent free blocks, live extents, used_mem and a lowest hint are kept |
| `HeapOps.AllocKeeps` | software/src/mem.c:258-344 | Taking a block with or without a split keeps the heap invariant, adds exactly one live extent and adds its span to used_mem |
| `HeapOps.FreeKeeps` | software/src/mem.c:467-518 | Releasing a used block keeps the invariant, removes exactly its extent and keeps a lowest hint lowest |
| `HeapOps.ShrinkKeeps` | software/src/mem.c:391-420 | The in-place shrink keeps the invariant and replaces exactly the one extent by a shorter one at the same address |
| `HeapLemmas.SpansCover` | software/src/mem.c:296-314 | Spans of used and of free blocks together are the whole heap |
| `HeapRuns.LiveDisjoint` | software/src/mem.c:228-344 | Live blocks lie inside the heap and any two of them are at least a header apart |
| `HeapRuns.SearchSkips` | software/src/mem.c:258-263 | With a lowest hint, searching from lfree finds the same block as searching from the first one |
| `HeapRuns.MallocIsFirstFit` | software/src/mem.c:228-344 | With a lowest hint rt_malloc takes the first block of the heap that can serve the request; null only for size 0, an oversized request or when no block can serve it |
| `HeapRuns.MallocRefines` | software/src/mem.c:228-344 | Against the set of live extents: adds exactly one new extent that is long enough, or changes nothing and returns null |
| `HeapRuns.RequestHonoured` | software/src/mem.c:240-256 | The block is at least as long as requested if and only if rounding the size up does not leave 32 bits |
| `HeapRuns.ShrinkLowestExactly` | software/src/mem.c:391-420 | The shrink path keeps lfree lowest if and only if lfree was below the block or right behind it |
| `HeapRuns.FreeRefines` | software/src/mem.c:467-518 | rt_free removes exactly the extent of its argument |
| `HeapRuns.ReallocRefines` | software/src/mem.c:354-432 | On success exactly the old extent is replaced, in place or by a new one that is long enough; on null nothing changes |
| `HeapRuns.MoveRefines` | software/src/mem.c:422-431 | The copy path frees the old block only after the new one is there |
| `HeapEffects.BlocksUnique` | software/src/mem.c:123-157 | The set of live extents fixes the block list, used_mem and a lowest hint: two heaps in order with the same live extents are the same |
| `HeapEffects.MallocOutcome` | software/src/mem.c:228-344 | rt_malloc from any hint: null and nothing changed exactly for size 0, an oversized request or no block from the hint on that can serve; otherwise the first one that can, cut to exactly the request if the rest holds a header and a smallest block and handed out whole if not; where the hint goes |
| `HeapEffects.FreeOutcome` | software/src/mem.c:467-518 | rt_free takes out exactly this extent; the hint becomes the free block that now holds it unless it was lower |
| `HeapEffects.MallocThenFree` | software/src/mem.c:228-518 | A block that is taken and given back leaves block list, used_mem and a lowest hint as they were |
| `HeapEffects.ReallocNull` | software/src/mem.c:364-374 | rt_realloc(RT_NULL, n) answers and does what rt_malloc(n) does if and only if rounding n stays within 32 bits or rt_malloc answers null; the last three sizes get null |
| `HeapEffects.ReallocOutside` | software/src/mem.c:364-385 | A pointer that is not in the heap is handed back, or null for an oversized request, and nothing changes |
| `HeapEffects.ReallocOutcome` | software/src/mem.c:354-432 | All answers for a live pointer: null if oversized; unchanged if the size is the same; trimmed in place to exactly the rounded size if a block fits behind; otherwise what rt_malloc answers for the rounded size, the old block being freed on success only |
| `HeapRuns.InitInv` | software/src/mem.c:168-213 | The heap after rt_system_heap_init has no live block and the lowest hint, and satisfies the invariant if and only if it has room for a smallest block |
| `HeapRuns.RunKeeps` | software/src/mem.c:123-518 | Every run of rt_malloc, rt_free and rt_realloc keeps the heap tiled, coalesced and accounted for; without rt_realloc the hint stays lowest |
| `HeapRuns.RunConserves` | software/src/mem.c:296-314 | After every run from a fresh heap used_mem plus the free spans is the whole heap, and max_mem is the highest used_mem of the run |
| `HeapRuns.CallPeak` | software/src/mem.c:296-314 | max_mem after a call is the larger of max_mem before and the highest used_mem during it |
| `HeapRuns.MaxIsPeak` | software/src/mem.c:296-314 | max_mem is the running maximum of used_mem over every run |
| `HeapRuns.ExactFitRefused` | software/src/mem.c:258-263 | The exception of the loop bound is met: a request of the whole payload of a fresh heap gets null although its one block fits exactly |
| `HeapRuns.HugeRequestGranted` | software/src/mem.c:240-256 | The wrap of the rounding is met: a request of 0xFFFFFFFD bytes is granted with 12 bytes |
| `HeapRuns.HintTooHigh` | software/src/mem.c:391-420 | The exception of the shrink path is met: one block over the whole heap, made shorter, leaves the hint at heap_end above a free block |
| `HeapRuns.TinyHeapSpins` | software/src/mem.c:258-263 | The first request that passes the size test makes the loop of rt_malloc run for ever if and only if the heap has fewer than three words of payload |
| `HeapHeaders.CutHeaders` | software/src/mem.c:272-294 | Writing a header into a block splits it: next and prev of all headers but the end marker's prev agree with the longer block list |
| `HeapHeaders.DropHeaders` | software/src/mem.c:123-157 | Unlinking a header merges two blocks: next and prev agree with the shorter block list |
| `SmallHeap.SmallHeap.constructor` | software/src/mem.c:168-213 | The in-band headers written at initialisation represent one free block; the heap is valid if and only if it has room for a smallest block |
| `SmallHeap.HeapInit` | software/src/mem.c:168-213 | Memory without room for the two headers is refused, any other becomes one free block |
| `SmallHeap.SmallHeap.PlugHoles` | software/src/mem.c:123-157 | The header writes of plug_holes produce the merged block list and spare all live payload |
| `SmallHeap.SmallHeap.Malloc` | software/src/mem.c:228-344 | The header writes of rt_malloc produce the specified heap, the payload of every live block is unchanged |
| `SmallHeap.SmallHeap.Free` | software/src/mem.c:467-518 | The header writes of rt_free produce the specified heap, the payload of every other live block is unchanged |
| `SmallHeap.SmallHeap.Realloc` | software/src/mem.c:354-432 | rt_realloc produces the specified heap, carries the first min(old, new) words of the block along, and leaves everything alone on null |
| `SmallHeap.SmallHeap.TrimBlock` | software/src/mem.c:391-420 | The header writes of the shrink path produce the shorter block and the free rest, the kept payload is unchanged |
| `SmallHeap.SmallHeap.MoveBlock` | software/src/mem.c:422-431 | The copy path: the payload is copied before the old block is released |
| `Bitmap.TableIsLowest` | software/src/scheduler.c:53-71 | Entry b of rt_lowest_bitmap is the number of the lowest bit set in b |
| `Bitmap.CascadeIsLowest` | software/src/scheduler.c:229-250 | The byte cascade over the 32-bit group finds its lowest set bit |
| `ReadyTable.CascadeIsFirst` | software/src/scheduler.c:227-250 | If the group agrees with the lists, the cascade returns the smallest ready priority |
| `ReadyTable.WideIsFirst` | software/src/scheduler.c:227-261 | Two-level layout: group cascade and byte lookup together return the smallest of 256 ready priorities |
| `ReadyTable.BitsInsert` | software/src/scheduler.c:334-337 | Setting the group bit, and in the wide layout the table bit, by the masks of the priority makes the bits agree with the longer list |
| `ReadyTable.BitsRemove` | software/src/scheduler.c:369-380 | Clearing the table bit, and the group bit only if its byte became 0, makes the bits agree with lists of which this one became empty |
| `ReadyTable.OneByte` | software/src/scheduler.c:227-250 | With 8 priorities the cascade is the one table lookup |
| `ReadyTable.ReadyTable.constructor` | software/src/scheduler.c:128-155 | For any number of priorities up to 256: empty lists and empty bits agree |
| `ReadyTable.ReadyTable.Insert` | software/src/scheduler.c:310-341 | With the number and masks the thread carries: appends to the list of the priority; the bits agree again, in either layout |
| `ReadyTable.ReadyTable.Remove` | software/src/scheduler.c:350-384 | With the number and masks the thread carries: removes from the list and clears the bits only if the list became empty; the bits agree again, in either layout |
| `ReadyTable.ReadyTable.Rotate` | software/src/thread.c:352-385 | Moves a thread to the end of its list; the bits still agree, in either layout |
| `ReadyTable.ReadyTable.Pick` | software/src/scheduler.c:217-261 | Returns the first thread of the first non-empty list, in either layout |
| `ThreadLemmas.SuspendPlaced` | software/src/thread.c:527-555 | Suspending keeps every thread where its state says it is |
| `ThreadLemmas.ResumePlaced` | software/src/thread.c:565-601 | Resuming keeps the placement invariant, including that only suspended threads have an armed timer |
| `ThreadLemmas.ResumeEffect` | software/src/thread.c:565-601 | A resumed waiter leaves its own wait list and no other list changes |
| `ThreadLemmas.ResumedCannotTimeOut` | software/src/thread.c:585-592 | A resumed thread has no armed timer and is in no wait list, so it can not time out from that wait |
| `ThreadLemmas.TimeoutEffect` | software/src/thread.c:610-631 | A timed-out thread becomes READY with -RT_ETIMEOUT and leaves every wait list |
| `ThreadLemmas.YieldPlaced` | software/src/thread.c:352-385 | Yielding keeps the placement invariant |
| `ThreadLemmas.SleepPlaced` | software/src/thread.c:395-423 | Sleeping suspends the thread with an armed timer and keeps the placement invariant |
| `ThreadLemmas.ChangePriorityPlaced` | software/src/thread.c:450-515 | Changing the priority moves a READY thread to its new list and keeps the placement invariant |
| `ThreadLemmas.StartupPlaced` | software/src/thread.c:191-222 | Starting a thread keeps the placement invariant |
| `ThreadLemmas.ExitPlaced` | software/src/thread.c:224-260 | A closed thread is in no list |
| `ThreadLemmas.ListSuspendPlaced` | software/src/ipc.c:82-120 | The caller joins exactly the wait list it asked for and keeps the placement invariant |
| `ThreadLemmas.PrioInsert` | software/src/ipc.c:93-116 | A PRIO wait list stays in priority order, equal priorities in order of arrival |
| `ThreadLemmas.ResumeAllEffect` | software/src/ipc.c:154-182 | All threads of the list become READY with -RT_ERROR and no timer, nobody else changes |
| `ThreadLemmas.WakeEffect` | software/src/ipc.c:131-144 | The first waiting thread becomes READY and leaves its list, nobody else changes |
| `ThreadLemmas.TimeLeftIs` | software/src/ipc.c:1395-1402 | The recomputed timeout is what is left of the old one, never negative, across the tick wrap, if and only if at most half the tick range more than the timeout has passed; after that it is positive again |
| `ThreadLemmas.LateTimeLeft` | software/src/ipc.c:1395-1402 | The exception is met: 2147483660 ticks after a timeout of 10 began, 2147483646 are left |
| `ThreadLemmas.SameDue` | software/src/ipc.c:1395-1402 | If anything is left of the timeout, the due tick is the same in 32 bits |
| `ThreadLemmas.PerformPlaced` | software/src/thread.c:191-631 | Every thread, timer and wait-list operation keeps the placement invariant |
| `ThreadLemmas.RunPlaced` | software/src/thread.c:191-631 | Over every run: READY if and only if once in the ready list of the current priority, waiting means suspended and in one list, an armed timer means suspended |
| `ThreadEffects.SuspendDoes` | software/src/thread.c:527-555 | rt_thread_suspend of a READY thread takes it out of its ready list and changes nothing else; of any other thread nothing |
| `ThreadEffects.ResumeDoes` | software/src/thread.c:565-601 | rt_thread_resume: READY behind all others of its priority, timer off, out of every wait list, error code kept; nothing else changes, and nothing at all for a thread that is not suspended |
| `ThreadEffects.TimeoutDoes` | software/src/thread.c:610-631 | The same with the error code of a timeout |
| `ThreadEffects.SleepDoes` | software/src/thread.c:395-423 | rt_thread_sleep: suspended, out of the ready list, timer on; nothing else changes |
| `ThreadEffects.YieldDoes` | software/src/thread.c:352-385 | rt_thread_yield: a READY thread goes behind all others of its priority; at the head of its list, the list becomes its tail followed by the thread; all other lists and threads are the same |
| `ThreadEffects.PriorityDoes` | software/src/thread.c:463-494 | A READY thread moves to the end of the list of its new priority; any other changes its number only |
| `ThreadEffects.StartupDoes` | software/src/thread.c:191-222 | A started thread is READY at its initial priority behind all others of it; nothing else changes |
| `ThreadEffects.ExitDoes` | software/src/thread.c:224-260 | A thread that ends is closed and leaves its ready list; nothing else changes |
| `ThreadEffects.ListSuspendDoes` | software/src/ipc.c:82-120 | The caller leaves its ready list and joins the wait list at the end (FIFO) or in front of the first lower priority (PRIO) |
| `ThreadEffects.BlockDoes` | software/src/ipc.c:349-367 | A blocking call: the same with a clear error code and the timer on exactly if there is a timeout |
| `ThreadEffects.WaitDoes` | software/src/ipc.c:349-367 | The same operation in a run of thread operations, with the error code left as it is |
| `ThreadEffects.WakeDoes` | software/src/ipc.c:131-144 | The first waiter becomes READY behind its priority and the others stay in order |
| `ThreadEffects.ResumeAllReady` | software/src/ipc.c:154-182 | A reset appends the waiters to their ready lists in the order they waited |
| `ThreadEffects.RoundRobin` | software/src/thread.c:352-385 | If the thread the scheduler chooses runs and yields, over and over, the READY threads of the best priority run one after the other in list order, round after round, and a whole round leaves everything as it was |
| `Arrivals.FirstComeFirstServed` | software/src/ipc.c:82-120 | Over every run from an empty wait list: a FIFO list holds its waiters in the order they arrived, a PRIO list by priority and those of equal priority in the order they arrived, as long as no waiter changes its priority |
| `Kernel.Kernel.constructor` | software/src/scheduler.c:128-155 | No thread started, all lists empty, for any number of priorities up to 256 |
| `Kernel.Kernel.Suspend` | software/src/thread.c:527-555 | Updates the thread, its ready list and the bitmap so that the thread is suspended and in no ready list; a thread that is not READY stays as it is; placement is kept |
| `Kernel.Kernel.Resume` | software/src/thread.c:565-601 | Takes a suspended thread off its wait list, disarms its timer and appends it to the ready list of its priority; placement is kept |
| `Kernel.Kernel.Timeout` | software/src/thread.c:610-631 | The thread becomes READY with -RT_ETIMEOUT, is in no wait list any more and its timer is off; placement is kept |
| `Kernel.Kernel.Sleep` | software/src/thread.c:395-423 | The running thread ends up suspended with an armed timer and in no list; placement is kept |
| `Kernel.Kernel.Yield` | software/src/thread.c:352-385 | The running thread goes to the end of its ready list unless it is alone there; placement and bitmap are kept |
| `Kernel.Kernel.ChangePriority` | software/src/thread.c:450-500 | A READY thread moves to the end of the list of its new priority with its masks recomputed, any other only changes its number and masks; placement, masks and bitmap are kept |
| `Kernel.Kernel.SetPriority` | software/src/thread.c:472-495 | The number and masks kept in the thread agree with the priority it gets, for 32 and for 256 priorities |
| `Kernel.Kernel.Startup` | software/src/thread.c:191-222 | Computes number and masks of the initial priority and makes the thread READY; placement, masks and bitmap are kept |
| `Kernel.Kernel.PrioPlace` | software/src/ipc.c:96-111 | The search loop finds the position in front of the first lower priority |
| `Kernel.Kernel.ListSuspend` | software/src/ipc.c:82-120 | The running thread is suspended and enters the wait list at its end (FIFO) or in front of the first lower priority (PRIO); placement is kept |
| `Kernel.Kernel.ListResume` | software/src/ipc.c:131-144 | The first thread of the wait list becomes READY; placement is kept |
| `Kernel.Kernel.ResumeAll` | software/src/ipc.c:154-182 | The loop empties the list and produces the specified state |
| `Kernel.Kernel.Schedule` | software/src/scheduler.c:217-261 | Unless the scheduler is locked the current thread becomes the one that is READY, has the best priority of all READY threads and waited longest among its equals; while locked it stays |
| `Kernel.Kernel.Choose` | software/src/scheduler.c:229-261 | The chosen thread is READY, has the best priority of all READY threads and waited longest among its equals |
| `Kernel.Kernel.EnterCritical` | software/src/scheduler.c:389-402 | The 16-bit nesting count is one higher |
| `Kernel.Kernel.ExitCritical` | software/src/scheduler.c:407-431 | The nesting count is one lower, never negative; at 0 a READY thread of the best priority runs, before that nothing changes |
| `Kernel.LockedUntilLast` | software/src/scheduler.c:389-431 | n nested critical sections keep the scheduler locked until the last one is left if and only if n is at most 32768, half of what the comment promises |
| `Waiters.EnterKeeps` | software/src/ipc.c:1361-1380 | A call that goes to sleep: the caller joins its list with a clear error code, resumed sets lose at most the caller |
| `Waiters.LeaveKeeps` | software/src/ipc.c:1385-1390 | A call that returns: only the caller leaves the resumed set |
| `Waiters.WakeKeeps` | software/src/ipc.c:131-144 | A wake-up moves the first waiter to the resumed set of its own list |
| `Waiters.ExpireKeeps` | software/src/thread.c:610-631 | A timeout empties no resumed set and adds to none |
| `Waiters.KickAllKeeps` | software/src/ipc.c:154-182 | A reset adds nobody to a resumed set |
| `Waiters.AsideKeeps` | software/src/thread.c:352-515 | Sleeping, yielding and priority changes of other threads leave all calls alone |
| `Waiters.RouseKeeps` | software/src/thread.c:565-601 | A waiting thread that somebody else resumes joins the resumed set of its own list and nobody else moves |
| `Waiters.RouseCovers` | software/src/thread.c:565-601 | Resuming a waiting thread from outside takes no cover away from any list |
| `Waiters.WakeCovers` | software/src/ipc.c:1414-1424 | A wake-up adds one to the cover of its list and leaves the cover of the others |
| `WaiterEffects.EnterDoes` | software/src/ipc.c:349-367 | The thread of a blocking call: suspended in the list with a clear error code and a timer exactly if there is a timeout; nothing else changes |
| `WaiterEffects.WakeUp` | software/src/ipc.c:131-144 | The first waiter is READY, the call it is in is not over; with nobody there nothing changes |
| `WaiterEffects.ExpireDoes` | software/src/thread.c:610-631 | A timed waiter is READY with -RT_ETIMEOUT, in no wait list and with its timer off |
| `WaiterEffects.RouseDoes` | software/src/thread.c:565-601 | A waiter that somebody resumes is READY with its error code as it was |
| `WaiterEffects.KickDoes` | software/src/ipc.c:154-182 | All waiters are READY with -RT_ERROR in the order they waited and the list is empty |
| `WaiterEffects.AsideDoes` | software/src/thread.c:352-601 | What sleeping, yielding, changing priority and being resumed do to threads that are in no call |
| `MailboxLemmas.PutAppends` | software/src/ipc.c:1405-1412 | Storing a mail appends it to the ring, leaving all mails in it alone |
| `MailboxLemmas.TakeRemoves` | software/src/ipc.c:1543-1551 | Fetching a mail removes the oldest one from the ring |
| `MailboxLemmas.SendLoopKeeps` | software/src/ipc.c:1347-1430 | A pass of the sender's loop keeps the ring, the order of mails and the cover of both lists |
| `MailboxLemmas.RecvLoopKeeps` | software/src/ipc.c:1483-1574 | A pass of the receiver's loop keeps the ring, the order of mails and the cover of both lists |
| `MailboxLemmas.ContinueKeeps` | software/src/ipc.c:1382-1403 | Going on after rt_schedule, with an error or with the recomputed timeout, keeps the invariant |
| `MailboxLemmas.MbExpireKeeps` | software/src/thread.c:610-631 | A timeout of a waiter keeps the invariant |
| `MailboxLemmas.ResetKeeps` | software/src/ipc.c:1585-1614 | RT_IPC_CMD_RESET empties the ring and both lists |
| `MailboxLemmas.NextKeeps` | software/src/ipc.c:1321-1614 | Every section of the protocol keeps the invariant |
| `MailboxLemmas.RunKeeps` | software/src/ipc.c:1321-1614 | Every interleaving of sections keeps the invariant |
| `MailboxLemmas.FirstInFirstOut` | software/src/ipc.c:1321-1574 | Over every interleaving the mails taken out, followed by those in the ring, are the mails put in, in order |
| `MailboxLemmas.NobodyLeftAsleep` | software/src/ipc.c:1321-1574 | If a receiver sleeps, at least as many resumed receivers as mails are on their way, and likewise senders and free slots; once they have run nobody sleeps beside a mail or a free slot |
| `MailboxLemmas.SendOutcome` | software/src/ipc.c:1321-1430 | The first section of a send: success appends exactly its mail; -RT_EFULL and blocking leave the mails alone; a call that blocks keeps its mail and its timeout |
| `MailboxLemmas.RecvOutcome` | software/src/ipc.c:1457-1574 | The first section of a receive: success returns the oldest mail and removes it; -RT_ETIMEOUT and blocking leave the mails alone; a call that blocks keeps its timeout |
| `MailboxLemmas.ContinueOutcome` | software/src/ipc.c:1385-1412 | A call that goes on after rt_schedule: a timeout or reset is reported and leaves the mails alone; otherwise it puts exactly the mail it was called with, or gets the oldest one, or gives up, or sleeps again from this tick on with what is left of its timeout |
| `MailboxLemmas.CallStays` | software/src/ipc.c:1336-1412 | While a call is blocked no step of anybody else changes what it keeps: its mail, its timeout and its start tick |
| `MailboxLemmas.OneDueTick` | software/src/ipc.c:1345-1402 | However often a timed call sleeps, over every run in which it is in progress it keeps the 32-bit due tick of its first sleep |
| `MailboxLemmas.MbRouseKeeps` | software/src/thread.c:565-601 | A waiting thread resumed by somebody else tests the mailbox again; the invariant is kept |
| `MailboxEffects.SendDoes` | software/src/ipc.c:1321-1427 | A send from its loop on: with room the mail joins the end, the first receiver is READY and the call is over; without, it gives up for timeout 0 and sleeps as a sender otherwise |
| `MailboxEffects.RecvDoes` | software/src/ipc.c:1457-1565 | A receive from its loop on: the oldest mail leaves, the first sender is READY and the call is over; without a mail it gives up or sleeps |
| `MailboxEffects.FirstSection` | software/src/ipc.c:1330-1345 | A call that may not wait and finds no room or no mail changes nothing at all; any other begins its loop |
| `MailboxEffects.ContinueDoes` | software/src/ipc.c:1370-1405 | After rt_schedule: an error code is returned and nothing else changes; otherwise the loop goes on with what is left of the timeout |
| `MailboxEffects.ForeverWaits` | software/src/ipc.c:1370-1405 | A call with a negative timeout that is resumed and finds nothing sleeps again with the same timeout and no timer |
| `MailboxEffects.PostOutcome` | software/src/ipc.c:1442-1447 | rt_mb_send by an interrupt handler: -RT_EFULL and nothing changed exactly if full; otherwise the mail joins the end and the first receiver is READY |
| `MailboxEffects.PollOutcome` | software/src/ipc.c:1457-1565 | A receive without waiting by an interrupt handler: -RT_ETIMEOUT and nothing changed exactly if empty; otherwise the oldest mail and the first sender is READY |
| `MailboxEffects.ResetOutcome` | software/src/ipc.c:1585-1615 | A reset empties the ring and sends the receivers and then the senders away with -RT_ERROR |
| `MailboxEffects.EndOfWait` | software/src/thread.c:565-631 | A timeout and a resume from outside end a wait and leave the mailbox alone |
| `MailboxEffects.CreateOutcome` | software/src/ipc.c:1178-1202 | A new mailbox is empty and nobody waits |
| `Mailbox.Mailbox.constructor` | software/src/ipc.c:1178-1202 | An empty ring over the pool, its size cut to 16 bits, nobody waits |
| `Mailbox.Mailbox.SendWait` | software/src/ipc.c:1321-1380 | Up to the first rt_schedule: appends the mail, refuses with -RT_EFULL or joins the senders; mails, order and cover are kept |
| `Mailbox.Mailbox.Recv` | software/src/ipc.c:1457-1521 | Up to the first rt_schedule: returns the oldest mail, refuses with -RT_ETIMEOUT or joins the receivers; mails, order and cover are kept |
| `Mailbox.Mailbox.Continue` | software/src/ipc.c:1382-1430 | From rt_schedule on: returns the error left by a timeout or reset, or tests again with what is left of the timeout; mails, order and cover are kept |
| `Mailbox.Mailbox.PutMail` | software/src/ipc.c:1405-1417 | Slot, input offset, entry and the wake-up of a receiver change together to the state with the mail appended |
| `Mailbox.Mailbox.TakeMail` | software/src/ipc.c:1543-1556 | Returns the oldest mail; output offset, entry and the wake-up of a sender change together to the state without it |
| `Mailbox.Mailbox.Expire` | software/src/thread.c:610-631 | A timer that fires takes the waiter off its list with -RT_ETIMEOUT; mails, order and cover are kept |
| `Mailbox.Mailbox.Reset` | software/src/ipc.c:1585-1614 | Both lists and the ring are empty afterwards, all waiters leave with -RT_ERROR |
| `Mailbox.Mailbox.Rouse` | software/src/thread.c:565-601 | A waiting thread resumed by somebody else leaves its list; the invariant is kept |
| `MessageQueueLemmas.ClaimKeeps` | software/src/ipc.c:1827-1838 | Claiming moves the first free node to the caller; partition and contents are kept |
| `MessageQueueLemmas.FillKeeps` | software/src/ipc.c:1843-1846 | Filling writes only the caller's node |
| `MessageQueueLemmas.LinkKeeps` | software/src/ipc.c:1849-1863 | Linking at the back or at the front moves the node into the queue and the message into the deque |
| `MessageQueueLemmas.UnlinkKeeps` | software/src/ipc.c:2061-2071 | Unlinking moves the first node to the receiver, which is owed the first message of the deque |
| `MessageQueueLemmas.ReleaseKeeps` | software/src/ipc.c:2079-2085 | Releasing moves the node to the free list |
| `MessageQueueLemmas.DrainKeeps` | software/src/ipc.c:2116-2134 | The reset loop moves all queued nodes to the free list |
| `MessageQueueLemmas.LinkInv` | software/src/ipc.c:1849-1880 | The linking section with its wake-up keeps the invariant |
| `MessageQueueLemmas.RecvLoopKeeps` | software/src/ipc.c:2001-2074 | A pass of the receiver's loop keeps the invariant |
| `MessageQueueLemmas.NextKeeps` | software/src/ipc.c:1809-2145 | Every section, from any thread or interrupt handler, keeps the invariant |
| `MessageQueueLemmas.NodesNeverLost` | software/src/ipc.c:1809-2145 | Over every interleaving free, queued and in-flight nodes partition the pool, entry is the queued length, and the queued nodes hold the deque in order |
| `MessageQueueLemmas.NobodyLeftAsleep` | software/src/ipc.c:1865-1875 | No receiver sleeps beside a message once the resumed ones have run |
| `MessageQueueLemmas.Delivered` | software/src/ipc.c:2076-2077 | What a receive copies out is the message it unlinked, cut to the caller's buffer |
| `MessageQueueLemmas.FullExactly` | software/src/ipc.c:1827-1836 | A send is refused with -RT_EFULL if and only if all nodes are queued or in flight |
| `MessageQueueLemmas.RecvLoopOutcome` | software/src/ipc.c:1984-2068 | A receive takes the first message of the deque, or gives up or sleeps and leaves all messages alone |
| `MessageQueueLemmas.ContinueOutcome` | software/src/ipc.c:2041-2074 | A receive that goes on after rt_schedule: a timeout or reset is reported and no message is touched; otherwise it takes the first message, or gives up or sleeps again with what is left of its timeout |
| `MessageQueueLemmas.OneDueTick` | software/src/ipc.c:1993-2059 | However often a timed receive sleeps, over every run in which it is in progress it keeps the 32-bit due tick of its first sleep |
| `MessageQueueLemmas.MqRouseKeeps` | software/src/thread.c:565-601 | A waiting receiver resumed by somebody else tests the queue again; the invariant is kept |
| `MessageQueueEffects.ClaimOutcome` | software/src/ipc.c:1809-1842 | The first section of a send: too long and full are refused and nothing changes; otherwise the first free node is claimed for exactly the message and the urgency of the caller |
| `MessageQueueEffects.FillOutcome` | software/src/ipc.c:1843-1846 | The copy puts the message at the start of the node and leaves the rest of it and all other nodes alone |
| `MessageQueueEffects.LinkOutcome` | software/src/ipc.c:1848-1885 | The second section: the node goes to the front if urgent and to the end otherwise, and the first receiver is READY |
| `MessageQueueEffects.QueuedAsSent` | software/src/ipc.c:1809-1962 | Over every run: when a send links its node, the message and the urgency are those of its last call, read off the steps; an urgent message becomes the first of the queue and any other the last, and the node there starts with it |
| `MessageQueueEffects.RecvDoes` | software/src/ipc.c:1974-2090 | A receive from its loop on: the first message is the caller's; without one it gives up for timeout 0 and sleeps otherwise |
| `MessageQueueEffects.RecvSections` | software/src/ipc.c:1974-2090 | The first section, the section after rt_schedule and a receive by an interrupt handler in terms of the loop; refused calls change nothing |
| `MessageQueueEffects.CopyOutcome` | software/src/ipc.c:2076-2085 | The message is copied up to the smaller of buffer and message size, and the node goes to the front of the free list |
| `MessageQueueEffects.ForeverWaits` | software/src/ipc.c:2005-2045 | A receive with a negative timeout that is resumed and finds nothing sleeps again with the same timeout and no timer |
| `MessageQueueEffects.ResetOutcome` | software/src/ipc.c:2101-2145 | A reset frees all queued nodes, the last one first to be used, leaves nodes in flight alone and sends all waiters away with -RT_ERROR |
| `MessageQueueEffects.EndOfWait` | software/src/thread.c:565-631 | A timeout and a resume from outside end a wait and leave the queue alone |
| `MessageQueueEffects.CreateOutcome` | software/src/ipc.c:1636-1678 | In a new queue all nodes are free, the last of the pool first, and nobody waits |
| `MessageQueueSpec.SizeHonoured` | software/src/ipc.c:1656-1657 | The messages of a queue are at least as long as asked for if and only if at most 65532 bytes were asked for; the rounded size is cut to 16 bits |
| `MessageQueueSpec.NodeInside` | software/src/ipc.c:1656-1672 | Every node with its link and its message lies inside the pool |
| `MessageQueueSpec.NodesApart` | software/src/ipc.c:1656-1672 | Different nodes do not overlap |
| `NodePool.NodePool.constructor` | software/src/ipc.c:1660-1675 | The initial free list links all nodes |
| `NodePool.NodePool.LinkBack` | software/src/ipc.c:1850-1860 | Head, tail and links represent the queue with the node at the end; head and tail are both null or first and last |
| `NodePool.NodePool.LinkFront` | software/src/ipc.c:1934-1940 | Head, tail and links represent the queue with the node at the front |
| `NodePool.NodePool.Unlink` | software/src/ipc.c:2061-2068 | Head, tail and links represent the queue without its first node |
| `NodePool.NodePool.Release` | software/src/ipc.c:2081-2083 | The links represent the longer free list |
| `NodePool.NodePool.DrainAll` | software/src/ipc.c:2116-2131 | The loop leaves head and tail null and all queued nodes on the free list |
| `MessageQueue.MessageQueue.constructor` | software/src/ipc.c:1636-1678 | The pool is divided into as many nodes of the rounded message size as fit; all are free with the contents the pool had, nobody waits |
| `MessageQueue.MessageQueue.Claim` | software/src/ipc.c:1809-1841 | Gives the first free node to the caller; -RT_ERROR for a message that is too long, -RT_EFULL for an empty free list; nodes stay partitioned |
| `MessageQueue.MessageQueue.Fill` | software/src/ipc.c:1843-1846 | The message stands at the start of the claimed node, no other node is written |
| `MessageQueue.MessageQueue.Link` | software/src/ipc.c:1848-1880 | Queues the node at the back or the front, counts it and wakes the first receiver; nodes, deque order and cover are kept |
| `MessageQueue.MessageQueue.Recv` | software/src/ipc.c:1974-2039 | Unlinks the first node for the caller, refuses with -RT_ETIMEOUT or joins the receivers; nodes, deque order and cover are kept |
| `MessageQueue.MessageQueue.Continue` | software/src/ipc.c:2041-2074 | From rt_schedule on: returns the error left by a timeout or reset, or tests again with what is left of the timeout |
| `MessageQueue.MessageQueue.Copy` | software/src/ipc.c:2076-2077 | The caller gets the start of the unlinked node, cut to its buffer and the message size |
| `MessageQueue.MessageQueue.Release` | software/src/ipc.c:2079-2089 | The node is free again and the receive returns RT_EOK with the bytes it copied |
| `MessageQueue.MessageQueue.Reset` | software/src/ipc.c:2101-2145 | All queued nodes are free, entry is 0, all waiters leave with -RT_ERROR; nodes in flight stay with their callers |
| `EventLemmas.LaterIsNow` | software/src/ipc.c:972-1000 | A resumed receive gets the same bits and leaves the same bits as an immediate one from the same set |
| `EventLemmas.FewerBits` | software/src/ipc.c:974-982 | Clearing bits satisfies no condition that was not satisfied |
| `EventLemmas.VisitKeeps` | software/src/ipc.c:966-1008 | One round of the scan: nobody already visited waits for bits that are there |
| `EventLemmas.ScanKeeps` | software/src/ipc.c:962-1009 | After the scan nobody waits for bits that are there |
| `EventLemmas.RecvKeeps` | software/src/ipc.c:1033-1106 | A receive keeps that nobody waits for bits that are there |
| `EventLemmas.NextKeeps` | software/src/ipc.c:940-1162 | Every section keeps the invariant |
| `EventLemmas.NoMissedWakeup` | software/src/ipc.c:940-1162 | After every step of every run no waiting thread's condition is met by the event set |
| `EventLemmas.ResumedReceive` | software/src/ipc.c:1107-1118 | Over every run: a receive that nobody but a send has resumed since it was called returns exactly the bits an immediate one would have returned when it was resumed; one that somebody else has resumed since then, and only such a one, returns all the bits it asked for |
| `EventLemmas.StrayReceives` | software/src/ipc.c:1107-1118 | A waiting receive that somebody else resumes reports success with all the bits it has asked for although its condition does not hold |
| `EventEffects.MetIs` | software/src/ipc.c:972-990 | A condition is met exactly if all its bits (AND) or one of them (OR) are set |
| `EventEffects.SendOutcome` | software/src/ipc.c:940-1018 | A send: an empty set is an error. Otherwise, bit by bit, the scan starts from what was set or is sent; then each waiter in turn is left alone or, if it is satisfied by what is set at that moment, gets its bits, clears them if it asked for that, and is READY |
| `EventEffects.RecvOutcome` | software/src/ipc.c:1033-1105 | The first section of a receive: its bits at once if satisfied, clearing exactly those; otherwise -RT_ETIMEOUT for timeout 0, and asleep in the list with a timer exactly if the timeout is positive |
| `EventEffects.ContinueOutcome` | software/src/ipc.c:1105-1125 | A receive that goes on returns its error code, or the bits it was given |
| `EventEffects.SeveralSends` | software/src/ipc.c:940-1125 | Over every run: a bit that was sent and not taken away since by a reset or a granted CLEAR receive is set; so a thread whose bits have been sent, in one send or in several, does not wait |
| `EventEffects.ResetOutcome` | software/src/ipc.c:1137-1162 | A reset clears all bits and sends all waiters away with -RT_ERROR |
| `EventEffects.EndOfWait` | software/src/thread.c:565-631 | A timeout and a resume from outside end a wait and leave the bits alone |
| `EventEffects.CreateOutcome` | software/src/ipc.c:835-852 | A new event has no bits and nobody waits |
| `Base.WithoutAt` | software/src/ipc.c:992-1003 | A thread leaving the list leaves what is behind it in place, so moving on before the resume visits every thread |
| `Event.Event.constructor` | software/src/ipc.c:835-852 | An event with no bits set |
| `Event.Event.Round` | software/src/ipc.c:966-1008 | One round of the loop over the live list is one step of the scan |
| `Event.Event.ScanList` | software/src/ipc.c:962-1009 | The loop over the live list visits all threads that were waiting |
| `Event.Event.Send` | software/src/ipc.c:940-1019 | Adds the bits and resumes in list order exactly the threads whose condition holds at their turn; afterwards nobody waits for bits that are there; an empty set is -RT_ERROR |
| `Event.Event.Recv` | software/src/ipc.c:1033-1105 | Returns at once with the common bits, or -RT_ETIMEOUT, or joins the list only if its condition does not hold; an empty set is -RT_ERROR |
| `Event.Event.Continue` | software/src/ipc.c:1107-1125 | From rt_schedule on: returns the error left by a timeout or reset, or the bits stored when the thread was resumed |
| `Event.Event.Reset` | software/src/ipc.c:1137-1162 | In place; no bit is set and nobody waits afterwards |
| `SemaphoreLemmas.NextKeeps` | software/src/ipc.c:306-475 | Every section keeps the token account |
| `SemaphoreLemmas.TokensConserved` | software/src/ipc.c:306-436 | Over every run tokens put in, and one for each waiting thread resumed from outside, are value, takes returned, resumed threads and 65536 for each wrap; a positive value means nobody waits; while fewer than 65536 tokens were put in since the last reset the plain sum holds if and only if nobody was resumed from outside since then |
| `SemaphoreLemmas.PlainStep` | software/src/ipc.c:306-475 | From a state in which tokens put in are value, takes returned and resumed threads, a step keeps this if and only if it is neither a release that finds 65535 tokens nor a resume of a waiting thread from outside |
| `SemaphoreLemmas.ReleaseWraps` | software/src/ipc.c:420-426 | A release wraps the value if and only if it finds 65535 |
| `SemaphoreLemmas.WrapHappens` | software/src/ipc.c:420-426 | The wrap is met: 65535 tokens and one more leave the value 0 |
| `SemaphoreLemmas.StrayTakes` | software/src/ipc.c:372-381 | A waiting take that somebody else resumes reports success although there was no token |
| `SemaphoreLemmas.TimeoutTakesNothing` | software/src/ipc.c:372-375 | A timed-out take returns -RT_ETIMEOUT and consumes no token |
| `SemaphoreLemmas.TakeOutcome` | software/src/ipc.c:306-382 | The first section of a take: RT_EOK exactly if the value is positive, whatever the timeout, and then the value goes down by one and no list changes; at 0, -RT_ETIMEOUT and nothing changed exactly for timeout 0, otherwise the caller is in the wait list, armed exactly if the timeout is positive |
| `SemaphoreLemmas.TryTakeOutcome` | software/src/ipc.c:391-394 | A take by an interrupt handler: the same without waiting |
| `SemaphoreLemmas.ContinueOutcome` | software/src/ipc.c:366-379 | A take that goes on returns its error code and touches no token |
| `SemaphoreLemmas.ReleaseOutcome` | software/src/ipc.c:404-436 | A release makes the first waiter READY and leaves the value alone, or adds one with nobody waiting |
| `SemaphoreLemmas.ResetOutcome` | software/src/ipc.c:447-475 | After a reset the value is the argument cut to 16 bits, and all waiters are READY with -RT_ERROR |
| `SemaphoreLemmas.EndOfWait` | software/src/thread.c:565-631 | A timeout and a resume from outside end a wait and leave the value alone |
| `SemaphoreLemmas.CreateOutcome` | software/src/ipc.c:196-215 | A new semaphore holds its value cut to 16 bits and nobody waits |
| `Semaphore.Semaphore.constructor` | software/src/ipc.c:196-213 | The initial value, cut to 16 bits, is the supply |
| `Semaphore.Semaphore.Take` | software/src/ipc.c:306-370 | Takes a token if there is one, else -RT_ETIMEOUT or a place in the list; the token account is kept |
| `Semaphore.Semaphore.Continue` | software/src/ipc.c:372-381 | From rt_schedule on: an error consumes nothing, success counts the token handed over |
| `Semaphore.Semaphore.Release` | software/src/ipc.c:404-433 | Hands the token to the first waiter or adds it to the 16-bit value; the token account is kept, a wrap is counted |
| `Semaphore.Semaphore.Reset` | software/src/ipc.c:447-475 | Sends all waiters away with -RT_ERROR and restarts the account with the new value and the tokens of resumed threads |
| `MutexLemmas.AgainExactly` | software/src/ipc.c:628-632 | A nested take by the owner keeps the invariant if and only if the 8-bit hold count does not wrap |
| `MutexLemmas.HoldWraps` | software/src/ipc.c:628-632 | The wrap is met: 255 nested takes are in order, and the 256th leaves the owner with a hold count of 0 |
| `MutexLemmas.FirstTake` | software/src/ipc.c:638-647 | Taking a free mutex keeps the invariant |
| `MutexLemmas.WaitKeeps` | software/src/ipc.c:661-694 | A waiting take boosts the owner if needed and joins the list in priority order |
| `MutexLemmas.ReleaseKeeps` | software/src/ipc.c:727-807 | A release keeps the invariant: error for others, count down, or hand-off |
| `MutexLemmas.HandOffFirst` | software/src/ipc.c:770-787 | The last release gives the mutex to the first waiter, which outranks all that still wait |
| `MutexLemmas.MutexExpireKeeps` | software/src/thread.c:610-631 | A timeout of a waiter keeps the invariant |
| `MutexLemmas.NextExactly` | software/src/ipc.c:603-807 | A step keeps the invariant if and only if it is not the owner's 256th nested take and does not resume a waiting thread from outside |
| `MutexLemmas.RouseExactly` | software/src/thread.c:565-601 | Resuming a thread from outside keeps the invariant if and only if it does not wait for the mutex |
| `MutexLemmas.StrayBreaks` | software/src/ipc.c:696-716 | A waiting thread that somebody else resumes reports success although another thread owns the mutex |
| `MutexLemmas.OneOwner` | software/src/ipc.c:603-807 | Over every run without these two kinds of step value 1, no owner and no hold go together, nobody waits then, and hold counts the owner's unreleased takes |
| `MutexLemmas.NoInversion` | software/src/ipc.c:667-673 | Over every such run no waiter has a higher priority than the owner and all others run at their own priority |
| `MutexLemmas.SuccessIsOwnership` | software/src/ipc.c:603-717 | A take reports RT_EOK only to the owner, at once or after waiting |
| `MutexLemmas.OwnerStays` | software/src/ipc.c:747-756 | Only the owner's own last release ends its ownership |
| `MutexEffects.TakeOutcome` | software/src/ipc.c:603-718 | The first section of a take: the owner nests; a free mutex gets its owner and remembers its priority; a held one refuses timeout 0, and otherwise the owner rises to the caller's priority if that is higher and the caller waits |
| `MutexEffects.ReleaseOutcome` | software/src/ipc.c:727-807 | A release by anybody but the owner is -RT_ERROR and changes nothing; the owner counts down; its last release restores its priority and hands the mutex to the first waiter or leaves it free |
| `MutexEffects.ContinueOutcome` | software/src/ipc.c:702-718 | A take that goes on returns its error code and changes nothing but the end of its call |
| `MutexEffects.EndOfWait` | software/src/thread.c:565-631 | A timeout and a resume from outside end a wait and leave owner and count alone |
| `MutexEffects.CreateOutcome` | software/src/ipc.c:490-511 | A new mutex is free and nobody waits |
| `Mutex.Mutex.constructor` | software/src/ipc.c:490-509 | A free mutex |
| `Mutex.Mutex.Take` | software/src/ipc.c:603-694 | Takes the mutex, nests, gives up or waits behind a boosted owner; the object stays valid if and only if this is not the 256th nested take of the owner |
| `Mutex.Mutex.Continue` | software/src/ipc.c:696-716 | From rt_schedule on: reports the error left by a timeout, or success; one owner, counts and ranks are kept |
| `Mutex.Mutex.Release` | software/src/ipc.c:727-806 | Refuses all but the owner; its last release restores its priority and passes the mutex to the first waiter or frees it; one owner, counts and ranks are kept |
| `TimerLemmas.WrappedOrder` | software/src/timer.c:252-255 | Below half a range apart the unsigned difference of wrapped ticks orders true times |
| `TimerLemmas.WrappedExactly` | software/src/timer.c:252-255 | Of all differences a signed 32-bit number holds the comparison is wrong for exactly one, 0x7FFFFFFF |
| `TimerLemmas.ArmGood` | software/src/timer.c:233-267 | Starting a timer keeps the list in order of due times |
| `TimerLemmas.NewestFirst` | software/src/timer.c:216-414 | Over every run the list is in the order of the due times, and timers due at the same tick stand in it newest first |
| `TimerLemmas.DisarmGood` | software/src/timer.c:283-306 | Stopping a timer keeps the list in order |
| `TimerLemmas.HeadDueIs` | software/src/timer.c:374 | The expiry test holds if and only if the first timer is due |
| `TimerLemmas.FireGood` | software/src/timer.c:367-403 | Firing the first due timer, with its timeout function and its renewal, keeps the list in order and leaves that timer not due; only timers the function starts with 0 ticks can have become due |
| `TimerLemmas.FireExactly` | software/src/timer.c:367-403 | One round of the check keeps timers and list in order if and only if the timeout function does not restart the fired timer itself |
| `TimerLemmas.CheckGood` | software/src/timer.c:354-414 | When the check returns nothing is due |
| `TimerChecks.CheckEnds` | software/src/timer.c:354-414 | The check returns if the timers can be ranked so that timeout functions start with 0 ticks only other timers of a lower rank; in particular if they start none with 0 ticks |
| `TimerChecks.NeverEnds` | software/src/timer.c:354-414 | If each function of a set of one-shot timers starts another one of the set with 0 ticks and nothing else is done to them, a check in which one is due and none is started for later does not return |
| `TimerChecks.ReturnsExactly` | software/src/timer.c:354-414 | If timeout functions only start timers with 0 ticks, every check returns if and only if no set of one-shot timers start one another in this way |
| `TimerChecks.EndlessCheck` | software/src/timer.c:354-414 | An example: two timers whose functions start each other with 0 ticks keep the check going for ever |
| `TimerLemmas.EveryTimerOnTime` | software/src/timer.c:216-414 | Over every run and any wrap of the tick a timer armed at tick s for k fires exactly at s + k, or at s + 1 if armed with k = 0 outside of the check, and an armed timer neither fired nor stopped is not due yet |
| `TimerLemmas.ZeroTicksLate` | software/src/timer.c:216-414 | The exception is met: a timer started with 0 ticks between two ticks fires one tick later |
| `TimerRuns.SetTimeOutcome` | software/src/timer.c:318-332 | Setting the time changes the time for the next start and nothing else |
| `TimerRuns.StartOutcome` | software/src/timer.c:216-273 | An activated timer is refused and nothing changes; any other is activated, due k ticks from now, behind all that are due earlier and in front of all others |
| `TimerRuns.StopOutcome` | software/src/timer.c:283-308 | An activated timer leaves the list; any other is refused and nothing changes |
| `TimerRuns.RenewOutcome` | software/src/timer.c:388-400 | After its timeout function a periodic timer that is still activated is armed at this very tick for its period and in the list again; any other is off |
| `TimerRuns.FiresAsAsked` | software/src/timer.c:216-414 | Over every run: a timer started for k ticks fires k ticks later, or at the next tick for k = 0, and if periodic exactly every k ticks from then on and at no other tick, as long as nobody stops it, sets its time or, without a period, starts it again |
| `TimerList.TimerList.Start` | software/src/timer.c:216-273 | Puts the timer in front of the first one not before it and sets the wrapped timeout tick; an activated timer is refused and nothing changes |
| `TimerList.TimerList.Search` | software/src/timer.c:248-265 | The loop finds the specified place |
| `TimerList.TimerList.Stop` | software/src/timer.c:283-306 | Takes the timer off the list; a timer that is not activated is refused and nothing changes |
| `TimerList.TimerList.FireHead` | software/src/timer.c:369-401 | Takes the first timer off, runs its timeout function and restarts it if it is periodic and still activated |
| `TimerList.TimerList.CheckAll` | software/src/timer.c:354-414 | The expiry loop does the specified rounds, any number of them, whatever the timeout functions do, and has returned by then if and only if the specified check ends within them |
| `TimerList.TimerList.Tick` | software/src/clock.c:72-94 | Advances the 32-bit tick and runs the check; whether and in what state it returns is as specified, and unless a function restarts its own timer nothing is overdue then |
| `Clock.YieldEverySlice` | software/src/clock.c:80-90 | A thread with a slice of k ticks yields at every k-th of its ticks and at no other; a slice of 0 lasts 2^32 ticks |
| `Clock.Clock.TickIncrease` | software/src/clock.c:72-94 | Counts the slice of the running thread down, reloads it and yields when it is used up, then advances the tick and runs the check as specified, whatever the timeout functions do |
| `Timeouts.WaitKeeps` | software/src/ipc.c:1361-1380 | A blocking call with a timeout of k ticks arms the timer of its thread for k ticks from now |
| `Timeouts.PlanStays` | software/src/thread.c:565-631 | The due tick of a timed call stays what it is, whatever else happens, until its thread sleeps again or returns |
| `Timeouts.TickKeeps` | software/src/clock.c:72-94 | A tick fires the due timers: threads time out, and other timeout functions resume threads, reset objects and handle timers in the middle of the check; every armed thread keeps its timer in the list and every call its due tick |
| `Timeouts.TickTimers` | software/src/clock.c:72-94 | A tick whose timeout functions handle timers only is exactly the tick of the timer list |
| `Timeouts.NextKeeps` | software/src/thread.c:395-631 | Every step of threads, interrupt handlers and ticks keeps the threads and the timer list joined |
| `Timeouts.TimeoutsOnTime` | software/src/ipc.c:1361-1390 | Over every run: a timed call that nobody serves returns -RT_ETIMEOUT exactly at its due tick, when its timer fires, and not before; one that is served has its timer stopped before that tick, or at it by another timeout function, and it never fires |
| `Timeouts.AgainExactly` | software/src/ipc.c:1395-1402 | A call that sleeps again keeps its due tick, in true time, if and only if its thread runs at most half the tick range after it |
| `Timeouts.OneDeadline` | software/src/ipc.c:1345-1402 | Over every run a timed call has the due tick of its first sleep however often it sleeps, as long as its thread is never later than that |
| `Timeouts.ArmedIsListed` | software/src/thread.c:565-631 | Over every run a thread's timer is in the timer list exactly while the thread is armed, which only suspended threads are |
| `TimeoutRuns.WaitOutcome` | software/src/ipc.c:349-367 | A blocking call puts the thread in its list; a positive timeout puts its timer in the timer list for k ticks, any other touches no timer |
| `TimeoutRuns.AgainOutcome` | software/src/ipc.c:1385-1405 | A call that sleeps again does so for what is left of its timeout, and without a timer if it had none |
| `TimeoutRuns.SleepOutcome` | software/src/thread.c:395-423 | rt_thread_sleep takes the thread out of its ready list and puts its timer in the timer list for k ticks |
| `TimeoutRuns.ServeOutcome` | software/src/ipc.c:131-144 | The first waiter is READY and its timer off; no other timer changes |
| `TimeoutRuns.ResetOutcome` | software/src/ipc.c:154-182 | All waiters are READY with -RT_ERROR and their timers off; no other timer changes |
| `TimeoutRuns.StirOutcome` | software/src/thread.c:565-601 | rt_thread_resume makes the thread READY and its timer is off; no other timer changes |
| `TimeoutRuns.DoOutcome` | software/src/timer.c:375-381 | A timeout function that releases or resets an object, resumes a thread or handles a timer does what anybody else would, and the threads it resumes have no timer left |
| `TimeoutRuns.ReturnOutcome` | software/src/ipc.c:369-379 | A call that returns changes no timer and no other call |
| `TimeoutRuns.SleepOnTime` | software/src/thread.c:395-423 | Over every run: a thread that sleeps for k ticks and that nobody resumes is READY if and only if k ticks (one for k = 0) have passed, since its timer fired at that very tick; if somebody resumes it, then not later |
| `TimeoutRuns.ForeverNeverTimesOut` | software/src/ipc.c:361-367 | Over every run: a call without a timeout never ends with -RT_ETIMEOUT, however often it is resumed and sleeps again, and no timer of its thread runs |
| `PageLemmas.AllocFirstFit` | software/src/slab.c:233-266 | rt_page_alloc takes the first run that is long enough and returns null only if there is none |
| `PageLemmas.AllocPages` | software/src/slab.c:242-260 | Exactly the pages handed out stop being free |
| `PageLemmas.NoneMeansNone` | software/src/slab.c:233-266 | Null means there are no n free pages in a row |
| `PageLemmas.FreeCanon` | software/src/slab.c:268-317 | Freeing keeps the list strictly sorted with no two runs that touch |
| `PageLemmas.FreePages` | software/src/slab.c:268-317 | Exactly the pages given back become free |
| `PageLemmas.CanonUnique` | software/src/slab.c:282-312 | Two such lists of the same pages are the same list |
| `PageLemmas.PoolRun` | software/src/slab.c:233-317 | Over every run each page is free or in exactly one allocation |
| `PageLemmas.AllFreedIsInitial` | software/src/slab.c:233-329 | Freeing everything, in any order, restores the single initial run |
| `PageList.PageList.constructor` | software/src/slab.c:322-329 | One run of all pages |
| `PageList.PageList.PageAlloc` | software/src/slab.c:233-266 | Splitting or unlinking in the in-band page heads yields exactly the list of runs without the pages returned |
| `PageList.PageList.PageFree` | software/src/slab.c:268-317 | Extending, joining or inserting in the in-band page heads yields exactly the merged list with the pages |
| `SlabLemmas.ZoneIndexFits` | software/src/slab.c:395-442 | The chunk is large enough, a multiple of 8, and wastes at most 7 bytes or an eighth |
| `SlabLemmas.IndexFixesSize` | software/src/slab.c:395-442 | The zone index determines the chunk size |
| `SlabLemmas.RoundingAgain` | software/src/slab.c:696-704 | Rounding a chunk size again changes nothing, except for the chunk size 16384 |
| `SlabLemmas.ZoneGeometry` | software/src/slab.c:606-622 | Every zone holds at least three chunks, all inside it |
| `SlabLemmas.PowerTestIs` | software/src/slab.c:613 | The bit test finds exactly the powers of two among the chunk sizes |
| `SlabLemmas.ChunkAligned` | software/src/slab.c:606-616 | A live chunk of a power-of-two size is aligned to its size if and only if the first page of its zone is, which it always is up to a page |
| `SlabLemmas.ChunkUnaligned` | software/src/slab.c:606-616 | The exception is met: a zone of 8192-byte chunks on page 1 hands out unaligned chunks |
| `SlabLemmas.ZoneConserved` | software/src/slab.c:528-552 | Live chunks plus z_nfree is z_nmax |
| `SlabLemmas.TakeFresh` | software/src/slab.c:528-552 | The chunk taken was not live |
| `SlabLemmas.PutBack` | software/src/slab.c:809-821 | A chunk given back stops being live, nothing else changes |
| `SlabHeap.LiveApart` | software/src/slab.c:462-648 | Two live blocks never overlap |
| `SlabHeap.FreeApart` | software/src/slab.c:809-811 | A live block touches no free chunk, so writing to it leaves all c_next links alone |
| `SlabHeap.HeadersApart` | software/src/slab.c:603-630 | A live block touches no zone header, cached zones included, and no page head of a free run |
| `SlabHeap.CellsApart` | software/src/slab.c:156-181 | Page heads of free runs, headers of zones and cached zones, free chunks with their links and blocks of callers are pairwise apart, so that they can stand in one memory and writing one leaves all others alone |
| `SlabHeap.MallocKeeps` | software/src/slab.c:462-648 | rt_malloc returns a block that was nobody's and is long enough, changes no other, and returns null if and only if nothing fits |
| `SlabHeap.FreeKeeps` | software/src/slab.c:746-879 | rt_free finds the owner of a live address in the page descriptors and takes exactly this block out |
| `SlabHeap.RetireKeeps` | software/src/slab.c:833-875 | Moving an empty zone to the cache, or back to the page allocator, changes no live block |
| `SlabHeap.RunKeeps` | software/src/slab.c:462-879 | Every run of rt_malloc and rt_free keeps the heap invariant |
| `SlabHeap.HeapAlwaysSound` | software/src/slab.c:462-879 | Over every run live blocks are disjoint, every zone's chunks are accounted for, zones are listed if and only if they have room, and at most two empty zones are kept |
| `SlabEffects.PagesExactly` | software/src/slab.c:477-482 | A large block gets the smallest number of pages that holds it; above 2^32 - 4096 bytes the number is 0 |
| `SlabEffects.BestFit` | software/src/slab.c:395-448 | A request gets the smallest of the chunk sizes that holds it |
| `SlabEffects.LastInFirstOut` | software/src/slab.c:529-544 | Once all chunks of a zone have been in use, the one given back last is handed out next |
| `SlabEffects.LargeOutcome` | software/src/slab.c:474-503 | From the limit on: exactly the first pages of the lowest run that is long enough, or null and nothing changed if there is none |
| `SlabEffects.SmallOutcome` | software/src/slab.c:505-629 | A small block: a chunk of the first zone of its list; else of a new zone in the empty zone cached last; else of a new zone on fresh pages; else null and nothing changed. What list, header and page descriptors are afterwards |
| `SlabEffects.FreeLargeOutcome` | software/src/slab.c:784-806 | Exactly the pages of the block become free |
| `SlabEffects.FreeSmallOutcome` | software/src/slab.c:808-876 | The chunk heads the free list of its zone, which is the first of its list if it had no room; the zone goes exactly if all its chunks are free and another has room, and is cached while there are fewer than two |
| `SlabEffects.FreeThenMalloc` | software/src/slab.c:462-876 | What rt_free takes back from a zone without unused memory rt_malloc hands out next, and the heap is as it was |
| `SlabEffects.CreateOutcome` | software/src/slab.c:340-389 | After initialisation the first pages hold memusage, all others are free and there is no zone |
| `SlabAllocator.ChooseZoneSize` | software/src/slab.c:369-372 | The loop chooses 32, 64 or 128 KB by the size of the heap |
| `SlabAllocator.Allocator.constructor` | software/src/slab.c:340-389 | The heap after initialisation: the zone size for this many pages, and the pages of memusage taken |
| `SlabAllocator.Allocator.Malloc` | software/src/slab.c:462-648 | Over zone headers, z_next and c_next links and page heads: serves from a zone with room, a cached zone, new pages or as a large block, with the result and the heap SlabHeap.MallocKeeps speaks of |
| `SlabAllocator.Allocator.Free` | software/src/slab.c:746-879 | From the address alone returns the chunk or the pages; the heap invariant is kept and exactly this block stops being live |
| `SlabAllocator.Allocator.RetireZone` | software/src/slab.c:833-875 | Moves an empty zone to the cache, or back to the page allocator once two are cached; links and heap invariant are kept and no live block changes |
| `SlabAllocator.Allocator.Write` | software/src/slab.c:462-648 | A caller may write anything anywhere in a block it holds: heap, links and lists stay as they are |
| `ZoneLinks.ZoneLinks.TakeOut` | software/src/slab.c:840-841 | The walk along z_next takes exactly this zone out of its list and leaves the other lists alone |
| `ZoneLinks.ZoneLinks.Push` | software/src/slab.c:628-630 | The zone becomes the first of its list; no other list changes |
| `ZoneLinks.ZoneLinks.Others` | software/src/slab.c:833 | The test of the two links holds if and only if the list has another zone |
| `ZoneLinks.ZoneLinks.Keep` | software/src/slab.c:846-850 | The zone becomes the first cached one and the count goes up with the list |
| `ZoneLinks.ZoneLinks.Uncache` | software/src/slab.c:573-577 | The first cached zone leaves the list and is in no list then |
| `ZoneHeaders.ZoneHeaders.Take` | software/src/slab.c:528-552 | The header of the zone gives out the specified chunk, unused memory first, and the c_next links lead through the other free ones |
| `ZoneHeaders.ZoneHeaders.Put` | software/src/slab.c:809-821 | The chunk becomes the first of the free list; the free lists of all zones stay linked |
| `IntrusiveList.ListNode.constructor` | software/src/kservice.h:36-39 | A ring of one node |
| `IntrusiveList.ListNode.InsertAfter` | software/src/kservice.h:47-54 | The ring with the node behind this one |
| `IntrusiveList.ListNode.InsertBefore` | software/src/kservice.h:62-69 | The ring with the node in front of this one; in front of the head is the end of the list |
| `IntrusiveList.ListNode.Remove` | software/src/kservice.h:75-81 | The others close up and the node becomes a ring of its own |
| `IntrusiveList.ListNode.IsEmpty` | software/src/kservice.h:87-90 | Empty if and only if the head is alone |
| `IntrusiveList.ListNode.Walk` | software/src/kservice.h:36-90 | Following next from the head visits the nodes of the list in order |
| `IntrusiveList.InsertRemove` | software/src/kservice.h:47-81 | Removing what was inserted gives back every link of every node |
| `IntrusiveList.BehindHead` | software/src/kservice.h:47-81 | Insert and Without on the ring of a head with its list are Insert and Without on the list: the sequences of the other modules are these rings |
| `ThreadRings.ThreadRing.constructor` | software/src/kservice.h:36-39 | An empty wait list |
| `ThreadRings.ThreadRing.PrioNode` | software/src/ipc.c:96-111 | The walk along the links finds the node of the first waiter of a lower priority, or the head |
| `ThreadRings.ThreadRing.Suspend` | software/src/ipc.c:88-119 | Linking the tlist node of a thread into the ring puts the thread at the end of the wait list (FIFO) or in front of the first lower priority (PRIO) |
| `ThreadRings.ThreadRing.First` | software/src/ipc.c:131-138 | The entry behind the list head is the first waiting thread |
| `ThreadRings.ThreadRing.Unlink` | software/src/thread.c:585-586 | Unlinking the tlist node takes exactly this thread out of the wait list |
| `Calendar.NextDayNumber` | software/bsp/vtdr/RS232.c:114-156 | The forward step of the loop is the next day |
| `Calendar.PrevDayNumber` | software/bsp/vtdr/RS232.c:157-199 | The backward step of the loop is the previous day |
| `Calendar.DayUnique` | software/bsp/vtdr/RS232.c:107-206 | Different valid dates have different day numbers |
| `Calendar.ShiftNumber` | software/bsp/vtdr/RS232.c:107-206 | Stepping a valid date by any positive or negative increment adds exactly that many minutes |
| `Calendar.ShiftTwice` | software/bsp/vtdr/RS232.c:107-206 | Two steps are one step by the sum; a step by k and one by -k undo each other |
| `Calendar.IncreaseTime` | software/bsp/vtdr/RS232.c:107-206 | The loop ends with the specified date |
| `Calendar.HaveTime` | software/bsp/vtdr/RS232.c:217-248 | The loop returns the difference in minutes, or -1 for the wrong order |
| `Calendar.GapOfShift` | software/bsp/vtdr/RS232.c:107-248 | HaveTime measures what IncreaseTime added |
| `Calendar.BcdRoundTrip` | software/bsp/vtdr/RS232.c:89-97 | BCD2Char undoes Char2BCD if and only if the number has two digits |
| `Calendar.BcdRoundTripBack` | software/bsp/vtdr/DataManager.c:146-158 | Char2BCD undoes BCD2Char if and only if the byte is BCD |
| `Calendar.EncodeDecode` | software/bsp/vtdr/RS232.c:1218-1224 | A date of the years 0 to 99 survives being written as BCD |
| `Calendar.DecodeEncode` | software/bsp/vtdr/RS232.c:261-268 | A valid BCD clock survives being read |
| `Calendar.NegatedIs` | software/bsp/vtdr/RS232.c:1214-1216 | The unsigned interval, negated and read as signed, steps back by itself up to 2^31 minutes and forward by what is left to 2^32 above |
| `Calendar.ComputeTimeBeforeX` | software/bsp/vtdr/RS232.c:1205-1225 | For every 32-bit interval the clock written is the date that many minutes earlier if and only if year 0 is not left |
| `Calendar.OneAfterExactly` | software/bsp/vtdr/DataManager.c:464-520 | IfOneAfterAotherDay holds if and only if the day numbers differ by one, unless it is the first of January of year 0 or 1 |
| `Calendar.JudgeExactly` | software/bsp/vtdr/DataManager.c:530-557 | JudgeTimeSpace is HaveTime's difference in 0..20 and 0xff otherwise, except for close times across the turn of the years 0 and 1 |
| `Calendar.SlipHappens` | software/bsp/vtdr/DataManager.c:464-557 | The turn of the year is met: 00:05 of 01-01-01 is ten minutes after 23:55 of 00-12-31, and both functions miss it |
| `Calendar.JudgeAgrees` | software/bsp/vtdr/DataManager.c:530-557 | From year 2 on the two computations agree for all valid clocks |

## Left out

- HeapRuns.RequestHonoured: sizes and addresses of the small-memory heap count words of 4 bytes (`RT_ALIGN_SIZE`); the rounding of the requested bytes is modelled, the bytes inside a word are not told apart.
- HeapHeaders.CutHeaders: says nothing about `heap_end->prev`, which the code does not keep in step.
- SmallHeap.SmallHeap.Realloc: payload is preserved word by word, up to the smaller of the two word lengths.
- MessageQueue.MessageQueue.Fill: a copy into or out of a node is one step, which is sound because the node belongs to one call only; where a node lies in the pool is stated by NodeInside and NodesApart.
- MailboxLemmas.NobodyLeftAsleep: one IPC object at a time; threads that wait for something else appear as sleeping or running threads.
- EventLemmas.NoMissedWakeup: `need_schedule` and the call of `rt_schedule` are not modelled.
- MutexLemmas.NoInversion: one PRIO mutex and no other priority changes; nested mutexes, transitive inheritance and FIFO hand-off are not maintained by the code.
- TimerLemmas.EveryTimerOnTime: periodic timers have a period of at least 1, `rt_tick_set` is not called, and the soft timer thread and the ONESHOT and PERIODIC commands of `rt_timer_control` are not part of this model; a timeout function that restarts its own timer, and a check that does not return, end the runs it speaks of; what they do is stated by FireExactly, NeverEnds and TimerList.CheckAll.
- Timeouts.TimeoutsOnTime: a timeout function resumes threads and handles timers in a fixed order, whatever it finds; it does not handle a thread's own timer.
- TimerChecks.CheckEnds: with timeout functions that also stop timers or start them for later a ranking is sufficient only, because such an action can break any circle.
- TimerList.TimerList.CheckAll: a timer that is put into the list a second time stands in the sequence twice; what its links would look like is not modelled.
- Kernel.Kernel.Schedule: the context switch, the idle thread and stack checks are left out; some thread is READY.
- ThreadLemmas.RunPlaced: thread deletion and detach, the idle reaper, and suspending another thread that is inside a blocking call are left out.
- SlabHeap.RunKeeps: `rt_realloc`, `rt_calloc` and the statistics of the slab heap are left out; they are built from the modelled calls.
- SlabAllocator.Allocator.Malloc: page heads, zone headers, z_next and c_next are updated as arrays and a map of their own; that they can be read as one memory with the blocks of callers is stated by CellsApart.
- SlabAllocator.Allocator.Free: as for Malloc.
- Locking inside the allocators (`heap_sem`) is left out: they are modelled as sequential code, and the slab failure path that releases the semaphore twice does not appear.
- Object registration, hooks, debug logging, `detach` and `delete` of IPC objects, and the memory pool of mempool.c are left out.
- module.c, flashfile.c, the drivers, UART framing, flash writing and display code are left out.
