# CrossShim in Dafny

CrossShim runs ARM64 libraries on x86_64: QEMU executes the guest code, and the host side
around it implements a guest heap, a pool of vCPU workers with mailboxes, a cooperative thread
scheduler with pthread primitives, nested calls back into guest code, a module arena for
`dlopen`, and a UTF-8 decoder for wide streams. This project models those six parts and proves
what they promise. The guest CPU is abstracted to its register file and memory.

| part | files |
|---|---|
| request mailboxes and shutdown | `mailbox.dfy` (events), `mailbox_proofs.dfy` (what every event keeps), `mailbox_theorems.dfy` (theorems over runs), `mailbox_measure.dfy` (runs end), `mailbox_routing.dfy` (who serves whom), `mailbox_shutdown.dfy` (callers at shutdown), `mailbox_race.dfy` (why the completion is stored under the lock) |
| scheduler and pthread primitives | `scheduler.dfy` (operations and steps), `scheduler_core.dfy`, `scheduler_steps.dfy`, `scheduler_locks.dfy` (what every step keeps), `scheduler_runs.dfy`, `scheduler_balance.dfy`, `scheduler_rwlocks.dfy`, `scheduler_joins.dfy`, `scheduler_types.dfy` (theorems over reachable states and runs), `scheduler_meaning.dfy` (what the calls mean to their callers), `thread_manager.dfy` (the object, updated in place) |
| guest heap | `bits.dfy`, `blocks.dfy`, `heap.dfy` (the heap as a value, runs), `heap_allocator.dfy` (the object with its two indices), `guest_memory.dfy` (mapped fallback, chunked realloc) |
| nested guest calls | `a64.dfy` (the trampoline's instructions), `safe_call_frames.dfy` (frame layout), `safe_calls.dfy` (entry, call trees) |
| modules | `elf.dfy` (segment arithmetic), `modules.dfy` (arena, handles, imports) |
| UTF-8 | `utf8.dfy` |
| shared | `address_map.dfy` (fixed addresses, options), `sums.dfy` |

How the parts are modelled:

- **Mailboxes** are a state machine. Every lock, predicate evaluation, park, store and notify is
  an event of its own, and runs are arbitrary interleavings. `wait` releases the mutex and parks
  in one event. The callers' five second re-check is not used. All workers come online together,
  the pin override is unset, and the round-robin cursor does not overflow.
- **Scheduler** operations are functions of the whole state, in the order of effects of the
  handlers. The class `ThreadManager` performs the same operations by assignments to its fields;
  each method is proved to take the step its function gives, and to mean to its caller what
  `scheduler_meaning.dfy` says in terms of queues, holders and resume addresses. Clocks and fd
  readiness are nondeterministic: a step names the sleepers found due. A context switch may come at
  any time, also when nobody is runnable, which models the idle retries. Guest code must not place
  locks at address zero, nor destroy or re-initialise an object that has waiters.
- **Heap** addresses are natural numbers; 64-bit sums and masks are written out. Alignments are
  powers of two. The bump test `aligned + size > base + size` is modelled with its wrap-around,
  and the theorems say exactly when it breaks the heap. Whether the host grants a mapping and
  which chunks can be read and written are parameters; a failed write may have written part of its
  range.
- **Nested calls** are trees: guest code may leave any register file, write any words and trigger
  further calls, safe or not. No host exception unwinds through a call.
- **Modules**: whether pages can be mapped and relocations applied is a parameter of each load. A
  relocation failure leaves the slot used and the module unpublished, as in the code.

Findings, each stated as an example and an exact condition:

- `HeapAllocator::allocate` accepts a request whose frontier sum passes 2^64
  (`Heaps.OverflowExample`); it keeps the heap valid if and only if that does not happen
  (`Heaps.AllocateInv`, `Heaps.ReallocInv`, and `Heaps.RunInv` for whole runs).
- The cursor of the mapped blocks can pass 2^64: the second of two `posix_memalign` calls with
  alignment 2^63 is recorded at address zero (`GuestMemory.CursorExample`). The bookkeeping stays
  valid if and only if the cursor, rounded up and moved past the block, stays below 2^64
  (`GuestMemory.MapInv`).
- An accepted safe call can put its frame outside its chunk: 2^29 stack arguments on the main
  thread's stack (`SafeCallFrames.FrameOutOfChunkExample`); the frame is in its chunk if and only if
  the subtraction for the stack arguments does not pass zero (`SafeCallFrames.FrameInChunk`).
- A PT_LOAD segment that runs past 2^64 can be mapped below its own module
  (`Elf.WrappedExample`), and one of nearly 2^64 bytes can be mapped as a single page inside it
  (`Elf.OnePageExample`). For every header, a segment has its pages in its module's slot if and only
  if its end is there; a size that wraps to one page ends after the first byte, and one that wraps to
  zero has no pages (`Elf.MappingInSlot`).
- A startup file whose segments lie far apart gets an empty slot, and the next module is mapped over
  it under the same handle (`Elf.FarApartExample`, `Modules.OverlapExample`); slots stay apart if and
  only if the end of the span, rounded up to a MiB, stays below 2^64 (`Modules.NextSlot`).
- A startup file without PT_LOAD segments shares its handle with the next module
  (`Modules.SharedHandleExample`); a module answers to its own base address if and only if no empty
  module was published there before it (`Modules.OwnHandle`, `Modules.NewHandle`).
- Shutdown does not drain the mailboxes: a run leaves a caller asleep for ever
  (`MailboxShutdown.StrandedReached`, `MailboxShutdown.StrandedForEver`). When nothing moves any more
  a call has not returned if and only if no worker popped its request
  (`MailboxShutdown.ShutdownStrands`).
- A thread that had to wait for an rwlock goes on without it: a run ends with a woken reader in guest
  code and no reader counted (`SchedulerRwLocks.WokenWithoutLock`). A blocking call becomes a holder
  if and only if it does not have to wait (`SchedulerRwLocks.ReaderIffNoWait`,
  `SchedulerRwLocks.WriterIffNoWait`), and nothing else makes one (`SchedulerRwLocks.RwStepBalance`).

Where comments and code differ the model follows the code: `pthread_rwlock_rdlock` and
`pthread_rwlock_wrlock` announce a resume trampoline, but `context_switch` overwrites the saved
address because rwlock waits are missing from its list, so the trampolines are never reached
(`SchedulerRuns.RwTrampolineUnreached`).

## Model

| member | source | states |
|---|---|---|
| Mailbox.Pick | src/emulator.cpp:2507-2526 | the mailbox is a worker's, in 1..N, and the thread's affinity from then on, if and only if the pool is up; else it is 0 and the affinity stays; an affinity once assigned never changes |
| MailboxProofs.StepInv | src/emulator.cpp:2323-2386 | every event of every caller, worker and the shutdown loop keeps the protocol invariant |
| MailboxProofs.RunInv | src/emulator.cpp:2528-2689 | the invariant holds in every state of every interleaving |
| MailboxTheorems.NoLostWakeup | src/emulator.cpp:2559-2597 | no caller is parked un-notified on a request whose completion was signalled; no worker is parked un-notified behind a non-empty mailbox (unless a push is about to notify) or one the stop loop has passed |
| MailboxTheorems.ServedExactlyOnce | src/emulator.cpp:2326-2384 | requests are popped only by the owner of the mailbox they were pushed to, none twice, and every completed one was popped |
| MailboxTheorems.ReturnsOwnResult | src/emulator.cpp:2575-2688 | every value a caller returns is the one computed for its own request |
| MailboxTheorems.StickyRouting | src/emulator.cpp:2507-2526 | the mailbox indices one thread uses read 0...0 w...w with 1 <= w <= N |
| MailboxRouting.PoolComesUp | src/emulator.cpp:2346-2362 | the pool can come up whenever the main thread runs a request, and then every worker looks for work |
| MailboxRouting.PoolIsUsed | src/emulator.cpp:2507-2526 | in every run a call that begins while the pool is up uses a mailbox in 1..N, and one that begins before uses 0 |
| MailboxRouting.RoundRobin | src/emulator.cpp:2518-2523 | the k-th thread to be assigned gets worker 1 + k mod N, counted from the initial cursor, and uses it at once |
| MailboxRouting.InTurn | src/emulator.cpp:2518-2523 | any N assignments in a row go to N different workers |
| MailboxRouting.AssignedOnce | src/emulator.cpp:2507-2526 | no thread is assigned twice; its later calls go to the same worker |
| MailboxTheorems.NoWedge | src/emulator.cpp:2323-2386 | if no event but a spurious wakeup is possible and nobody is stopping, every caller has returned, every queue is empty and every request is completed |
| MailboxTheorems.ShutdownReachesAll | src/emulator.cpp:2171-2187 | if nothing more can happen during shutdown, the stop loop has finished and every worker has exited or never came online |
| MailboxShutdown.RequestAwaited | src/emulator.cpp:2575-2597 | in every run the caller of a request that is not completed is inside the call that made it |
| MailboxShutdown.ShutdownStrands | src/emulator.cpp:2323-2345 | when nothing more can happen during shutdown, a request's caller sleeps on it if and only if it was never popped, and it is completed if and only if it was |
| MailboxShutdown.ShutdownCallers | src/emulator.cpp:2323-2345 | and every caller is between calls or asleep on such a request |
| MailboxShutdown.StrandedForEver | src/emulator.cpp:2575-2597 | once the workers are gone no event, spurious wakeups and new calls included, completes a request or ends its call |
| MailboxShutdown.StrandedReached | src/emulator.cpp:2171-2187 | a run of the protocol that ends so, with shutdown between a push and its pop |
| MailboxMeasure.ProgressPays | src/emulator.cpp:2323-2386 | every event but a new call, a new shutdown and a spurious wakeup lowers a measure of the state |
| MailboxMeasure.MeasureBound | src/emulator.cpp:2323-2386 | the measure is at most 12 per caller, 6 per worker, 14 per request, 8 per mailbox, and 2 |
| MailboxMeasure.ProgressEnds | src/emulator.cpp:2528-2689 | so a stretch of any run without such events is no longer than the measure at its start |
| MailboxMeasure.AllReturn | src/emulator.cpp:2528-2689 | and when it cannot go on every call has returned, or, in a shutdown, every worker has left |
| MailboxRace.UnlockedStoreLosesWakeup | src/emulator.cpp:2369-2384 | storing the completion without the request mutex, in the window between a caller's check and its park, leaves that caller asleep on a completed request |
| MailboxRace.AbandonedForEver | src/emulator.cpp:2575-2597 | from then on no event but a spurious wakeup of that caller ends its sleep |
| MailboxRace.WindowReached | src/emulator.cpp:2369-2384 | the window is reached by a run of the protocol |
| Scheduler.Skip | src/thread_manager.cpp:329-340 | the first queue entry that is runnable, everything before it being stale |
| SchedulerCore.CoreSave | src/thread_manager.cpp:416-458 | after the save nobody runs, a thread that ran is last in line, and the address recorded for it is where it continues: the CPU's, or the trampoline of its pending wait |
| SchedulerCore.CoreSwitch | src/thread_manager.cpp:357-565 | a context switch keeps the thread/queue correspondence and runs the head of the runnable queue, to whose back the preempted thread and the due sleepers were added |
| SchedulerCore.CoreEnqueue | src/thread_manager.cpp:626-639 | blocking the current thread in a queue keeps the correspondence, and the duplicate check before queueing never finds it there already |
| SchedulerCore.CoreWakeFirst | src/thread_manager.cpp:642-667 | popping and unblocking the head of a wait queue always finds a blocked thread of that queue, and keeps the correspondence |
| SchedulerCore.CoreWakeAll | src/thread_manager.cpp:1921-1932 | unblocking a whole queue appends its threads, in order, to the runnable ones and keeps the correspondence |
| SchedulerLocks.UnlockLocks | src/thread_manager.cpp:1699-1743 | an unlock keeps every lock record coherent and strands no waiter: the thread it wakes is on its way to the mutex |
| SchedulerLocks.MutexResumeLocks | src/thread_manager.cpp:1576-1663 | a woken waiter that finds the mutex taken, or takes it, strands nobody else |
| SchedulerLocks.RwUnlockLocks | src/thread_manager.cpp:2273-2324 | releasing a reader or the writer and waking the next never lets readers and a writer hold the lock together |
| SchedulerLocks.BarrierWaitLocks | src/thread_manager.cpp:2354-2408 | an arrival keeps waiting equal to the queue length and below count |
| SchedulerRuns.StepInv | src/thread_manager.cpp:357-565 | every guest call, resume trampoline and context switch keeps the whole invariant; all but pthread_create only append to the runnable queue and take its head |
| SchedulerRuns.RunInv | src/thread_manager.cpp:357-565 | the invariant holds in every state of every run |
| SchedulerRuns.NoStrandedWaiter | src/thread_manager.cpp:1479-1743 | in every reachable state each thread queued on a mutex is BLOCKED with that mutex_wait_ptr and its saved PC at the mutex trampoline, and a free mutex with waiters has a RUNNABLE or RUNNING thread with that mutex_wait_ptr |
| SchedulerRuns.BlockedIffQueuedOnce | src/thread_manager.cpp:626-673 | a thread is BLOCKED exactly when it is in a mutex, condvar, rwlock, barrier or join queue, and then in exactly one, once |
| SchedulerRuns.WakeNeverDropped | src/thread_manager.cpp:642-667 | so in a reachable state no pop-and-unblock is dropped: the thread becomes runnable, last in line |
| SchedulerRuns.OneRunning | src/thread_manager.cpp:434-565 | at most the current thread is RUNNING, and the RUNNABLE threads are exactly those in the runnable queue, once each |
| SchedulerRuns.RwTrampolineUnreached | src/thread_manager.cpp:441-457 | no thread ever stands at an rwlock resume trampoline; an rwlock waiter continues at an ordinary address |
| SchedulerRuns.LockCoherence | src/thread_manager.cpp:1514-1535 | in every reachable state is_locked, lock_count > 0 and owner != 0 agree; an rwlock has no readers or no writer; a barrier's waiting is its queue length and below count |
| SchedulerRuns.PlaceImproves | src/thread_manager.cpp:329-340 | each selection moves a waiting thread up by one place or picks it; other steps leave its place |
| SchedulerRuns.BoundedWait | src/thread_manager.cpp:265-341 | from any reachable state, the thread at place k is among the next k + 1 selected if nobody calls pthread_create |
| SchedulerBalance.StepBalance | src/thread_manager.cpp:1479-1743 | each step raises lock_count by one exactly if it completes an acquisition, which happens only on a free or own mutex, and lowers it by one exactly if it unlocks |
| SchedulerBalance.LockCountBalance | src/thread_manager.cpp:1665-1743 | over any trace lock_count is its old value plus acquisitions minus successful unlocks |
| SchedulerBalance.NoTakeover | src/thread_manager.cpp:1479-1743 | while a mutex is held nobody but its owner acquires it, and only an unlock lowers its count |
| SchedulerBalance.BarrierBalance | src/thread_manager.cpp:2354-2408 | over any trace arrivals equal generations times count plus the change in waiting |
| SchedulerBalance.SerialInEachGeneration | src/thread_manager.cpp:2368-2384 | every generation that ended has a serial thread |
| SchedulerBalance.OneSerialPerGeneration | src/thread_manager.cpp:2368-2384 | and no second one |
| SchedulerRwLocks.RwStepBalance | src/thread_manager.cpp:1948-2324 | holders of an rwlock change only by calls that return 0, which find no writer, respectively nobody or the caller, and by unlocks; no trampoline, switch or other call changes them |
| SchedulerRwLocks.ReaderIffNoWait | src/thread_manager.cpp:1948-1993 | rdlock makes its caller a reader if and only if there is no writer; else the holders stay and the caller waits, to go on at its call site |
| SchedulerRwLocks.WriterIffNoWait | src/thread_manager.cpp:2102-2164 | wrlock makes its caller the writer if and only if the lock is its own or nobody's; else likewise |
| SchedulerRwLocks.ReaderBalance | src/thread_manager.cpp:1948-2324 | over any trace the reader count is its old value plus the read locks that did not wait minus the readers' unlocks |
| SchedulerRwLocks.WriterAcquired | src/thread_manager.cpp:2102-2271 | over any trace a new writer made a call that did not wait |
| SchedulerRwLocks.WokenWithoutLock | src/thread_manager.cpp:441-457 | a run in which a reader that waited and was woken runs guest code while the lock counts no reader |
| SchedulerJoins.StepJoins | src/thread_manager.cpp:1188-1442 | every step wakes a joiner only when its target has exited, keeps the value of a terminated thread until it is reaped, and reuses no thread id |
| SchedulerJoins.JoinAfterExit | src/thread_manager.cpp:1252-1298 | in every run a join resumes only after its target has exited |
| SchedulerJoins.JoinDeliversExit | src/thread_manager.cpp:1252-1298 | the value there to be joined is the one the target's pthread_exit was given, until it is reaped |
| SchedulerMeaning.SwitchKeepsThreads | src/thread_manager.cpp:357-565 | a switch wakes, blocks and ends nobody but due sleepers, and every thread continues where it would have |
| SchedulerMeaning.SwitchWakesDue | src/thread_manager.cpp:265-328 | a sleeping thread can run after a switch if and only if it is due |
| SchedulerMeaning.ParkMeaning | src/thread_manager.cpp:626-639 | a blocking caller is BLOCKED, last in its queue, with a context naming the queue's object and its resume address kept; no other thread or queue changes, and the next in line runs |
| SchedulerMeaning.WakeAllDrains | src/thread_manager.cpp:1921-1932 | waking a queue empties it and appends its threads, in order, to the runnable ones; no other thread or queue changes |
| SchedulerMeaning.LockMeaning | src/thread_manager.cpp:1479-1574 | lock returns 0 if and only if the mutex is free or the caller's, which then holds it once more and nothing else changed; else the caller waits in its queue at the mutex trampoline and the holder stays |
| SchedulerMeaning.ResumeLockMeaning | src/thread_manager.cpp:1576-1663 | the trampoline takes a free mutex and goes on at the call site, goes on if the mutex is gone, or waits again, last in line |
| SchedulerMeaning.TryLockMeaning | src/thread_manager.cpp:1665-1697 | trylock returns 0 if and only if the mutex is free, or recursive and the caller's; nobody waits or wakes |
| SchedulerMeaning.UnlockMeaning | src/thread_manager.cpp:1699-1743 | unlock lowers the count by one; from one to zero it moves the first waiter, if any, to the end of the runnable queue, and only that thread |
| SchedulerMeaning.CondWaitMeaning | src/thread_manager.cpp:1759-1803 | cond_wait unlocks the mutex once, as unlock does, and leaves the caller last on the condition variable, at its trampoline |
| SchedulerMeaning.ResumeCondMeaning | src/thread_manager.cpp:1805-1847 | the trampoline locks the mutex as lock does, and goes on at the call site when it has it |
| SchedulerMeaning.SignalMeaning | src/thread_manager.cpp:1910-1932 | signal moves the first waiter, if any, to the end of the runnable queue; broadcast moves all, in order |
| SchedulerMeaning.ReadLockMeaning | src/thread_manager.cpp:1948-1993 | rdlock returns 0 if and only if there is no writer and then counts one reader more; else the caller waits and nothing it holds changed |
| SchedulerMeaning.WriteLockMeaning | src/thread_manager.cpp:2102-2164 | wrlock returns 0 if and only if the lock is the caller's or nobody's, and then the caller is the writer |
| SchedulerMeaning.TryReadLockMeaning | src/thread_manager.cpp:2082-2100 | the same as rdlock, with EBUSY in place of waiting |
| SchedulerMeaning.TryWriteLockMeaning | src/thread_manager.cpp:2253-2271 | returns 0 if and only if nobody holds the lock, EBUSY otherwise; write_count is left alone |
| SchedulerMeaning.RwUnlockMeaning | src/thread_manager.cpp:2273-2324 | the writer's last unlock wakes the first waiting writer or else all readers in order; the last reader's wakes the first writer; nothing else wakes anybody |
| SchedulerMeaning.BarrierWaitMeaning | src/thread_manager.cpp:2354-2408 | an arrival is the serial one if and only if it completes the count, and then the waiting threads run in order of arrival; any other waits at the trampoline |
| SchedulerMeaning.JoinMeaning | src/thread_manager.cpp:1188-1250 | the four outcomes of join, and that a waiting joiner is last in the target's queue |
| SchedulerMeaning.ExitMeaning | src/thread_manager.cpp:1404-1442 | the caller is TERMINATED with its value, its join queue is empty and everybody in it can run, in order, after those already runnable; if nobody can run, the CPU stops at address zero |
| SchedulerMeaning.DetachMeaning | src/thread_manager.cpp:1382-1398 | a live thread becomes detached, a terminated one is erased, an unknown one gives ESRCH; no other thread and no queue changes |
| SchedulerMeaning.SleepMeaning | src/thread_manager.cpp:738-757 | the caller is SLEEPING, or ready if it was due at once, in no queue, and goes on where it was; every other thread is kept and the next in line runs |
| SchedulerMeaning.CreateMeaning | src/thread_manager.cpp:1082-1186 | the new thread has a fresh id, is RUNNABLE at its entry and first in line; no other thread, queue or lock changes |
| SchedulerMeaning.CreatedStarts | src/thread_manager.cpp:1082-1186 | and the next switch starts it at its entry |
| SchedulerMeaning.ResumeBarrierMeaning | src/thread_manager.cpp:2410-2435 | the caller goes on at its call site with no wait pending, and nothing else changes |
| SchedulerTypes.KindLasts | src/thread_manager.cpp:1445-1743 | the type a mutex has at one point of a trace it keeps until it is initialised again or destroyed |
| SchedulerTypes.TypesGive | src/thread_manager.cpp:1445-1574 | mutex_init, or the first lock of a statically initialised mutex, gives it the type asked for |
| SchedulerTypes.TryLockReadsType | src/thread_manager.cpp:1665-1697 | in every run a trylock of an own mutex succeeds if and only if that type is 1 |
| SchedulerTypes.BarrierInitMeaning | src/thread_manager.cpp:2327-2339 | EINVAL for count zero; else the count is the one given and nobody has arrived |
| SchedulerTypes.BarrierDestroyMeaning | src/thread_manager.cpp:2341-2352 | EINVAL for an unknown barrier, EBUSY exactly while threads wait, else removal |
| SchedulerTypes.EveryNthIsSerial | src/thread_manager.cpp:2354-2408 | from a barrier nobody waits at, exactly the arrivals whose number is a multiple of the count are serial |
| SchedulerTypes.InitialisedCount | src/thread_manager.cpp:2327-2408 | so after barrier_init(b, n) in a reachable state exactly every n-th wait is serial |
| ThreadManagers.ThreadManager.constructor | src/thread_manager.cpp:72-94 | starts with the main thread running and everything else empty |
| ThreadManagers.ThreadManager.SelectNextThread | src/thread_manager.cpp:265-341 | wakes the due sleepers, pops stale entries and returns the first runnable thread, if any |
| ThreadManagers.ThreadManager.ContextSwitch | src/thread_manager.cpp:357-565 | the switch step, including the cases without a successor; what it means is SchedulerMeaning.SwitchKeepsThreads |
| ThreadManagers.ThreadManager.Create | src/thread_manager.cpp:1082-1186 | SchedulerMeaning.CreateMeaning by assignments, with an id above every one in use; keeps the invariant |
| ThreadManagers.ThreadManager.Join | src/thread_manager.cpp:1188-1250 | SchedulerMeaning.JoinMeaning by assignments; a terminated target is reaped and its value delivered; keeps the invariant |
| ThreadManagers.ThreadManager.ResumeJoin | src/thread_manager.cpp:1252-1298 | delivers the value a terminated target exited with, reaps it and goes on at the call site; zero if another joiner was faster; keeps the invariant |
| ThreadManagers.ThreadManager.Detach | src/thread_manager.cpp:1382-1398 | SchedulerMeaning.DetachMeaning by assignments; keeps the invariant |
| ThreadManagers.ThreadManager.Exit | src/thread_manager.cpp:1404-1442 | SchedulerMeaning.ExitMeaning by assignments; keeps the invariant |
| ThreadManagers.ThreadManager.SleepCurrentThread | src/thread_manager.cpp:738-757 | SchedulerMeaning.SleepMeaning by assignments; keeps the invariant |
| ThreadManagers.ThreadManager.Lock | src/thread_manager.cpp:1479-1574 | SchedulerMeaning.LockMeaning by assignments; keeps the invariant |
| ThreadManagers.ThreadManager.ResumeLock | src/thread_manager.cpp:1576-1663 | SchedulerMeaning.ResumeLockMeaning by assignments; keeps the invariant |
| ThreadManagers.ThreadManager.TryLock | src/thread_manager.cpp:1665-1697 | SchedulerMeaning.TryLockMeaning by assignments; keeps the invariant |
| ThreadManagers.ThreadManager.Unlock | src/thread_manager.cpp:1699-1743 | SchedulerMeaning.UnlockMeaning by assignments; keeps the invariant |
| ThreadManagers.ThreadManager.CondWait | src/thread_manager.cpp:1759-1803 | SchedulerMeaning.CondWaitMeaning by assignments, although it queues itself before it unlocks; keeps the invariant |
| ThreadManagers.ThreadManager.ResumeCondWait | src/thread_manager.cpp:1805-1847 | SchedulerMeaning.ResumeCondMeaning by assignments; keeps the invariant |
| ThreadManagers.ThreadManager.Signal | src/thread_manager.cpp:1910-1919 | SchedulerMeaning.SignalMeaning by assignments; keeps the invariant |
| ThreadManagers.ThreadManager.Broadcast | src/thread_manager.cpp:1921-1932 | SchedulerMeaning.SignalMeaning by assignments: clearing the queue after the loop is clearing it before; keeps the invariant |
| ThreadManagers.ThreadManager.ReadLock | src/thread_manager.cpp:1948-1993 | SchedulerMeaning.ReadLockMeaning by assignments; keeps the invariant |
| ThreadManagers.ThreadManager.TryReadLock | src/thread_manager.cpp:2082-2100 | SchedulerMeaning.TryReadLockMeaning by assignments; keeps the invariant |
| ThreadManagers.ThreadManager.WriteLock | src/thread_manager.cpp:2102-2164 | SchedulerMeaning.WriteLockMeaning by assignments; keeps the invariant |
| ThreadManagers.ThreadManager.TryWriteLock | src/thread_manager.cpp:2253-2271 | SchedulerMeaning.TryWriteLockMeaning by assignments; keeps the invariant |
| ThreadManagers.ThreadManager.RwUnlock | src/thread_manager.cpp:2273-2324 | SchedulerMeaning.RwUnlockMeaning by assignments; keeps the invariant |
| ThreadManagers.ThreadManager.BarrierWait | src/thread_manager.cpp:2354-2408 | SchedulerMeaning.BarrierWaitMeaning by assignments; keeps the invariant |
| ThreadManagers.ThreadManager.ResumeBarrierWait | src/thread_manager.cpp:2410-2435 | SchedulerMeaning.ResumeBarrierMeaning by assignments; keeps the invariant |
| Bits.AlignUpMeaning | src/memory_manager.cpp:279-281 | for every 64-bit value the mask idiom gives the least multiple of the alignment not below the value, or zero if that would be 2^64 or more |
| Bits.AlignDownMeaning | src/memory_manager.cpp:275-277 | and the greatest one not above it |
| Blocks.NormalUnique | src/memory_manager.cpp:113-148 | a fully coalesced free set is determined by the bytes it covers |
| Blocks.MergedAdds | src/memory_manager.cpp:113-148 | merging a block with the neighbours it touches adds exactly its bytes, stays coalesced and conserves the byte sum |
| Heaps.AllocateInv | src/memory_manager.cpp:22-81 | allocate keeps the heap valid if and only if the frontier sum does not wrap; then it returns 0 if and only if no aligned range of the size lies in a free block or between the frontier and the end; the result is aligned and new; reuse loses fewer than 16 bytes, bumping fewer than the alignment |
| Heaps.RoomMeaning | src/memory_manager.cpp:31-78 | the two tests find room if and only if such a range exists, unless the sum wraps |
| Heaps.BestFitMeaning | src/memory_manager.cpp:31-63 | while a free block fits, the result is the first aligned address of a smallest block with room |
| Heaps.FreeInv | src/memory_manager.cpp:83-95 | free keeps the heap valid, removes just that block and loses no byte |
| Heaps.ReallocInv | src/memory_manager.cpp:150-183 | realloc keeps the heap valid if and only if it does not have to allocate with a frontier sum that wraps; a block that is large enough stays, growing fails if and only if there is no room; every other allocation is kept, the result holds the requested size, and fewer than 16 bytes are lost |
| Heaps.RunInv | src/memory_manager.cpp:22-183 | over any sequence of allocate, free and realloc the heap is valid throughout if and only if no request wraps, and then slack (space in use minus allocated minus free) is non-negative and at most the sum of the per-operation losses |
| Heaps.BlocksApart | src/memory_manager.cpp:22-183 | validity in intervals: all blocks non-empty, inside [base, high water mark], pairwise disjoint, free ones not touching |
| Heaps.OverflowExample | src/memory_manager.cpp:67-78 | a request just short of 2^64 bytes on the empty guest heap is granted and leaves no valid heap |
| HeapAllocators.AgreeRemove | src/memory_manager.cpp:98-110 | removing an entry from both indices keeps them holding the same blocks |
| HeapAllocators.AgreeInsert | src/memory_manager.cpp:145-147 | so does inserting one at the upper bound of its size |
| HeapAllocators.FirstIsBest | src/memory_manager.cpp:31-63 | the first block that fits in size order is a smallest one that fits |
| HeapAllocators.LowerBound | src/memory_manager.cpp:118 | the least key not below an address |
| HeapAllocators.Predecessor | src/memory_manager.cpp:121-122 | the greatest key below an address |
| HeapAllocators.FindEntry | src/memory_manager.cpp:103-109 | finds the size-index entry of a block among those of its size |
| HeapAllocators.HeapAllocator.constructor | src/memory_manager.cpp:19-20 | an empty valid heap |
| HeapAllocators.HeapAllocator.RemoveFreeBlock | src/memory_manager.cpp:98-110 | removes a block from both indices, which still agree |
| HeapAllocators.HeapAllocator.AddFreeBlock | src/memory_manager.cpp:113-148 | the new free set covers the old bytes and the added ones, coalesced; both indices agree |
| HeapAllocators.HeapAllocator.FindBest | src/memory_manager.cpp:31-63 | a smallest fitting block if any block fits, found through the size index |
| HeapAllocators.HeapAllocator.Carve | src/memory_manager.cpp:41-62 | gives back padding and any remainder of at least 16 bytes, and uses up exactly the rest |
| HeapAllocators.HeapAllocator.Allocate | src/memory_manager.cpp:22-81 | best fit, else the frontier, else 0; valid afterwards if and only if the frontier sum did not wrap |
| HeapAllocators.HeapAllocator.Free | src/memory_manager.cpp:83-95 | returns a known block to the free set and ignores any other address |
| HeapAllocators.HeapAllocator.Realloc | src/memory_manager.cpp:150-183 | allocates, frees, refuses, keeps or moves, as the source's cases; valid afterwards if and only if no frontier sum wrapped |
| GuestMemory.LiveApart | src/memory_manager.cpp:482-502 | live heap and mapped blocks never overlap |
| GuestMemory.MapInv | src/memory_manager.cpp:492-501 | a mapped block leaves the bookkeeping valid if and only if the cursor, rounded up and moved past the block, stays below 2^64; then the block is new, aligned and disjoint from all others |
| GuestMemory.CursorExample | src/hle/hle_memory.cpp:94-118 | after two posix_memalign calls with alignment 2^63 a block is recorded at address zero and the cursor is below the heap |
| GuestMemory.MemoryManager.constructor | src/memory_manager.cpp:204-206 | the empty heap at its fixed place, no mappings, the cursor at its base, memory zero |
| GuestMemory.MemoryManager.ReadMemory | src/memory_manager.cpp:394-429 | gives the bytes of the range if they can be read |
| GuestMemory.MemoryManager.WriteMemory | src/memory_manager.cpp:431-466 | writes the bytes if they can be written; never touches anything outside the range |
| GuestMemory.MemoryManager.Map | src/memory_manager.cpp:283-333 | succeeds if and only if the host grants a non-empty range; then zeroes it and touches nothing else |
| GuestMemory.MemoryManager.Zero | src/memory_manager.cpp:468-480 | succeeds if and only if every chunk can be written; then all bytes of the range are zero; never anything outside it changes |
| GuestMemory.MemoryManager.CopyChunks | src/memory_manager.cpp:559-572 | succeeds if and only if every chunk can be read and written; between ranges that do not overlap or wrap the destination then holds the source's old bytes; only the destination changes |
| GuestMemory.MemoryManager.AllocateGuestMemory | src/memory_manager.cpp:482-502 | 0 if and only if the heap is full and the mapping is refused, empty by wrap-around or at address zero; valid afterwards if and only if the heap's frontier sum did not wrap and the mapping made, if any, kept its cursor below 2^64; then a new aligned live block of at least the size, disjoint from all others, or 0 and nothing changed |
| GuestMemory.MemoryManager.MapBlock | src/memory_manager.cpp:492-501 | the mapped fallback: fails and changes nothing, or records a page-rounded, aligned block above every earlier one; valid if and only if the cursor fits |
| GuestMemory.MemoryManager.FreeGuestMemory | src/memory_manager.cpp:504-521 | removes exactly the given block |
| GuestMemory.MemoryManager.GetGuestAllocationSize | src/memory_manager.cpp:523-535 | the live size, 0 if and only if the address is not live |
| GuestMemory.MemoryManager.MoveBlock | src/memory_manager.cpp:554-576 | moves a block with its contents; fails if and only if there is no new block or a chunk cannot be copied, and then the old block stays; valid if and only if the new block breaks nothing |
| GuestMemory.MemoryManager.ReallocGuestMemory | src/memory_manager.cpp:537-577 | a block that is large enough is returned with nothing changed; growing fails if and only if there is no new block or a chunk cannot be copied; on success the first old-size bytes are the old contents, on failure the old block is live and unchanged; every other live block keeps its size and bytes; valid if and only if the block it needs, if any, breaks nothing |
| A64.TrampolineDecodes | src/emulator.cpp:1401-1410 | what the eight instruction words of the trampoline are |
| A64.TrampolineEnters | src/emulator.cpp:1401-1410 | executing them enters the address in the frame's first word with X0-X7 from the next eight, SP just above the frame, and no other register but X9 and X16 changed |
| A64.RunTrampoline | src/emulator.cpp:1401-1410 | fetching and executing the words has that effect |
| SafeCallFrames.FrameInChunk | src/emulator.cpp:2917-2940 | an accepted frame is 16-byte aligned and lies in its chunk, clear of the guards, if and only if the subtraction for its stack arguments does not pass zero |
| SafeCallFrames.AcceptedExactly | src/emulator.cpp:2925-2940 | a safe call on the default stack is accepted if and only if it is at most the seventh nested one and its frame has room between the guards of a chunk, or the subtraction for it passes zero |
| SafeCallFrames.FrameOutOfChunkExample | src/emulator.cpp:2925-2940 | 2^29 stack arguments on worker 0 at depth 1 are accepted with a frame near the end of the address space |
| SafeCallFrames.ChunksDisjoint | src/emulator.cpp:2266-2267 | chunks of distinct (worker, depth) pairs are disjoint and inside the safe-call region |
| SafeCallFrames.FramesDisjoint | src/emulator.cpp:2917-2940 | so frames, with their stack arguments, of distinct (worker, depth) pairs share no byte |
| SafeCallFrames.DefaultFrameWellPlaced | src/emulator.cpp:1762-1772 | start() keeps the stack pointer of a default-stack frame |
| SafeCallFrames.GivenFrameWellPlaced | src/emulator.cpp:2921-2923 | a frame below a caller-given stack top is well placed, within 16 bytes below that top, if and only if there is room for it |
| SafeCalls.Caller.SaveContext | src/emulator.cpp:2897-2914 | reads the whole register file |
| SafeCalls.Caller.RestoreContext | src/emulator.cpp:3087-3103 | writes the whole register file back |
| SafeCalls.Caller.PlaceFrame | src/emulator.cpp:2942-2975 | frame and stack arguments are in memory, nothing else changed |
| SafeCalls.Caller.Begin | src/emulator.cpp:1724-1772 | LR at the return stub, PC at the entry, SP kept if and only if it points into the main stack, the worker's stack or a mapping, every other register as it was; one level deeper, running if there is a CPU |
| SafeCalls.Caller.EnterSafe | src/emulator.cpp:2915-2977 | from a well placed frame whose address start() leaves in SP the target is entered as section 6.8.2 of AAPCS64 requires: the first eight arguments in X0-X7 (zero where missing), the rest at SP, SP 16-byte aligned; if SP is reset, target and arguments are what lies below the top of the main stack; nothing but the frame is written |
| SafeCalls.Caller.EnterCall | src/emulator.cpp:2915-2977 | an accepted safe call with room for its frame enters its target so if and only if start() leaves SP at the frame, and from the top of the main stack otherwise; on the default stack it writes only its own chunk; a refused one changes nothing |
| SafeCalls.Caller.EnterDirect | src/emulator.cpp:2980-2999 | argument i is in Xi for i below eight, the rest at the caller's SP; LR at the return stub, PC at the target, SP kept or reset; every other register and word as it was |
| SafeCalls.Caller.RunBody | src/emulator.cpp:1797-2043 | registers after a body are what guest code left last, safe calls in between changing nothing; on the default stack the calls in it write only chunks of greater depth |
| SafeCalls.Caller.LastGuestLeft | src/emulator.cpp:3085-3103 | safe calls after the last stretch of guest code leave the registers it left |
| SafeCalls.Caller.CallFunction | src/emulator.cpp:2828-3111 | for every tree of nested calls a safe call restores the full register file, tl_running and call_depth; the result is the X0 left when start() ended, or -1 if it was refused or could not start; an accepted safe call enters its target as EnterCall says, a plain one as EnterDirect says; on the default stack the whole tree leaves every frame of an outer depth and of other workers alone, and the call's own stack arguments survive, but for what guest code wrote |
| Elf.GetMinVaddr | src/elf_loader.cpp:35-44 | the least PT_LOAD address, 0 if there is none |
| Elf.GetMemorySize | src/elf_loader.cpp:51-69 | the 64-bit span between least start and greatest end |
| Elf.Bounds | src/elf_loader.cpp:51-69 | both bound every PT_LOAD segment and both are attained |
| Elf.SpanMeaning | src/elf_loader.cpp:35-69 | the least address of a PT_LOAD segment, and the 64-bit distance from there to the greatest end |
| Elf.NoSpan | src/elf_loader.cpp:35-69 | both are zero if there is no such segment but at the last address |
| Elf.MappingInSlot | src/elf_loader.cpp:230-247 | at every aligned 64-bit base and for every segment header, a segment has its pages in its module's slot if and only if the segment's end, as far as the 64-bit size reaches, is there |
| Elf.MappedSize | src/elf_loader.cpp:247 | the size given to map: the sum of memory size and page offset, or zero, or a wrapped value below the offset |
| Elf.SlotBounds | src/emulator.cpp:3160-3161 | the slot covers the span if and only if the span's end, rounded up to a MiB, stays below 2^64; otherwise it ends at or below its base |
| Elf.UnwrappedEndInSlot | src/elf_loader.cpp:51-69 | if no segment runs past 2^64, all of them end in the slot if and only if the span fits |
| Elf.WrappedExample | src/elf_loader.cpp:238-247 | two segments, one past 2^64, with a mapping below the module |
| Elf.OnePageExample | src/elf_loader.cpp:244-247 | a segment of 2^64 - 1 bytes at page offset 16 is mapped as one page, inside its slot |
| Elf.FarApartExample | src/elf_loader.cpp:238-247 | two pages at the ends of the address space: an empty slot, and a mapping below the module |
| Modules.NextSlot | src/emulator.cpp:3160-3161 | with the next module the slots are apart and upwards if and only if they were before and its span fits |
| Modules.MappingsDisjoint | src/emulator.cpp:3410-3414 | mappings of distinct published modules do not overlap |
| Modules.ContainedMeaning | src/elf_loader.cpp:238-247 | all pages of a module lie in its slot if and only if all its segments end there |
| Modules.PagesInSlot | src/elf_loader.cpp:238-247 | a published module without wrapping segments has every page it maps in [base, next MiB boundary) if and only if it has no segment or its least address is not the sentinel |
| Modules.HandleStable | src/emulator.cpp:3326-3331 | publishing more modules never changes what a handle resolves to |
| Modules.OwnHandle | src/emulator.cpp:3326-3331 | a published module answers to its own base if and only if no empty module was published there before it |
| Modules.NewHandle | src/emulator.cpp:3326-3331 | the same at load time: no empty module sits where the cursor stands |
| Modules.SharedHandleExample | src/emulator.cpp:3155-3161 | a startup file without segments and the next module share a handle |
| Modules.OverlapExample | src/emulator.cpp:3155-3161 | after a startup module whose span does not fit the next one maps the same page and has the same handle |
| Modules.ImportStable | src/emulator.cpp:3290-3324 | an import that resolves, under a plain or versioned name, keeps its address after any further loads |
| Modules.FirstExportMeaning | src/emulator.cpp:3316-3323 | the export of the first module that has the name or the base name, the name first within it; 0 if none has |
| Modules.VersionIgnored | src/emulator.cpp:3291-3324 | a versioned name without any entry of its own resolves as its base name does |
| Modules.ExportInSegment | src/elf_loader.cpp:287-292 | a symbol in a PT_LOAD segment is exported at that segment's load address plus its offset, inside the slot if the segment ends there |
| Modules.BaseNameMeaning | src/emulator.cpp:3291-3296 | the version suffix starts at the first '@' |
| Modules.ModuleTable.constructor | src/emulator.cpp:1282-1295 | an empty arena at CODE_BASE |
| Modules.ModuleTable.Load | src/elf_loader.cpp:225-293 | maps at the cursor and moves the cursor to the end of the slot; old slots and new are apart if and only if they were and the span fits |
| Modules.ModuleTable.LoadLibrary | src/emulator.cpp:3141-3206 | publishes the module at the end, or leaves the published modules alone; the cursor moves past every mapped file; afterwards slots are apart and the new pages in their slot if and only if slots were apart, the span fits and every segment ends in the slot; the new module has its own handle if and only if no empty module sat there |
| Modules.ModuleTable.LoadModule | src/emulator.cpp:3375-3442 | succeeds exactly if span, arena, capacity, mapping and relocation allow; the slot ends at or below HEAP_BASE; slots stay apart; the cursor moves exactly if the file was mapped; the vector never moves |
| Modules.ModuleTable.DlOpen | src/emulator.cpp:3444-3507 | a file already loaded, by path or without a path by name, gives its handle again and one more reference; any other is loaded if and only if loading is asked for and possible, at the cursor, with one reference; otherwise 0 and nothing changes; looking a handle up finds its module if and only if no empty one was published there before |
| Modules.ModuleTable.DlClose | src/emulator.cpp:3534-3543 | counts down, never below zero, and unloads nothing |
| Modules.ModuleTable.FindModuleByBase | src/emulator.cpp:3326-3331 | the first module at the address |
| Modules.ModuleTable.ResolveImport | src/emulator.cpp:3290-3324 | a stub under the full name, else under the base name; else a global likewise; else the export of the first module that has either, the full name first; else 0 |
| Utf8.DecodesGrammar | src/hle/hle_file.cpp:357-420 | a code point is decoded, with k bytes, exactly if the first k bytes are a UTF8-char of section 4 of RFC 3629 |
| Utf8.DecodedEncodes | src/hle/hle_file.cpp:357-420 | it is a scalar value whose encoding by section 3 of RFC 3629 is the bytes consumed |
| Utf8.EncodedDecodes | src/hle/hle_file.cpp:357-420 | decoding the encoding of any scalar value, whatever follows, gives it back |
| Utf8.DecodeEncodeAll | src/hle/hle_file.cpp:422-438 | decoding the encoding of any scalar sequence gives it back |
| Utf8.EncodeDecodeString | src/hle/hle_file.cpp:422-438 | the output of a successful decode encodes to the input |
| Utf8.DecodesExactly | src/hle/hle_file.cpp:422-438 | the decoder succeeds exactly on encodings of scalar sequences, and its output is the only one |
| Utf8.DecodesOctets | src/hle/hle_file.cpp:422-438 | and exactly on concatenations of UTF8-chars |
| Utf8.DecodeStringToWchars | src/hle/hle_file.cpp:422-438 | the loop computes that decoding |

## Left out

- QEMU, LibAFL, the JIT, signal wrappers, the Rust bridge, logging, profiling and the watchdog: foreign code or scaffolding.
- `pthread_cond_timedwait`, `pthread_join_nonblocking`, futexes, blocking I/O and epoll resumes: they run on after a context switch as if still the same thread, or are dispatched elsewhere.
- ThreadManagers.ThreadManager.ResumeCondWait: return addresses of the waits are not modelled, so nothing is said about where a condition wait that blocks on its mutex returns to.
- SchedulerRuns.LockCoherence: rwlock recursion depth is not claimed, because `write_count` is set on one path only.
- ThreadManagers.ThreadManager.Create: stack and TLS allocation, thread-id overflow and 32-bit counters are not modelled.
- The init and destroy handlers of mutexes, condition variables, rwlocks and barriers are operations of the runs but not methods of `ThreadManager`: each assigns one record.
- ThreadManagers.ThreadManager.SelectNextThread: the sleepers that are due come in a given list instead of a scan of clocks; I/O waiters are not modelled.
- GuestMemory.MemoryManager.ReadMemory: the second attempt on a separate host copy after a failed guest read is not modelled.
- GuestMemory.MemoryManager.WriteMemory: nor is that after a failed guest write.
- GuestMemory.MemoryManager.ReallocGuestMemory: guest bytes are one memory; which region or host pointer backs them is not modelled.
- SafeCalls.Caller.CallFunction: no host exception unwinds through a call; frame addresses that wrap are written unwrapped, and nothing is said about those calls' memory.
- SafeCallFrames.FramesDisjoint: workers 0..N only; other guest threads share the default region.
- Modules.ModuleTable.Load: writing segment contents, zeroing BSS and applying relocations are not modelled, only where the pages go.
- Mailbox.Pick: the pin override and the cursor's overflow are not modelled.
- Constructors and init_array calls, dlsym, dladdr, path translation, stdio, stat and the other libc handlers: easy plumbing.
