# Verified model of the dd framework's cores

The framework is a C++ library with a usermode fiber scheduler (`ukern`), intrusive containers, a
handle table, message queues, tick arithmetic, a heap and a Vulkan command recorder. This project
models the parts in which behaviour is decided by state that several calls share, and proves what
those calls keep over every run. `dafny verify dfyconfig.toml` checks all of it.

Each core has two layers. The lower one is imperative, as the source is: classes with the source's
fields and loops. The upper one is a value model. Every method is proved to do to the object what a
function does to the value, and what the source promises is proved about the values, over all
states and all runs.

| file | models |
|---|---|
| `Scheduler.dfy`, `SchedulerRuns.dfy`, `SchedulerLaws.dfy`, `SchedulerTurns.dfy`, `SchedulerBoot.dfy`, `UserScheduler.dfy` | the fiber scheduler: its calls as functions, its runs, what each call does to the fields, turns among equals, the broken first switch, the class |
| `CriticalSection.dfy`, `LockHandover.dfy`, `LockRace.dfy` | the lock word, the owner's wait list and hand-over; a contended run; the accesses to the word on several cores |
| `HandleTable.dfy` | 256 slots with the free list threaded through the generation counters |
| `BusyMutex.dfy` | the lock with a 16-bit release and a 16-bit ticket count |
| `IntrusiveTree.dfy`, `IntrusiveList.dfy` | pointer surgery on sibling chains and on rings |
| `MessageQueue.dfy` | the ring buffer and the protocol of its two condition variables |
| `CommandBuffer.dfy`, `RecorderLaws.dfy`, `Scopes.dfy`, `PushedStages.dfy`, `Barriers.dfy`, `CommandRecorder.dfy` | lazy recording of commands against the simple recorder; fields, slots and pushes; which scopes are opened; which stages have a push constant; barriers and scopes; the class |
| `TimeSpan.dfy` | ticks and nanoseconds, saturation and 64-bit bounds, wake-up deadlines |
| `ExpHeap.dfy` | the first-fit and best-fit scans |
| `Wrappers.dfy`, `Arithmetic.dfy`, `Sequences.dfy` | the option type; facts about products; sequences without duplicates |

## How the source is read

- Members that empty constructors leave unset (message queue counters, command buffer flags and
  targets, a fiber's `waitable_object`) start as zero or null.
- The scheduler lock is held from the start of a call to its `SwitchToFiber`, and the scheduler fiber
  goes on under it, so a call is one step and a dispatch is one step. Clock advances and stores to
  lock words are steps of their own.
- The scheduler's lists are sequences; `IntrusiveList.dfy` proves that the linked rings refine these.
  A fiber's `wait_list` is an ordered sequence, and the loop at
  `libraries/lib_dd/source/ukern/ukern_fiberlocalstorage.cpp:42-45` is taken by its comment, "transfer
  waiters to new owner": every waiter moves, in order. It is not derived from the range-for, whose
  end is captured before the first element is unlinked.
- Handles are resolved through a finite map, which `HandleTable.dfy` proves the table refines. Slot
  and handle returned to `CreateThreadImpl` are parameters. Nothing in the scheduler frees a
  handle, so a handle of an exited fiber still names its storage; that storage stays, marked
  `Exiting`, until a new fiber reuses it. The main fiber does not exit.
- Core masks are sets of core numbers. `|`, `&`, `>>` on fields that do not overlap are `+`, `%`, `/`.
  `AlignUp` is arithmetic for any positive alignment; `ExpHeap.AlignUpIsMask` proves that for powers of two it is the
  source's bit mask.
- The lock protocol is on one core, each fiber in at most one critical section, none exiting inside
  one. On one core nothing else runs between the accesses of `Enter`, so it is one step up to its
  switch; `UserScheduler.UserScheduler.Enter` spells out the accesses. `LockRace.dfy` takes the accesses one by one, on
  any number of cores.
- `BusyMutex::Leave` increments a plain 16-bit field: load and store are separate steps.
- A Vulkan call is an append to a trace; the mapped memory is a map from slots to blocks; each stage
  has one push-constant register. Whether a buffer needs relocation, and whether the pool then
  records a copy, are parameters.
- Ring indices are 32-bit in the source; `MessageQueue.MessageQueue.SendMessageImpl` states that their sum does not overflow
  for capacities up to 2^30.

## Where the code does less than it seems to promise

- The main fiber's first switch enters `InternalSchedulerMainThreadFiberMain`, which queues the fiber
  whatever its state. If that switch is a lock wait, the fiber is then both in the suspended list
  and in a run queue. `SchedulerRuns.StepKeepsInv` shows that this is the only step that breaks the
  lists, and `SchedulerBoot.BootsWaitingHappens` gives a run that reaches it.
- `UpdateResourceBufferIfNecessary` pushes nothing for a stage whose flag is clear, and the setters skip values
  that are already set. So a stage of which nothing has been changed since `Begin` has no push constant at all,
  where flushing everything at every draw would point it at a block of zeros: after `Begin`, texture slot 0 and
  sampler slot 0 for the fragment stage, a draw finds no block. `PushedStages.DrawFindsStage` says for every
  draw and stage exactly when it finds one, `PushedStages.ZeroSlotsNotPushed` is the example.
- A texture barrier not for the bottom of the pipe, and a buffer barrier without relocation, do not close the
  rendering scope. `Barriers.BarriersOutsideIff` says exactly which sequences of calls keep all barriers outside
  scopes, `Barriers.BarrierInsideScope` is an example that does not.
- On two cores `Enter` can abort and leave a lock unusable: if the owner stores 0 between the compare-exchange and the
  setting of the bit, the word becomes the bare waiter bit, and the next round asks to wait for handle 0.
  `LockRace.RaceAborts` gives the run, `LockRace.SetBitKillsIff` says exactly when setting the bit does this, and
  `LockRace.DeadForever` that nobody enters such a lock again.
- A thread that finds a `BusyMutex` taken never enters: its own ticket keeps the two counts apart
  (`BusyMutex.SpinnerNeverEnters`).
- `SetRenderTargets` leaves the entries behind the new targets as they were, so a shorter list shows the
  rest of a longer one (`CommandBuffer.AttachmentsExact`, `CommandBuffer.LeftoverTarget`).
- `GetDrawMemorySize` multiplies two 32-bit numbers before widening; when the product wraps, the size may be
  too small (`CommandBuffer.MemorySufficesIff`, `CommandBuffer.MemorySizeWraps`).
- The exact-size exit of the best-fit scan cannot be taken, because a fitting block is larger than the
  request by at least a header (`ExpHeap.ExactSizeNeverFits`).
- `GetAbsoluteTimeToWakeup` turns a zero span into the largest deadline, so the sleep theorem is about
  positive durations, as its comment says.

## Model

| member | source | states |
|---|---|---|
| `SchedulerRuns.StepKeepsInv` | libraries/lib_dd/source/ukern/ukern_scheduler.cpp:128-447 | from a good state every enabled call is defined, and it leads to a good state (each fiber in at most the one list its state names, running fibers each current on one core, wait lists disjoint) if and only if it is not the main fiber's first switch made as a lock wait |
| `SchedulerRuns.RunKeepsInv` | libraries/lib_dd/source/ukern/ukern_scheduler.cpp:128-447 | every state of every run of create, start/suspend, mask change, dispatch, sleep, lock, unlock and exit that boots by another switch is good |
| `SchedulerRuns.InitInv` | libraries/lib_dd/source/ukern/ukern_scheduler.cpp:167-220 | the initialised scheduler, with the main fiber running on core 0, is good |
| `SchedulerRuns.BootsWaitingBreaks` | libraries/lib_dd/include/dd/ukern/ukern_scheduler.hpp:77-86 | a first switch of the main fiber that is a lock wait leaves the lists inconsistent |
| `SchedulerBoot.BootsWaitingHappens` | libraries/lib_dd/include/dd/ukern/ukern_scheduler.hpp:77-86 | a concrete run on two cores reaches that step |
| `SchedulerRuns.PickedFiber` | libraries/lib_dd/source/ukern/ukern_scheduler.cpp:58-73 | the dispatched fiber is scheduled, its mask has the core and its timeout has passed; no fiber of which that is true has a higher priority, and none before it in its list; nothing is picked only if there is none |
| `SchedulerTurns.NoSecondTurn` | libraries/lib_dd/source/ukern/ukern_scheduler.cpp:58-165 | in every run that does not boot by a lock wait: if a fiber is dispatched twice while another of its priority stands undisturbed in the list, the other's mask did not have that core the second time, or its timeout had not passed |
| `SchedulerTurns.StepShuffles` | libraries/lib_dd/include/dd/ukern/ukern_scheduler.hpp:106-134 | any step other than a first switch made as a lock wait changes any run queue at most by taking one fiber out and putting it at the back |
| `SchedulerRuns.SleepNeverEndsEarly` | libraries/lib_dd/source/ukern/ukern_scheduler.cpp:22-36 | in every run that does not boot by a lock wait, a fiber that sleeps for a positive span is not dispatched again until the ticks elapsed amount to the span, for every frequency up to 10^9 and whether or not the deadline wraps or saturates |
| `SchedulerRuns.Bystander` | libraries/lib_dd/source/ukern/ukern_scheduler.cpp:321-447 | a step other than a first switch made as a lock wait, and not aimed at a fiber that is queued, suspended or asleep, leaves its record as it was apart from its waiters |
| `SchedulerRuns.AddLists` | libraries/lib_dd/include/dd/ukern/ukern_scheduler.hpp:106-134 | queueing a fiber that is in no list puts it into exactly the list that its activity and priority name |
| `SchedulerRuns.LockInv` | libraries/lib_dd/source/ukern/ukern_scheduler.cpp:389-426 | a lock wait, or its refusal, keeps the scheduler good |
| `SchedulerRuns.ReleaseInv` | libraries/lib_dd/source/ukern/ukern_fiberlocalstorage.cpp:29-50 | handing the lock and the remaining waiters to the first waiter keeps the scheduler good |
| `SchedulerLaws.CreateLaw` | libraries/lib_dd/source/ukern/ukern_scheduler.cpp:227-267 | the new fiber's priority, mask, handle, level and state; it is last in the suspended list and named by its handle; everything else stays |
| `SchedulerLaws.StartedQueue` | libraries/lib_dd/source/ukern/ukern_scheduler.cpp:345-368 | a new fiber that is started is last in the queue that its priority names, and the suspended list is as before its creation |
| `SchedulerLaws.MaskLaw` | libraries/lib_dd/source/ukern/ukern_scheduler.cpp:321-343 | the mask is the one asked for, a queued fiber goes to the back of its queue, everything else stays |
| `SchedulerLaws.ActivityLaw` | libraries/lib_dd/source/ukern/ukern_scheduler.cpp:345-368 | starting a suspended fiber moves it to the back of the queue of its priority, suspending a queued one moves it to the suspended list; otherwise only the level changes |
| `SchedulerLaws.RunLaw` | libraries/lib_dd/source/ukern/ukern_scheduler.cpp:58-138 | a fiber is dispatched if and only if one is scheduled, allowed on the core and past its timeout; it is one of highest priority and first of those in its queue, and it alone changes |
| `SchedulerLaws.PauseLaw` | libraries/lib_dd/source/ukern/ukern_scheduler.cpp:370-387 | the timeout is noted unless it is 0, the fiber is last in its queue, or suspended if dormant, and the core is free; everything else stays |
| `SchedulerLaws.QuitLaw` | libraries/lib_dd/source/ukern/ukern_scheduler.cpp:269-282 | the fiber is exiting, in no queue, not suspended and on no core, and nothing else changes |
| `SchedulerLaws.ExitedNeverRuns` | libraries/lib_dd/source/ukern/ukern_scheduler.cpp:146-157 | in every run that does not boot by a lock wait, no step after a fiber's exit dispatches it until a new fiber has reused its storage |
| `SchedulerLaws.LockCheckLaw` | libraries/lib_dd/source/ukern/ukern_scheduler.cpp:400-407 | a lock wait is refused for an unknown handle or the caller's own, and for a word that is not the handle with the bit, with the error of each, and only then |
| `SchedulerLaws.LockLaw` | libraries/lib_dd/source/ukern/ukern_scheduler.cpp:389-426 | refused with nothing changed, or the caller's wait fields are set, it is last of the named fiber's waiters and of the suspended list, and its core is free |
| `SchedulerLaws.UnlockCheckLaw` | libraries/lib_dd/source/ukern/ukern_scheduler.cpp:438-441 | a hand-over is refused without waiters, and with waiters if the word is not the caller's handle with or without the bit |
| `SchedulerLaws.UnlockLaw` | libraries/lib_dd/source/ukern/ukern_fiberlocalstorage.cpp:29-50 | refused with nothing changed, or word, waiters, result, state and lists of the next owner in fields; everything else stays |
| `UserScheduler.UserScheduler.UnlinkFiber` | libraries/lib_dd/source/ukern/ukern_scheduler.cpp:136 | the fiber leaves whichever list it is in; all else stays |
| `UserScheduler.UserScheduler.AddToSchedulerUnsafe` | libraries/lib_dd/include/dd/ukern/ukern_scheduler.hpp:106-134 | refines `AddToScheduler`: suspended list if dormant, else the back of the queue of the priority, with the state to match |
| `UserScheduler.UserScheduler.FindSchedulable` | libraries/lib_dd/source/ukern/ukern_fiberlocalstorage.cpp:20-27 | one list scan finds the first fiber that is scheduled, allowed on the core and past its timeout, in these fields, and nothing only if there is none |
| `UserScheduler.UserScheduler.SelectFiber` | libraries/lib_dd/source/ukern/ukern_scheduler.cpp:58-73 | the five scans refine the search from the highest priority down, of which `PickedFiber` says what it finds |
| `UserScheduler.UserScheduler.DispatchFiber` | libraries/lib_dd/source/ukern/ukern_scheduler.cpp:128-138 | the fiber runs on the core and is in no list; all else stays; dispatching a scheduled fiber on an idle core keeps the scheduler good |
| `UserScheduler.UserScheduler.ReturnToScheduler` | libraries/lib_dd/source/ukern/ukern_scheduler.cpp:139-165 | the core is idle; a fiber still running is queued again, one that waits or exits is not, except for the main fiber's first switch; a good scheduler stays good |
| `UserScheduler.UserScheduler.CreateThreadImpl` | libraries/lib_dd/source/ukern/ukern_scheduler.cpp:227-267 | which error each bad argument or exhausted resource gives, with nothing changed; otherwise the new fiber is suspended and named by its handle; a good scheduler stays good |
| `UserScheduler.UserScheduler.SetCoreMaskImpl` | libraries/lib_dd/source/ukern/ukern_scheduler.cpp:321-343 | result and state for an unknown handle, the same mask and a new mask; afterwards the fiber has the mask; a scheduled fiber goes to the back of its queue; a good scheduler stays good |
| `UserScheduler.UserScheduler.SetActivityImpl` | libraries/lib_dd/source/ukern/ukern_scheduler.cpp:345-368 | the same for start and suspend; afterwards the fiber has the level; a scheduled or suspended fiber moves between queue and suspended list |
| `UserScheduler.UserScheduler.SleepThreadImpl` | libraries/lib_dd/source/ukern/ukern_scheduler.cpp:370-387 | the deadline is set unless it is 0, and the fiber switches away; a good scheduler stays good |
| `UserScheduler.UserScheduler.ExitFiberImpl` | libraries/lib_dd/source/ukern/ukern_scheduler.cpp:269-282 | the fiber's state is exiting, its core idle, and it is in no queue and not in the suspended list; a good scheduler stays good |
| `UserScheduler.UserScheduler.ArbitrateLockImpl` | libraries/lib_dd/source/ukern/ukern_scheduler.cpp:389-426 | either an error and nothing changed, or the caller is last in the owner's wait list, suspended and off its core, with the result of the wait still to come; a good scheduler stays good exactly if this is not the main fiber's first switch |
| `UserScheduler.UserScheduler.EndFiberWait` | libraries/lib_dd/include/dd/ukern/ukern_waitableobject.hpp:27-47 | the waiter leaves the suspended list, is queued with its result, and no longer waits on anything |
| `UserScheduler.UserScheduler.TransferWaiters` | libraries/lib_dd/source/ukern/ukern_fiberlocalstorage.cpp:41-45 | one list of waiters is emptied and its content appended to the other in order; all other fibers stay |
| `UserScheduler.UserScheduler.ReleaseLockWaitListUnsafe` | libraries/lib_dd/source/ukern/ukern_fiberlocalstorage.cpp:29-50 | refines the hand-over: lock word, wait lists and queues |
| `UserScheduler.UserScheduler.ArbitrateUnlockImpl` | libraries/lib_dd/source/ukern/ukern_scheduler.cpp:428-447 | the errors of a caller without waiters or with another's word, else the hand-over; a good scheduler stays good |
| `UserScheduler.UserScheduler.Enter` | libraries/lib_dd/include/dd/ukern/ukern_internalcriticalsection.hpp:28-51 | takes a free lock, or sets the bit and waits without aborting; returns entered exactly when the caller holds the lock; consistency is kept |
| `UserScheduler.UserScheduler.ResumeEnter` | libraries/lib_dd/include/dd/ukern/ukern_internalcriticalsection.hpp:46-49 | in every run, when a waiting `Enter` is resumed, the arbitration call returns success from `last_result` and the caller has the lock |
| `UserScheduler.UserScheduler.TryEnter` | libraries/lib_dd/include/dd/ukern/ukern_internalcriticalsection.hpp:53-58 | takes a free lock and says so, else changes nothing; consistency is kept |
| `UserScheduler.UserScheduler.Leave` | libraries/lib_dd/include/dd/ukern/ukern_internalcriticalsection.hpp:60-65 | frees the lock or hands it over, without aborting; consistency is kept |
| `CriticalSection.ActKeeps` | libraries/lib_dd/include/dd/ukern/ukern_internalcriticalsection.hpp:28-65 | every act allowed in a consistent state neither aborts nor breaks consistency |
| `CriticalSection.RunConsistent` | libraries/lib_dd/include/dd/ukern/ukern_internalcriticalsection.hpp:28-65 | in every run every state is consistent: word = handle of the one holder plus waiter bit, bit = holder has waiters, waiters = fibers waiting for that lock |
| `CriticalSection.RunNeverAborts` | libraries/lib_dd/include/dd/ukern/ukern_internalcriticalsection.hpp:46-63 | no act of a run can abort before its switch: the checks of the arbitration calls made by `Enter` and `Leave` pass; what a waiting `Enter` finds on resuming is in `EnterReturnsOwner` |
| `CriticalSection.OwnerFacts` | libraries/lib_dd/include/dd/ukern/ukern_fiberlocalstorage.h:78 | a non-zero word names a fiber that holds the lock, and masking the bit gives its handle |
| `CriticalSection.LockExcludes` | libraries/lib_dd/include/dd/ukern/ukern_internalcriticalsection.hpp:28-65 | at any time in any run a lock has at most one holder, its word names it and its bit says whether it has waiters |
| `CriticalSection.EnterReturnsOwner` | libraries/lib_dd/include/dd/ukern/ukern_internalcriticalsection.hpp:46-50 | a fiber resumed inside `Enter` holds the lock; the result it then reads is success, so it does not abort, and the word carries its handle, so the loop ends |
| `CriticalSection.QueueStep` | libraries/lib_dd/source/ukern/ukern_fiberlocalstorage.cpp:29-50 | each act appends to the queue of a lock (holder, then waiters) or, for `Leave` of that lock alone, drops its head |
| `CriticalSection.QueueLaw` | libraries/lib_dd/source/ukern/ukern_scheduler.cpp:389-447 | over any stretch of a run the queue is the old queue plus the arrivals minus one from the front per `Leave` |
| `CriticalSection.WaiterServedInTurn` | libraries/lib_dd/source/ukern/ukern_scheduler.cpp:389-447 | the fiber at position k of a queue holds the lock after exactly k `Leave`s and not before |
| `LockHandover.HandoverHappens` | libraries/lib_dd/include/dd/ukern/ukern_internalcriticalsection.hpp:28-65 | a run from the start in which a fiber enters a held lock, the queue is owner and waiter, `Leave` hands the lock over, and the waiter is resumed inside `Enter` |
| `LockRace.RaceAborts` | libraries/lib_dd/include/dd/ukern/ukern_internalcriticalsection.hpp:35-46 | two fibers on two cores reach, access by access, a word that is the bare waiter bit and an `Enter` that aborts |
| `LockRace.SetBitKillsIff` | libraries/lib_dd/include/dd/ukern/ukern_internalcriticalsection.hpp:40-43 | setting the bit makes the lock unusable if and only if the word had become 0 and nobody else is in the lock |
| `LockRace.DeadForever` | libraries/lib_dd/include/dd/ukern/ukern_internalcriticalsection.hpp:28-65 | in every run of accesses from there on the word stays the bare bit and no fiber enters or waits |
| `LockRace.DeadStep` | libraries/lib_dd/source/ukern/ukern_scheduler.cpp:389-407 | every access keeps such a lock unusable, and every arbitration for it fails and aborts |
| `LockRace.AccessLaw` | libraries/lib_dd/include/dd/ukern/ukern_internalcriticalsection.hpp:35-64 | each single access in fields: what it reads, stores and decides |
| `HandleTable.InitialValid` | libraries/lib_dd/include/dd/ukern/ukern_handletable.hpp:34-42 | the initial free list threads all 256 slots and the table is empty |
| `HandleTable.FirstHandle` | libraries/lib_dd/include/dd/ukern/ukern_handletable.hpp:34-67 | the first handle of a table is slot 255, generation 1 |
| `HandleTable.ContentsSize` | libraries/lib_dd/include/dd/ukern/ukern_handletable.hpp:44-83 | in a valid table the active count is the number of live handles |
| `HandleTable.ReserveRefines` | libraries/lib_dd/include/dd/ukern/ukern_handletable.hpp:44-67 | fails exactly when 256 are live; otherwise adds one fresh handle, non-zero and below 2^30; the free list stays acyclic and complete |
| `HandleTable.FreeRefines` | libraries/lib_dd/include/dd/ukern/ukern_handletable.hpp:69-83 | succeeds exactly for live handles and removes just that one |
| `HandleTable.LookupRefines` | libraries/lib_dd/include/dd/ukern/ukern_handletable.hpp:85-94 | finds exactly the live handles, each with its object, although empty slots' counters hold links |
| `HandleTable.TableRefinesMap` | libraries/lib_dd/include/dd/ukern/ukern_handletable.hpp:44-94 | every call on the table is a step of a finite map |
| `HandleTable.HistoryRefines` | libraries/lib_dd/include/dd/ukern/ukern_handletable.hpp:44-94 | every run of calls is a run of the finite map |
| `HandleTable.IssuedHandleResolves` | libraries/lib_dd/include/dd/ukern/ukern_handletable.hpp:44-94 | in every run an issued handle resolves to its object until it is freed |
| `HandleTable.CounterAdvances` | libraries/lib_dd/include/dd/ukern/ukern_handletable.hpp:49-66 | the generation counter goes round 1..32767, one step per successful reservation |
| `HandleTable.StaleHandleRefused` | libraries/lib_dd/include/dd/ukern/ukern_handletable.hpp:49-94 | a freed handle resolves to null and is refused by `FreeHandle` until 32767 reservations have succeeded since and including its own |
| `HandleTable.StaleHandleReissued` | libraries/lib_dd/include/dd/ukern/ukern_handletable.hpp:49-66 | the bound is tight: 32767 further reservations can bring the same handle back |
| `HandleTable.HandleTable.Initialize` | libraries/lib_dd/include/dd/ukern/ukern_handletable.hpp:34-42 | the loop sets up the initial table, which is valid |
| `HandleTable.HandleTable.ReserveHandle` | libraries/lib_dd/include/dd/ukern/ukern_handletable.hpp:44-67 | refines `Reserve` on the arrays and keeps the table valid |
| `HandleTable.HandleTable.FreeHandle` | libraries/lib_dd/include/dd/ukern/ukern_handletable.hpp:69-83 | refines `Free` on the arrays and keeps the table valid |
| `HandleTable.HandleTable.GetObjectByHandle` | libraries/lib_dd/include/dd/ukern/ukern_handletable.hpp:85-94 | returns what `Lookup` finds |
| `BusyMutex.RunInv` | libraries/lib_dd/include/dd/ukern/ukern_busymutex.hpp:32-51 | in every interleaving with fewer than 2^16 outstanding entries, lock minus release modulo 2^16 is the number of holders and spinners, and at most one thread holds |
| `BusyMutex.StepLaw` | libraries/lib_dd/include/dd/ukern/ukern_busymutex.hpp:32-51 | each access by the outstanding entries: entering gets the mutex if there is none and spins otherwise, a spinner stays one, leaving adds one release |
| `BusyMutex.MutualExclusion` | libraries/lib_dd/include/dd/ukern/ukern_busymutex.hpp:32-51 | no two threads are between `Enter` and the end of `Leave`, across any number of wraps |
| `BusyMutex.SpinnerNeverEnters` | libraries/lib_dd/include/dd/ukern/ukern_busymutex.hpp:32-45 | a thread that once spins spins in every later state |
| `BusyMutex.EnterReturnsIff` | libraries/lib_dd/include/dd/ukern/ukern_busymutex.hpp:32-45 | `Enter` gets the mutex if no entry was outstanding, and otherwise never |
| `BusyMutex.TooManyEntriesBreakIt` | libraries/lib_dd/include/dd/ukern/ukern_busymutex.hpp:32-45 | with 2^16 outstanding entries a second thread can enter |
| `BusyMutex.TooManyEntriesHappen` | libraries/lib_dd/include/dd/ukern/ukern_busymutex.hpp:32-45 | a run from the initial state in which 2^16 threads enter one after the other and the next one gets in beside the holder |
| `IntrusiveTree.MovedValid` | libraries/lib_dd/include/dd/util/util_intrusivetreenode.hpp:90-142 | moving a subtree to a place outside it keeps the forest well formed and acyclic |
| `IntrusiveTree.MovedAncestors` | libraries/lib_dd/include/dd/util/util_intrusivetreenode.hpp:90-142 | inside the moved subtree the line of ancestors up to the moved node is kept and the rest exchanged; other lines stay |
| `IntrusiveTree.PushedOrders` | libraries/lib_dd/include/dd/util/util_intrusivetreenode.hpp:90-142 | after a push the chain left loses just the node, the chain joined gains it at the one end, every other sibling order is as it was |
| `IntrusiveTree.PushesPlace` | libraries/lib_dd/include/dd/util/util_intrusivetreenode.hpp:90-142 | the three pushes put the subtree last or first among the children, or last among the siblings, behind or before the others in their order |
| `IntrusiveTree.PushedRoots` | libraries/lib_dd/include/dd/util/util_intrusivetreenode.hpp:90-150 | the moved subtree is under the destination's root, every other node under the root it had |
| `IntrusiveTree.AdoptedLinked` | libraries/lib_dd/include/dd/util/util_intrusivetreenode.hpp:43 | a new node can be added to any well-formed forest |
| `IntrusiveTree.TreeNode.DetachSubTree` | libraries/lib_dd/include/dd/util/util_intrusivetreenode.hpp:58-88 | the heap afterwards spells out the forest with the subtree cut out |
| `IntrusiveTree.TreeNode.PushBackChild` | libraries/lib_dd/include/dd/util/util_intrusivetreenode.hpp:90-105 | the heap afterwards spells out the forest with the subtree as last child |
| `IntrusiveTree.TreeNode.PushFrontChild` | libraries/lib_dd/include/dd/util/util_intrusivetreenode.hpp:107-122 | the heap afterwards spells out the forest with the subtree as first child |
| `IntrusiveTree.TreeNode.PushBackSibling` | libraries/lib_dd/include/dd/util/util_intrusivetreenode.hpp:124-142 | the heap afterwards spells out the forest with the subtree as last sibling, with or without a parent |
| `IntrusiveTree.TreeNode.FindRoot` | libraries/lib_dd/include/dd/util/util_intrusivetreenode.hpp:144-150 | terminates and returns the parentless ancestor |
| `IntrusiveList.ListNode.LinkNext` | libraries/lib_dd/include/dd/util/util_intrusivelist.hpp:43-49 | for any two nodes, the same one included, next and prev stay mutually inverse on the whole heap, and the two predecessors are exchanged |
| `IntrusiveList.ListNode.LinkNextTwice` | libraries/lib_dd/include/dd/util/util_intrusivelist.hpp:43-49 | applying it twice restores every pointer |
| `IntrusiveList.ListNode.LinkNextJoins` | libraries/lib_dd/include/dd/util/util_intrusivelist.hpp:43-49 | two rings become one, in order |
| `IntrusiveList.ListNode.LinkNextSplits` | libraries/lib_dd/include/dd/util/util_intrusivelist.hpp:43-49 | within one ring it splits it in two |
| `IntrusiveList.ListNode.Unlink` | libraries/lib_dd/include/dd/util/util_intrusivelist.hpp:59-64 | the node is alone and the rest of its ring closes up in order |
| `IntrusiveList.IntrusiveList.IsEmpty` | libraries/lib_dd/include/dd/util/util_intrusivelist.hpp:147-149 | true exactly for the empty sequence |
| `IntrusiveList.IntrusiveList.PushBack` | libraries/lib_dd/include/dd/util/util_intrusivelist.hpp:151-153 | appends; pushing a node that is in a ring of its own appends that ring |
| `IntrusiveList.IntrusiveList.PopFront` | libraries/lib_dd/include/dd/util/util_intrusivelist.hpp:159-163 | returns and removes the first element |
| `IntrusiveList.IntrusiveList.PopBack` | libraries/lib_dd/include/dd/util/util_intrusivelist.hpp:171-175 | returns and removes the last element |
| `IntrusiveList.IntrusiveList.Remove` | libraries/lib_dd/include/dd/util/util_intrusivelist.hpp:183-185 | deletes the given element and keeps the order of the others |
| `IntrusiveList.IntrusiveList.Traverse` | libraries/lib_dd/include/dd/util/util_intrusivelist.hpp:71-99 | the iterator visits exactly the elements in order |
| `IntrusiveList.Requeue` | libraries/lib_dd/include/dd/util/util_intrusivelist.hpp:151-185 | moving a node from one list to another changes no third list |
| `MessageQueue.PutAppends` | libraries/lib_dd/include/dd/util/util_messagequeue.hpp:46-58 | storing at the wrapped index appends to the queued messages |
| `MessageQueue.TakeRemoves` | libraries/lib_dd/include/dd/util/util_messagequeue.hpp:60-69 | the message taken is the first queued, and the rest stay in order |
| `MessageQueue.RunInv` | libraries/lib_dd/include/dd/util/util_messagequeue.hpp:30-122 | in every interleaving received plus queued messages are those stored, in order, the count is within capacity, un-notified receivers sleep only on an empty queue and senders only on a full one |
| `MessageQueue.RunAccount` | libraries/lib_dd/include/dd/util/util_messagequeue.hpp:30-122 | in every interleaving what is stored is the messages of the calls to send, in the order in which these complete, computed from the actions and the capacity alone; the received ones are its beginning and the queued ones the rest |
| `MessageQueue.SleeperHoldsItsMessage` | libraries/lib_dd/include/dd/util/util_messagequeue.hpp:38-44 | a sleeping sender holds the message of its thread's latest call |
| `MessageQueue.WaitersStay` | libraries/lib_dd/include/dd/util/util_messagequeue.hpp:30-44 | a waiting thread stays in the queue, a sender with its message, until an action of its own finds room or a message |
| `MessageQueue.StepLaw` | libraries/lib_dd/include/dd/util/util_messagequeue.hpp:30-122 | each action stores the caller's message if there is room, takes the first if there is one, puts its thread to sleep or lets it go, and notifies the others as the broadcasts do |
| `MessageQueue.NeverBothAsleep` | libraries/lib_dd/include/dd/util/util_messagequeue.hpp:30-122 | a sender and a receiver never sleep un-notified at the same time |
| `MessageQueue.MessageQueue.SendMessageImpl` | libraries/lib_dd/include/dd/util/util_messagequeue.hpp:46-58 | appends the message and notifies every sleeping receiver and no sender; the index sum fits 32 bits for capacities up to 2^30 |
| `MessageQueue.MessageQueue.ReceiveMessageImpl` | libraries/lib_dd/include/dd/util/util_messagequeue.hpp:60-69 | returns and removes the first message and notifies every sleeping sender and no receiver |
| `MessageQueue.MessageQueue.TrySendMessage` | libraries/lib_dd/include/dd/util/util_messagequeue.hpp:114-122 | sends, and notifies, exactly when there is room, else changes nothing |
| `MessageQueue.MessageQueue.TryReceiveMessage` | libraries/lib_dd/include/dd/util/util_messagequeue.hpp:96-104 | receives, and notifies, exactly when there is a message, else changes nothing |
| `CommandBuffer.RecordingOk` | libraries/lib_dd/source/vk/vk_commandbuffer.vulkan.cpp:22-359 | every recording has the draws, clears, copies, barriers and state commands of the recorder without flags, in order, and its end; scopes alternate, draws are inside a scope with the current targets attached, clears, copies and the end are outside; every draw finds the current block of each stage that has a push constant, never overwritten |
| `PushedStages.DrawFindsStage` | libraries/lib_dd/source/vk/vk_commandbuffer.vulkan.cpp:100-146 | for every recording, draw and stage: the draw, which is that of the call with as many draws before it, finds the stage's register pushed if and only if the stage was dirty at `Begin` or an earlier call has changed a value of its block |
| `PushedStages.ZeroSlotsNotPushed` | libraries/lib_dd/source/vk/vk_commandbuffer.vulkan.cpp:563-572 | setting texture slot 0 and sampler slot 0 after `Begin` and drawing leaves every register unpushed at the draw |
| `CommandBuffer.ApplyScope` | libraries/lib_dd/source/vk/vk_commandbuffer.vulkan.cpp:22-98 | every public call keeps the rules of rendering scopes |
| `Scopes.RecordingScopes` | libraries/lib_dd/source/vk/vk_commandbuffer.vulkan.cpp:22-98 | the scope commands of every recording, with their attachments, are those that its calls make necessary: a draw opens a scope only if none with its targets is open, and only a call that must be outside, a draw with new targets or `End` closes one |
| `Scopes.ScopesOpened` | libraries/lib_dd/source/vk/vk_commandbuffer.vulkan.cpp:24-29 | a recording opens as many scopes as it has draws that come first, or first after a closing call or new targets |
| `Scopes.DrawsShareScope` | libraries/lib_dd/source/vk/vk_commandbuffer.vulkan.cpp:24-29 | after a draw no scope command is recorded until a call that closes the scope or sets new targets |
| `Barriers.BarriersOutsideIff` | libraries/lib_dd/source/vk/vk_commandbuffer.vulkan.cpp:460-524 | the barriers of a recording are all outside its scopes if and only if no barrier call that leaves the scope alone comes after a draw with no closing call between |
| `Barriers.BarrierInsideScope` | libraries/lib_dd/source/vk/vk_commandbuffer.vulkan.cpp:490-524 | a draw and then a texture barrier not for the bottom of the pipe puts the barrier inside the scope |
| `CommandBuffer.ApplyResources` | libraries/lib_dd/source/vk/vk_commandbuffer.vulkan.cpp:100-146 | every public call keeps it that the register of a clean stage, if it has been pushed, leads to the stage's current block, and that recorded draws still find theirs |
| `CommandBuffer.ApplyWork` | libraries/lib_dd/source/vk/vk_commandbuffer.vulkan.cpp:251-359 | every public call records the work of the simple recorder, barriers included, and makes its settings, although unchanged values are skipped |
| `CommandBuffer.BeginInv` | libraries/lib_dd/source/vk/vk_commandbuffer.vulkan.cpp:224-242 | `Begin` starts a good recording, with no register pushed, whatever flags, targets and memory the last one left |
| `CommandBuffer.FlushCounts` | libraries/lib_dd/source/vk/vk_commandbuffer.vulkan.cpp:100-146 | an update uses one slot for each dirty stage and leaves none dirty |
| `RecorderLaws.UpdatePushes` | libraries/lib_dd/source/vk/vk_commandbuffer.vulkan.cpp:100-146 | an update pushes each dirty stage once, in the source's order, and no other |
| `RecorderLaws.SlotsInOrder` | libraries/lib_dd/source/vk/vk_commandbuffer.vulkan.cpp:104-108 | the pushes of a recording use the slots 0, 1, 2 and so on, one for each slot counted |
| `RecorderLaws.DirtyLaw` | libraries/lib_dd/source/vk/vk_commandbuffer.vulkan.cpp:543-572 | after a draw no stage is dirty; after any other call those are that were and those of which it has changed a value |
| `RecorderLaws.UniformLaw` | libraries/lib_dd/source/vk/vk_commandbuffer.vulkan.cpp:543-551 | one entry of one stage takes the address; the other entries, stages and fields stay |
| `RecorderLaws.StorageLaw` | libraries/lib_dd/source/vk/vk_commandbuffer.vulkan.cpp:553-561 | the same for storage buffers |
| `RecorderLaws.TextureLaw` | libraries/lib_dd/source/vk/vk_commandbuffer.vulkan.cpp:563-572 | the same for the pair of a texture and a sampler |
| `RecorderLaws.TargetsLaw` | libraries/lib_dd/source/vk/vk_commandbuffer.vulkan.cpp:433-445 | the first entries are the new targets, the others stay, the depth target is set and the next draw is told |
| `RecorderLaws.BeginLaw` | libraries/lib_dd/source/vk/vk_commandbuffer.vulkan.cpp:224-242 | the blocks are zeros and the slot count 0; flags, targets and memory stay |
| `CommandBuffer.MemorySufficesIff` | libraries/lib_dd/include/dd/vk/vk_commandbuffer.hpp:275 | the computed size suffices for every recording of at most d draws that flush at most s stages each if and only if the wrapped product times 120 is at least min(s, 6) times d, or at least the 2^32 slots that a 32-bit count can address |
| `CommandBuffer.SizeEnoughUnwrapped` | libraries/lib_dd/include/dd/vk/vk_commandbuffer.hpp:171-186 | it suffices whenever the product does not wrap, and is then 61440 bytes per stage and draw; and the 32-bit slot count does not wrap either |
| `CommandBuffer.MemorySizeWraps` | libraries/lib_dd/include/dd/vk/vk_commandbuffer.hpp:275 | four stages and 2^30 draws get size 0, which does not suffice |
| `CommandBuffer.BothWrap` | libraries/lib_dd/include/dd/vk/vk_commandbuffer.hpp:275 | at 6 stages and 3585806080 draws both the product and the slot count wrap, and the size still suffices |
| `CommandBuffer.AttachmentsExact` | libraries/lib_dd/source/vk/vk_commandbuffer.vulkan.cpp:433-445 | for any targets, null ones included, a new scope attaches exactly those up to their first null if and only if there is a null among them, there are eight of them, or the next old entry is null |
| `CommandBuffer.LeftoverTarget` | libraries/lib_dd/source/vk/vk_commandbuffer.vulkan.cpp:433-445 | in the recording that sets two targets, then one, and draws, the scope of the draw has the new target and the second of the old ones attached |
| `CommandRecorder.CommandBuffer.EndRenderingIfRendering` | libraries/lib_dd/source/vk/vk_commandbuffer.vulkan.cpp:93-98 | closes an open scope and no other |
| `CommandRecorder.CommandBuffer.BeginRenderingIfNotRendering` | libraries/lib_dd/source/vk/vk_commandbuffer.vulkan.cpp:22-91 | refines the value step; the loop collects the targets up to the first null |
| `CommandRecorder.CommandBuffer.UpdateResourceBufferIfNecessary` | libraries/lib_dd/source/vk/vk_commandbuffer.vulkan.cpp:100-146 | flushes the dirty stages in the source's order |
| `CommandRecorder.CommandBuffer.Begin` | libraries/lib_dd/source/vk/vk_commandbuffer.vulkan.cpp:224-242 | default blocks, slot count 0, flags and targets kept; the recording is good if no scope was open |
| `CommandRecorder.CommandBuffer.End` | libraries/lib_dd/source/vk/vk_commandbuffer.vulkan.cpp:244-249 | closes an open scope, then ends the buffer; a good recording ends with its scope rules obeyed and no scope open |
| `CommandRecorder.CommandBuffer.ClearTarget` | libraries/lib_dd/source/vk/vk_commandbuffer.vulkan.cpp:251-285 | closes an open scope, clears, puts a barrier; a good recording stays good |
| `CommandRecorder.CommandBuffer.Draw` | libraries/lib_dd/source/vk/vk_commandbuffer.vulkan.cpp:301-309 | flushes, opens a scope if needed, draws; a good recording stays good |
| `CommandRecorder.CommandBuffer.DrawIndexed` | libraries/lib_dd/source/vk/vk_commandbuffer.vulkan.cpp:311-329 | relocates outside any scope first, then as `Draw`; a good recording stays good |
| `CommandRecorder.CommandBuffer.SetRenderTargets` | libraries/lib_dd/source/vk/vk_commandbuffer.vulkan.cpp:433-445 | overlays the first entries and keeps the others; a good recording stays good |
| `CommandRecorder.CommandBuffer.SetVertexBuffer` | libraries/lib_dd/source/vk/vk_commandbuffer.vulkan.cpp:447-458 | relocates outside any scope, then binds; a good recording stays good |
| `CommandRecorder.CommandBuffer.SetBufferStateTransition` | libraries/lib_dd/source/vk/vk_commandbuffer.vulkan.cpp:460-488 | relocates outside any scope, then puts a barrier; a good recording stays good |
| `CommandRecorder.CommandBuffer.SetTextureStateTransition` | libraries/lib_dd/source/vk/vk_commandbuffer.vulkan.cpp:490-524 | closes an open scope before a bottom-of-pipe barrier only; a good recording stays good |
| `CommandRecorder.CommandBuffer.SetUniformBuffer` | libraries/lib_dd/source/vk/vk_commandbuffer.vulkan.cpp:543-551 | a new address marks its stage and no other dirty; the same address changes nothing; a good recording stays good |
| `CommandRecorder.CommandBuffer.SetStorageBuffer` | libraries/lib_dd/source/vk/vk_commandbuffer.vulkan.cpp:553-561 | the same for storage buffers |
| `CommandRecorder.CommandBuffer.SetTextureAndSampler` | libraries/lib_dd/source/vk/vk_commandbuffer.vulkan.cpp:563-572 | the same for a texture and sampler pair |
| `TimeSpan.FromTickFloor` | libraries/lib_dd/include/dd/util/util_timespan.hpp:32-46 | up to the last convertible tick, which is at least 9223372035 seconds' worth, the split form is the floor of the unsplit product |
| `TimeSpan.GetTickCeiling` | libraries/lib_dd/include/dd/util/util_timespan.hpp:62-89 | for non-negative spans the split form is the ceiling of the unsplit product |
| `TimeSpan.TickRoundTrip` | libraries/lib_dd/include/dd/util/util_timespan.hpp:32-89 | ticks to span and back is the identity up to the last convertible tick |
| `TimeSpan.SpanRoundTrip` | libraries/lib_dd/include/dd/util/util_timespan.hpp:32-89 | span to ticks and back is never less and exceeds by less than one tick period |
| `TimeSpan.MaxTick` | libraries/lib_dd/source/util/util_timestamp.x64.cpp:42 | the limit is 9223372036 seconds of ticks if the largest time modulo the frequency is at most 854775807, and 9223372035 otherwise |
| `TimeSpan.FromTickEnds` | libraries/lib_dd/include/dd/util/util_timespan.hpp:38-40 | beyond the limit the largest or smallest time; a negative tick within it gives the negative of its opposite |
| `TimeSpan.MillisecondsFloor` | libraries/lib_dd/source/util/util_time.cpp:33-35 | milliseconds of ticks and of spans are the floor of the exact quotient, and odd in the sign |
| `TimeSpan.DeadlineValue` | libraries/lib_dd/source/ukern/ukern_scheduler.cpp:25-35 | the deadline is the timeout plus the clock plus 2, or the largest time where that would not fit |
| `TimeSpan.WakeupValue` | libraries/lib_dd/source/ukern/ukern_scheduler.cpp:22-36 | the wake-up tick is the least whole ticks that cover the span, plus the clock plus 2; the largest time where that would not fit, and for a zero span |
| `TimeSpan.MaxTickFacts` | libraries/lib_dd/source/util/util_timestamp.x64.cpp:39-43 | the limit is a whole number of seconds that fit into 64 bits, and its computation does not overflow |
| `TimeSpan.FromTickNoOverflow` | libraries/lib_dd/include/dd/util/util_timespan.hpp:32-46 | no intermediate leaves signed 64 bits for any tick |
| `TimeSpan.GetTickNoOverflow` | libraries/lib_dd/include/dd/util/util_timespan.hpp:62-89 | no intermediate leaves signed 64 bits for any non-negative span |
| `TimeSpan.FromTickMonotone` | libraries/lib_dd/include/dd/util/util_timespan.hpp:32-46 | monotone over all 64-bit ticks, the saturated ends included |
| `TimeSpan.MillisecondsAgree` | libraries/lib_dd/source/util/util_time.cpp:33-35 | milliseconds of the span equal milliseconds of the ticks |
| `TimeSpan.DeadlineNotEarly` | libraries/lib_dd/source/ukern/ukern_scheduler.cpp:22-36 | a clock past the deadline shows that the span has elapsed, also when the sum wraps or saturates |
| `ExpHeap.AlignUp` | libraries/lib_dd/include/dd/util/util_alignment.hpp:27-32 | the least multiple not below the value |
| `ExpHeap.AlignUpIsMask` | libraries/lib_dd/include/dd/util/util_alignment.hpp:27-32 | for every alignment 2^k below 2^64, without wrapping, rounding up is adding 2^k - 1 and masking with its 64-bit complement |
| `ExpHeap.FitsIff` | libraries/lib_dd/source/mem/mem_expheap.cpp:165-173 | the scans' test holds exactly if the block has an aligned address behind its header from which the whole size is inside |
| `ExpHeap.FirstFit` | libraries/lib_dd/source/mem/mem_expheap.cpp:160-177 | finds nothing exactly when no block fits, else the first fitting block, with an aligned address and the whole range inside the block |
| `ExpHeap.BestFit` | libraries/lib_dd/source/mem/mem_expheap.cpp:178-209 | finds nothing exactly when no block fits, else the first of the least fitting blocks, with an aligned address and the whole range inside the block |
| `ExpHeap.Search` | libraries/lib_dd/source/mem/mem_expheap.cpp:148-209 | both scans succeed on the same requests; the alignment is the larger of the requested and the least one, the size is rounded up by less than the granularity; first fit gives the first fitting block, best fit the first of the least |
| `ExpHeap.ExactSizeNeverFits` | libraries/lib_dd/source/mem/mem_expheap.cpp:178-209 | a fitting block is larger than the request, so the exact-size exit is not taken |

## Left out

- Key and address waits (`WaitKeyImpl`, `SignalKeyImpl`, `WaitForAddress*`, `WakeByAddress*`, `KeyArbiter`): as written they do not do what their comments say.
- `SetPriorityImpl` (its range test is reversed), the pass over `m_wait_list`, the rest loop with `m_runnable_fibers` and `m_active_cores` (never decremented).
- The lock protocol's guarantees on several cores, which `LockRace` shows the code does not give; nested critical sections, progress of `BusyMutex` beyond what is proved above.
- Fiber names and Win32 fibers in `CreateThreadImpl`; the null address checks of the arbitration calls; a slot allocated before the handle table refuses is lost in the source and not tracked here.
- Handle values with index field 256, which the bound test lets through to a slot that does not exist.
- `LinkPrev`, `PushFront`, `PopFront` on an empty list, removal of the first element during a range-for.
- `DetachAll` and `ClearChildrenRecursive`, whose loop does not advance.
- `GetTick` of negative spans and `GetTimeLeftOnTarget`.
- Recordings of more than 2^32 flushes, in which the 32-bit slot count comes round and slots are written again: the model's count is unbounded, and only the size of the memory takes the wrap into account. By `SizeEnoughUnwrapped` the source's count does not wrap in a recording for which the memory size was computed without wrapping.
- `SendMessage` and `ReceiveMessage` as methods: they block, so they are steps of the protocol in `MessageQueue.dfy` instead, built on the ring operations that the class refines.
- The instanced draws and plain state setters have no method of their own; at the level of the trace they are `Draw`, `DrawIndexed` and `Other`.
- Push-constant offsets of the two tessellation stages, clear values, load operations and the render area.
- The remainder of `ExpHeap`, the other heaps and the GPU heap manager: unfinished or not maintaining a tiling.
- `sys::Mutex`, `ServiceCriticalSection`, `Event`, `DescriptorPool`, path utilities: their branches do not give the intended behaviour.
- Vector, matrix, camera and sine-table code: rounding is the point there, and over the reals it is plain algebra.
- Win32 fibers and threads, raw input, files, Vulkan device, swapchain and shader set-up: foreign calls.
