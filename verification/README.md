# Models and proofs for the kernel

This project models the scheduling, locking and resource management of a small real-time kernel and
proves what its protocols are for.  Everything is plain Dafny 4.11; `dafny verify dfyconfig.toml`
checks the whole project.

## What is modelled

**The priority-driven kernel.**  `TaskQueue.dfy` is the intrusive doubly linked queue that every ready
and wait queue is made of.  `KernelObject.dfy` is the kernel with those linked queues, the ready bitmap,
the control blocks and `current`, updated in place; its methods follow the interrupt service routines
branch by branch.  Each of them is proved to do to the value of the kernel (`KernelState.dfy`) exactly
what the function of the same name in `KernelCalls.dfy` and `KernelRun.dfy` says.  A step is a call by
the running task (lock, unlock, wait, poll, signal, change priority, start a task) or the expiry of its
time slice; after every step the scheduler picks the next task by bit search over the bitmap
(`Bitmaps.dfy`).  `KernelObject.Kernel.RunSteps` ties whole runs of the linked structures to runs of the
value, on which the theorems are stated, and `Kernel.Boot` leads from a new kernel (`KernelBoot.dfy`) to the
start of a run:

* `VirtualMutex.dfy`, `VirtualRuns.dfy` -- virtual priority inheritance: freedom from deadlock, the
  accounting of the virtual mutex, and the priority of its owner, with any order of waiting.
* `Inheritance.dfy`, `NestedInheritance.dfy` -- plain priority inheritance, without and with nested locks.
* `HighestLocker.dfy`, `HighestLockerRuns.dfy` -- the immediate highest locker protocol; `CeilingList.dfy`
  is its list of the mutexes that raised their owners, threaded through their control blocks.
* `ListedMutexes.dfy` -- the same list in kernels that mix protocols and set priorities by calls.
* `RunTheorems.dfy` -- no task is lost or doubled, semaphores are conserved, the best task runs.
* `CallEffects.dfy`, `LockEffects.dfy` -- the whole effect of each call and time-slice expiry, told by the
  state before and after without the functions that compute it; `CountedRuns.dfy` -- locks, unlocks and time
  slices counted over runs.
* `LockInvariants.dfy`, `KernelTheorems.dfy`, `PriorityFrames.dfy` -- what every call keeps and what it
  leaves alone.

Some laws that the protocols are named for do not hold of every use of the code.  For those there is a
concrete run that breaks the law, those of locks from the start of a small kernel (`BrokenLaws.dfy`, by the
moves of `Scenes.dfy`), and the exact condition under which a call keeps it:

| law | broken by | run | exact condition |
|---|---|---|---|
| virtual inheritance | first-come hand-over | `FifoBreaksLaw` | `HandOverLaw`, for a step `VirtualRuns.StepKeepsLaw` |
| inheritance | waiting two owners deep | `DeepBreaksLaw` | `WaitKeepsLaw`, for a step `NestedInheritance.StepKeepsLaw` |
| inheritance | unlocking a nested mutex, serving a worse waiter | `NestedBreaksLaw`, `FirstComeBreaksLaw` | `UnlockKeepsLaw` |
| highest locker | unlocking out of order, handing over to a worse task | `UnnestedBreaksLaw`, `UnraisedBreaksLaw` | `UnlockKeepsHeld`, for a step `StepKeepsHeld` |
| highest locker | a negative ceiling | `NegativeBreaksLaw` | `LockKeepsHeld` |
| a listed mutex has an owner | unlocking at the initial priority | `StrandedBreaksLaw` | `UnlockKeepsListed` |
| fewer than 32 ready tasks have priorities | quantum expiries | `TwoTasksStarve` | `ExpiriesForever`, on the tree `LastingExpiries` and `RuinousExpiries` |
| equal tasks have priorities | more than 14 of them | `EqualTasks` | `EqualForever`, `FreshForever` |
| tree and list agree | starting a task with stale sort links | `StaleStart` | `PutCurrent` |
| at most 15 tasks have priorities, once settled | starting a task with stale sort links | `StaleStarve`, from every state `AllReturn` | `SettledForever`, on the tree `FewTasks` and `ManyTasks` |
| tree and list agree | taking out a task with two children whose left child has a right child | every such state | `GetTask` |

**The other ready structures.**  `ReadyTree.dfy` is the binary tree with parent pointers and the sorted,
doubly linked list through its nodes that the EDF, LLF and Fair schedulers share, on the heap;
`Trees.dfy` holds the facts about trees.  `DynamicRanks.dfy` holds the list as a value, its keys and the
numbering of dynamic priorities along it, and the runs of starts, ends and expiries that exhaust them.
`RoundRobin.dfy` is the single queue of the round robin scheduler.  `Admission.dfy` is the admission
arithmetic of rate and deadline monotonic scheduling.

**Resources.**  `MemoryPool.dfy` is the fixed-block allocator, `Mailbox.dfy` a mailbox with either order for
its messages and either for its waiting tasks, and `IdTable.dfy` the semaphore ID table, with its control
blocks on the heap, that doubles when it is full.

## Assumptions

* A write through a pointer that may be null is skipped; a read of the owner's control block when there
  is no owner, whose value is not used, is left out.
* Priorities are 0..31 and the bitmap has 32 bits.  The range check of the priority change lets 32
  through (os/kernel/task_manage.c:701), which lies outside the queue array: calls with 32 are excluded.
* `down_system` and `freeze_kernel` mean that the kernel is halted and takes no more steps.
* Calls come from tasks, with dispatching enabled, under a scheduler with priority ready queues that
  supports mutexes and priority changes; the virtual mutex exists.  IDs are not negative.
* Integers do not overflow: semaphore values fit their 16-bit fields, and the admission products fit an
  int, as the comment at os/kernel/scheduler.c:1057 asks.
* A mutex is not put on the list of raised mutexes while it stands there: the source would tie the list
  into a circle.  A run that does so is not covered (`Run` is None).  Every other run is, with any mix of
  protocols; `RunCovered`, `HighRun` and `ListedRun` say which runs are sure to be.

## Model

| member | source | states |
|---|---|---|
| VirtualMutex.DeadlockFree | os/kernel/prinvermutex.c:995-1111 | In every run of a kernel whose mutexes all use virtual inheritance, from a fresh start, whatever order tasks nest their locks in and however calls and time slices interleave: a chain of tasks waiting for each other has a single link and ends at the virtual owner, so there is never a cycle. |
| VirtualMutex.WaitsForOwner | os/kernel/prinvermutex.c:776-796 | Whoever waits for a mutex waits for the owner of the virtual mutex, and that owner waits for no mutex. |
| VirtualMutex.OwnerCanRun | os/kernel/prinvermutex.c:995-1111 | In every run, while a task waits for a mutex the task it waits for is started and is ready or waits for a semaphore; without semaphores it is ready. |
| VirtualMutex.VirtualAccounting | os/kernel/prinvermutex.c:732-831 | In every run, whatever protocols the other mutexes use, the virtual mutex is locked as often as there are VINHERIT mutexes with an owner, all of them its owner's, each with value 1 and held once to maxlocks times; it is free exactly when none is owned. |
| VirtualMutex.HandOverCountsOne | os/kernel/prinvermutex.c:859-954 | A hand-over gives one waiter exactly one mutex, leaves the virtual count at 1, and takes the new owner out of the queue. |
| LockEffects.HandOverNames | os/kernel/prinvermutex.c:859-954 | Told by the state before: at the last unlock of the virtual mutex the waiter that is served owns the mutex it was waiting for, with count and value 1, is ready and owns the virtual mutex; the mutex that was unlocked is free unless it is the same one. |
| CountedRuns.WokenOwns | os/kernel/mutex.c:615-699 | At every point of every run, with any mix of protocols: a task that stops waiting for a mutex owns that mutex, locked once, and is ready. |
| CountedRuns.LockConservation | os/kernel/mutex.c:489-608 | In every run from the start, with any mix of protocols and counted by the codes that calls return: while a task owns a mutex its count is the locks of it that were accepted less the unlocks, 1 to maxlocks; while it waits it is one lock ahead; otherwise as many unlocks as locks were accepted. |
| CountedRuns.RunClaim | os/kernel/mutex.c:489-608 | From any state of a run to any later one, the count of a mutex with its owner, waiting counted as one, rises by the accepted locks of that task less its accepted unlocks. |
| CountedRuns.CallClaim | os/kernel/kernel.c:2762-2957 | Every call: an accepted lock adds exactly one to the count of its caller or queues it, an accepted unlock takes exactly one off, and nobody else gains or loses a mutex but the waiter that is served. |
| LockEffects.LockEffect | os/kernel/mutex.c:156-201 | The whole effect of a lock call, whatever the protocol, told by the state before.  Refused with E_ILUSE exactly for an owner at maxlocks, with nothing changed.  If another task holds the mutex (the virtual one for VINHERIT): the caller waits for that mutex, last in the queue, an inheriting holder at least as good as it, and no control block changed.  Otherwise the count rises by exactly 1, or the caller owns the free mutex with count and value 1, the virtual count one up, and with a ceiling the list and the priority raised. |
| LockEffects.UnlockEffect | os/kernel/mutex.c:275-320 | The whole effect of an unlock call, told by the state before.  Refused with E_ILUSE exactly for a caller that is not the owner, with nothing changed.  The count falls by exactly 1; at the last unlock the mutex is free if nobody waits, and otherwise the waiter that is served owns what it was waiting for; the caller is back last in the queue of the priority it is reset to, the woken task behind it. |
| LockEffects.BoostedEffect | os/kernel/prinvermutex.c:256-275 | The owner waited for gets the priority of the caller if that is better, last in its new queue if it is ready and in its place if it waits; nothing else changes. |
| VirtualMutex.HandOverLaw | os/kernel/prinvermutex.c:838-954 | After a hand-over the priority law holds if and only if the waiter that was served is at least as good as every other waiter. |
| VirtualMutex.VirtualPriorityLaw | os/kernel/prinvermutex.c:995-1111 | In every run with priority-ordered waiting and no priorities set from outside, the virtual owner runs at the best of its initial priority and all waiters' priorities, and every other task at its initial priority. |
| VirtualRuns.BestServedLaw | os/kernel/prinvermutex.c:995-1111 | The same in every run with any order of waiting in which each hand-over serves a waiter as good as every other. |
| VirtualRuns.StepKeepsLaw | os/kernel/kernel.c:2965-2991 | One whole step, scheduler included, keeps the law if and only if it hands the virtual mutex to such a waiter, or not at all. |
| VirtualMutex.LocVinherLaw | os/kernel/prinvermutex.c:995-1035 | A lock call keeps the priority law in each of its branches, the boost by a new waiter included. |
| VirtualMutex.UnlVinherLaw | os/kernel/prinvermutex.c:1045-1111 | With priority-ordered waiting an unlock call keeps the priority law in each of its branches. |
| BrokenLaws.FifoBreaksLaw | os/kernel/prinvermutex.c:859-898 | A run from the start of a small kernel: task 1 locks, tasks 2 and 3 wait, and the law holds; the unlock, which serves the first and worse of them, breaks it. |
| Inheritance.InheritancePriorityLaw | os/kernel/prinvermutex.c:256-339 | In every run in which no task locks a mutex while it owns another, with priority-ordered waiting: every task runs at the best of its initial priority and the priorities of the tasks that wait for its mutexes. |
| NestedInheritance.NestedPriorityLaw | os/kernel/prinvermutex.c:256-339 | The same in every run with any nesting and any order of waiting, as long as at each call no owner that has to be raised waits for a task worse than the caller, and no last unlock takes away a priority that is still needed or passes over a better waiter. |
| NestedInheritance.StepKeepsLaw | os/kernel/kernel.c:2965-2991 | One whole step, scheduler included, keeps the law if and only if it meets that condition. |
| Inheritance.WaitKeepsLaw | os/kernel/prinvermutex.c:256-275 | For any nesting: waiting for an owned mutex keeps the law if and only if the raised owner does not itself wait for a task that is worse than the new waiter (inheritance goes one owner far). |
| Inheritance.UnlockKeepsLaw | os/kernel/prinvermutex.c:294-339 | For any nesting: the last unlock keeps the law if and only if no task better than the caller's initial priority waits for a mutex the caller keeps, and the waiter served is a best one. |
| BrokenLaws.NestedBreaksLaw | os/kernel/prinvermutex.c:304-312 | A run from the start of a small kernel after which the law holds, and fails when the task with two mutexes unlocks the inner one. |
| BrokenLaws.DeepBreaksLaw | os/kernel/prinvermutex.c:256-275 | A run after which the law holds, and fails when a task queues two owners deep: the owner waited for is raised, the one it waits for is not. |
| BrokenLaws.FirstComeBreaksLaw | os/kernel/prinvermutex.c:294-339 | A run after which the law holds, and fails when a first-come unlock serves the worse of two waiters. |
| Inheritance.LocInherKept | os/kernel/prinvermutex.c:256-284 | A lock by a task that owns no other mutex keeps the law and keeps locks unnested. |
| Inheritance.UnlInherKept | os/kernel/prinvermutex.c:294-339 | With priority-ordered waiting an unlock keeps the law and keeps locks unnested, hand-over included. |
| HighestLockerRuns.HighestLockerLaw | os/kernel/prinvermutex.c:409-502 | In every run in which tasks unlock in the reverse of their locking order, no mutex goes to a waiter worse than its ceiling, and no mutex with a negative ceiling is locked: every task runs at the best of its initial priority and the ceilings of all mutexes it holds, raised by them or not. |
| HighestLockerRuns.UpheldLaw | os/kernel/prinvermutex.c:409-502 | The same in every run with any nesting in which each call meets the exact condition for one call: no first lock of a mutex with a negative ceiling, no unlock that uncovers a mutex the caller keeps, no hand-over to a task that would need a raise. |
| HighestLockerRuns.StepKeepsHeld | os/kernel/kernel.c:2965-2991 | One whole step, scheduler included, keeps every holder at the ceilings of all it holds if and only if it meets that condition. |
| HighestLockerRuns.ListedLaw | os/kernel/prinvermutex.c:409-502 | In every run over such mutexes that sets no priorities and locks none with a negative ceiling, in whatever order tasks unlock and whoever gets the mutexes: every task runs at the best of its initial priority and the ceilings of the mutexes it owns that raised it. |
| HighestLockerRuns.HighRun | os/kernel/prinvermutex.c:409-502 | No such run ever puts a mutex on the list that stands there already, so all of them are covered by the theorems about runs. |
| HighestLocker.UnlImHighList | os/kernel/prinvermutex.c:450-502 | After any unlock every task runs at the best of its initial priority and the ceilings of the listed mutexes it still owns. |
| HighestLocker.LocImHighList | os/kernel/prinvermutex.c:409-440 | A lock keeps the same law if and only if it is not the first lock of a mutex with a negative ceiling; a mutex without an owner is never on the list. |
| HighestLocker.UnlockKeepsHeld | os/kernel/prinvermutex.c:450-502 | An unlock keeps every holder at the ceilings of all it holds if and only if: the caller is at its initial priority, or keeps no unlisted mutex with a better ceiling than its initial priority and all the other listed mutexes it keeps; and a waiter that gets the mutex already runs at its ceiling or better (a hand-over raises nobody). |
| HighestLocker.UncoveredFalls | os/kernel/prinvermutex.c:378-397 | That condition on the mutexes the caller keeps says exactly that the loop over the list will compute a priority worse than one of their ceilings. |
| HighestLocker.LockKeepsHeld | os/kernel/prinvermutex.c:409-440 | A lock keeps every holder at the ceilings of all it holds if and only if it is not the first lock of a mutex with a negative ceiling, which is listed but raises nobody. |
| HighestLocker.LastInCovered | os/kernel/prinvermutex.c:378-397 | Giving up the mutex locked last never uncovers another one. |
| HighestLocker.ListedPriBest | os/kernel/prinvermutex.c:378-397 | The loop over the list yields the best of the initial priority and the ceilings of the listed mutexes of the task, and nothing better. |
| BrokenLaws.UnnestedBreaksLaw | os/kernel/prinvermutex.c:450-502 | A run from the start of a small kernel after which the law holds, and fails after an unlock out of order. |
| BrokenLaws.UnraisedBreaksLaw | os/kernel/prinvermutex.c:463-477 | A run, through a semaphore, after which the law holds, and fails when the mutex is handed to a waiter worse than its ceiling. |
| BrokenLaws.NegativeBreaksLaw | os/kernel/prinvermutex.c:432-437 | A run after which the law holds, and fails when a mutex that was created with the ceiling -1 is locked. |
| ListedMutexes.UnlockKeepsListed | os/kernel/prinvermutex.c:450-502 | With any mix of protocols and priorities: after the last unlock every listed mutex still has an owner if and only if the mutex was not on the list, or the caller ran at another priority than its initial one, or somebody waited for it. |
| ListedMutexes.CallKeepsListed | os/kernel/kernel.c:2762-2957 | Any call at all keeps every listed mutex owned if and only if it is not such an unlock. |
| ListedMutexes.StepKeepsListed | os/kernel/kernel.c:2965-2991 | The same of every step, the scheduler and the time-slice expiries included. |
| ListedMutexes.ListedRun | os/kernel/prinvermutex.c:345-373 | In every run, with any mix of protocols and any priorities set by calls, in which no unlock strands a mutex: every listed mutex always has an owner, and none is ever put on the list twice. |
| BrokenLaws.StrandedBreaksLaw | os/kernel/prinvermutex.c:479-491 | A run, in which the owner of a listed mutex sets itself back to its initial priority, after which every listed mutex has an owner, and the unlock leaves a free one on the list. |
| BrokenLaws.StrandedRelists | os/kernel/prinvermutex.c:345-351 | The run goes on to that unlock, and the next lock would put the mutex on the list a second time. |
| Scenes.RunPlays | os/kernel/kernel.c:2965-2991 | What is played on the task records, the control blocks and the wait queues alone, for the calls that these runs need, is a run of the kernel. |
| RunTheorems.NothingLostOrDoubled | os/kernel/kernel.c:2965-2991 | In every run, whatever protocols the mutexes use, every task stands in the queues that match its state word, priority and wait object, exactly once, and in no other queue. |
| RunTheorems.OnePlace | os/kernel/kernel.c:2965-2991 | In every run a ready or waiting task matches exactly one queue and a dormant task none; the ready init task stands in its own cell. |
| RunTheorems.SemaphoreConservation | os/kernel/semaphore.c:341-432 | In every run value = initial value + accepted signals - granted waits, counted by the codes the calls return; the value stays within its maximum, and tasks wait only at value 0. |
| RunTheorems.CallBalance | os/kernel/kernel.c:1197-1270 | One call changes value less waiters of a semaphore by +1 for an accepted signal, -1 for an accepted wait or poll, and by nothing else. |
| CallEffects.SignalEffect | os/kernel/semaphore.c:341-372 | Told by the state before: a signal is accepted if and only if somebody waits or the value is below the maximum; then the waiter at the head, or the first of the best priority, is ready behind the caller, or the value is exactly one more; refused with E_QOVR it changes nothing. |
| CallEffects.WaitEffect | os/kernel/semaphore.c:381-407 | Told by the state before: a wait at value 1 or more takes exactly one; otherwise the caller waits for that semaphore, last in its queue. |
| CallEffects.PollEffect | os/kernel/semaphore.c:416-432 | Told by the state before: a poll at value 1 or more takes exactly one; otherwise it returns E_TMOUT and changes nothing. |
| CallEffects.ServesPick | os/kernel/semaphore.c:172-230 | There is exactly one waiter to serve: the head, or with priority order the first of the best. |
| CallEffects.ChangeEffect | os/kernel/task_manage.c:698-777 | Told by the state before: E_PAR exactly out of range, E_OBJ exactly for a dormant task, both without effect; otherwise that task and no other has the new priority, a ready one last in its new queue, a waiting one in its place. |
| CallEffects.StartEffect | os/kernel/task_manage.c:419-433 | Told by the state before: E_OBJ exactly for a task that is not dormant; otherwise it is ready, last in its queue, and nothing else changes. |
| CallEffects.RefusedEffect | os/kernel/kernel.c:1197-1270 | A call for an ID out of range returns E_ID, for an object that does not exist E_NOEXS, and changes nothing. |
| CallEffects.RoundRobinEffect | os/kernel/timer_callrte.c:47-54 | A time-slice expiry puts the running task last in its queue; no record changes, and all other tasks keep their places in every queue. |
| CallEffects.FeedbackEffect | os/kernel/timer_callrte.c:61-73 | Under the feedback scheduler the task that ran has priority min(p + 1, 31) and stands last in that queue; no other priority changes, and all other tasks keep their places in every queue. |
| CountedRuns.SlicesLaw | os/kernel/timer_callrte.c:61-73 | In every run over mutexes without a priority protocol and without priority changes, a task runs as many priorities below where it began as time slices of its own ran out under the feedback scheduler, down to 31. |
| CallEffects.CallerOut | os/kernel/ready.c:530-566 | Before a call its caller leaves its ready queue; all other tasks keep their places. |
| CallEffects.WholeCall | os/kernel/kernel.c:2965-2991 | After the body of a call a step changes nothing but who runs. |
| RunTheorems.BestTaskRuns | os/kernel/scheduler.c:718-744 | After every step the running task is first in the queue of the best priority that any ready task has; the init task runs only when no other task is ready. |
| RunTheorems.MoveKeepsOrder | os/kernel/task_manage.c:789-839 | Changing the priority of a ready task puts it last in its new queue and keeps the order of all other tasks in every queue. |
| KernelTheorems.StepKeepsGood | os/kernel/kernel.c:2965-2991 | Every call and every time-slice expiry, whatever protocols the mutexes use, keeps all lock, semaphore and queue invariants and the fixed attributes of all objects; it halts the kernel only when no task at all is ready. |
| KernelTheorems.RunCovered | os/kernel/kernel.c:2965-2991 | A kernel without immediate-highest-locker mutexes can make every run of calls and expiries; no state on the way falls outside the theorems. |
| KernelTheorems.DispatchOk | os/kernel/kernel.c:2762-2957 | The body of every modelled call keeps the lock and semaphore invariants and never reaches down_system. |
| KernelTheorems.ChgPriOk | os/kernel/task_manage.c:698-777 | A priority change by a call, in each of its branches, touches no lock, no semaphore and no wait queue. |
| KernelTheorems.StaTskOk | os/kernel/task_manage.c:419-433 | Starting a task touches no lock, no semaphore and no wait queue. |
| LockInvariants.LocVinherOk | os/kernel/prinvermutex.c:995-1035 | Locking keeps the accounting of virtual and physical mutexes and the separation of owners from waiters, and never halts. |
| LockInvariants.UnlVinherOk | os/kernel/prinvermutex.c:1045-1111 | Unlocking keeps the same, through recursion, nesting, release and hand-over, and never halts. |
| LockInvariants.LocVoidOk | os/kernel/mutex.c:738-760 | Locking without a protocol keeps the lock invariants and never halts. |
| LockInvariants.UnlVoidOk | os/kernel/mutex.c:849-888 | Unlocking without a protocol keeps them, hand-over to a waiter included. |
| LockInvariants.LocInherOk | os/kernel/prinvermutex.c:256-284 | Locking with inheritance keeps them, the boost included. |
| LockInvariants.UnlInherOk | os/kernel/prinvermutex.c:294-339 | Unlocking with inheritance keeps them, the reset and the hand-over included. |
| LockInvariants.LocImHighOk | os/kernel/prinvermutex.c:409-440 | Locking with a ceiling keeps them, the raise included, in a kernel with any protocols. |
| LockInvariants.UnlImHighOk | os/kernel/prinvermutex.c:450-502 | Unlocking with a ceiling keeps them, in a kernel with any protocols. |
| LockInvariants.ClearBothOk | os/kernel/mutex.c:597-608 | Clearing the ownership of the last VINHERIT mutex together with the virtual one's keeps the accounting: no mutex counts as owned, the virtual count is zero, and nobody owns either. |
| LockInvariants.HandOverCount | os/kernel/prinvermutex.c:876-889 | If the released mutex was the only VINHERIT mutex owned, then after the writes of a hand-over the mutex asked for is the only one, whether it is the same or another. |
| KernelTheorems.WaiSemOk | os/kernel/semaphore.c:381-407 | Waiting for a semaphore keeps the lock and semaphore invariants. |
| KernelTheorems.SigSemOk | os/kernel/semaphore.c:341-372 | Signalling keeps them, hand-over to a waiter included. |
| KernelTheorems.PolSemOk | os/kernel/semaphore.c:416-432 | Polling keeps them. |
| KernelState.EnqueueKeepsWF | os/kernel/ready.c:575-609 | Appending a task that is in no queue to the queue its new record names keeps every task in exactly the queue its record names. |
| KernelState.DequeueKeepsWF | os/kernel/ready.c:618-653 | Taking a task out at any position, with a record that names no queue, keeps the same. |
| KernelState.BestIndex | os/kernel/prinvermutex.c:913-926 | The hand-over scan finds a waiter of the best priority, and the first such waiter. |
| KernelCalls.MoveReadyTasks | os/kernel/task_manage.c:817-820 | A boost of a ready task changes its priority and nothing else in any task's record. |
| KernelCalls.IchgPriTasks | os/kernel/syscall.c:1319-1341 | A boost inside a call changes one priority or, out of range or dormant, nothing. |
| KernelCalls.ListedPriBound | os/kernel/prinvermutex.c:378-397 | The priority computed at unlock is never worse than the initial one. |
| Bitmaps.BitmapInit | os/kernel/ready.c:215-254 | The sixteen-entry table holds the lowest set bit of every non-zero four-bit pattern and a value that drives the search below zero for pattern 0. |
| Bitmaps.BitSearch | os/kernel/scheduler.c:674-711 | For every 32-bit word the search returns E_NG exactly for zero, and otherwise the index of the lowest set bit. |
| Bitmaps.LowestBitUnique | os/kernel/scheduler.c:674-711 | No other index meets that contract. |
| Bitmaps.SetBitSpec | os/kernel/ready.c:605-605 | Raising a bit changes that bit only. |
| Bitmaps.ClearBitSpec | os/kernel/ready.c:560-560 | Dropping a bit changes that bit only. |
| KernelObject.SearchFindsLeast | os/kernel/scheduler.c:718-744 | With the bitmap in step with the queues the bit search finds the best priority with a ready task, or none. |
| TaskQueues.TaskQueue.PutTail | os/kernel/ready.c:595-603 | Appending through head, tail and the link pair adds the task at the end, leaves every other queue well formed and every other clear link clear. |
| TaskQueues.TaskQueue.GetHead | os/kernel/ready.c:553-563 | Taking the head removes exactly the first task and clears its links; every other queue and clear link is untouched. |
| TaskQueues.TaskQueue.Remove | os/kernel/mutex.c:707-728 | Taking a task out from the head, the tail or the middle removes exactly that task and clears its links; every other queue and clear link is untouched. |
| TaskQueues.TaskQueue.ValidShape | os/kernel/ready.c:575-609 | Links that lead on from item to item to the end leave no room for a repeated item. |
| TaskQueues.TaskQueue.ScanBest | os/kernel/prinvermutex.c:913-926 | The scan along the links, with its last comparison after the loop, finds the first item of the best priority. |
| KernelObject.Kernel.constructor | os/kernel/ready.c:142-208 | A kernel set up from its blocks: every task dormant, every queue empty, every lock free, bitmap and table in step. |
| KernelObject.Kernel.Boot | os/kernel/kernel.c:3196-3291 | Starting the init task in a new kernel makes it the running task, alone ready, with every lock and queue as it was set up. |
| KernelBoot.BootedIsStarted | os/kernel/kernel.c:3196-3291 | What that leaves is a start of the runs that the theorems speak of: the init task runs, every other task is dormant at its own priority, semaphores and mutexes are as they were created. |
| KernelObject.Kernel.PutCurrent | os/kernel/ready.c:575-609 | Links the caller at the tail of its ready queue, or fills the init cell, raises the bit and the state bit; ignored when already ready. |
| KernelObject.Kernel.GetCurrent | os/kernel/ready.c:530-566 | Unlinks the running task from the head of its queue, drops the bit when the queue empties, clears the state bit. |
| KernelObject.Kernel.GetReady | os/kernel/ready.c:618-653 | Unlinks any ready task from the middle of its queue and makes it current. |
| KernelObject.Kernel.IchgPri | os/kernel/syscall.c:1319-1341 | A boost moves a ready task between queues, or changes a waiting task in place, with current saved and restored; a bad priority or a dormant task is left alone. |
| KernelObject.Kernel.ScanBest | os/kernel/prinvermutex.c:913-926 | The scan along the wait links finds the first waiter of the best priority. |
| KernelObject.Kernel.Wake | os/kernel/semaphore.c:172-230 | The waiter that a release serves, first-come or best, is unlinked, its wait state cleared, and becomes current. |
| KernelObject.Kernel.WaitOn | os/kernel/mutex.c:539-565 | The caller is linked at the tail of the wait queue with its wait state and wait object set. |
| KernelObject.Kernel.LocFirst | os/kernel/mutex.c:489-510 | First lock: owner, count and value set, the caller back in its ready queue; a mutex already locked halts the kernel. |
| KernelObject.Kernel.LocMultipl | os/kernel/mutex.c:519-531 | A recursive lock raises the count by exactly 1 below the limit, and is refused with E_ILUSE at it. |
| KernelObject.Kernel.NotLockFirst | os/kernel/mutex.c:575-590 | With more than one lock the count falls by exactly 1 and the code is E_OK; otherwise E_ILUSE and no control block changes. |
| KernelObject.Kernel.PutMtxWait | os/kernel/mutex.c:615-699 | A released mutex passes to the waiter that is served, who becomes ready. |
| KernelObject.Kernel.LocVoid | os/kernel/mutex.c:738-760 | The whole new state of a lock without a protocol, every branch. |
| KernelObject.Kernel.UnlVoid | os/kernel/mutex.c:849-888 | The whole new state and code of an unlock without a protocol, every branch. |
| KernelObject.Kernel.LocInher | os/kernel/prinvermutex.c:256-284 | The whole new state and code of a lock with inheritance, every branch. |
| KernelObject.Kernel.UnlInher | os/kernel/prinvermutex.c:294-339 | The whole new state and code of an unlock with inheritance, every branch. |
| KernelObject.Kernel.BestListed | os/kernel/prinvermutex.c:378-397 | The loop along the links of the raised mutexes computes the fallback priority. |
| CeilingLists.CeilingList.PutHead | os/kernel/prinvermutex.c:345-351 | A mutex that is not listed becomes the head of the list, the links of all others in step. |
| CeilingLists.CeilingList.Remove | os/kernel/prinvermutex.c:358-370 | A listed mutex is taken out at any position; an unlisted one, whose links are clear, leaves the list as it was. |
| KernelObject.Kernel.LocImHigh | os/kernel/prinvermutex.c:409-440 | The whole new state and code of a lock with a ceiling, every branch, the list links included. |
| KernelObject.Kernel.UnlImHigh | os/kernel/prinvermutex.c:450-502 | The whole new state and code of an unlock with a ceiling, every branch, the list links included. |
| KernelObject.Kernel.LocVinher | os/kernel/prinvermutex.c:995-1035 | The whole new state and code of a lock with virtual inheritance, every branch. |
| KernelObject.Kernel.PutVirtualWait | os/kernel/prinvermutex.c:838-954 | A hand-over of the virtual mutex: the waiter that is served owns the mutex that its record says it was waiting for, locked once, and is ready; the released mutex is free unless it is that one. |
| KernelObject.Kernel.UnlVinher | os/kernel/prinvermutex.c:1045-1111 | The whole new state and code of an unlock with virtual inheritance, every branch. |
| KernelObject.Kernel.SigSemIsr | os/kernel/semaphore.c:341-372 | E_QOVR exactly if nobody waits and the value is at the maximum; otherwise the waiter at the head or the first of the best priority becomes ready, or the value is one more. |
| KernelObject.Kernel.WaiSem | os/kernel/semaphore.c:381-407 | A wait counts down or queues the caller. |
| KernelObject.Kernel.PolSem | os/kernel/semaphore.c:416-432 | A poll counts down or returns E_TMOUT; the caller stays ready. |
| KernelObject.Kernel.ChgPri | os/kernel/task_manage.c:698-777 | A priority change of the caller, of a ready or of a waiting task, and the errors E_PAR and E_OBJ. |
| KernelObject.Kernel.StaTsk | os/kernel/task_manage.c:419-433 | A dormant task becomes ready; E_OBJ otherwise. |
| KernelObject.Kernel.LocMtxCall | os/kernel/mutex.c:156-201 | Dispatch of a lock call by protocol, with E_ID and E_NOEXS in front. |
| KernelObject.Kernel.UnlMtxCall | os/kernel/mutex.c:275-320 | Dispatch of an unlock call by protocol, with E_ID and E_NOEXS in front. |
| KernelObject.Kernel.Schedule | os/kernel/scheduler.c:718-744 | The next task: the head of the queue that the bit search finds, the init task, or a halt. |
| KernelObject.Kernel.Syscall | os/kernel/kernel.c:2965-2991 | A whole call on the blocks: the caller out of its queue, the call, the next task, and the code returned. |
| KernelObject.Kernel.RoundRobin | os/kernel/timer_callrte.c:47-54 | A time-slice expiry puts the running task last in its queue and leaves every other place and every record as it was. |
| KernelObject.Kernel.Feedback | os/kernel/timer_callrte.c:61-73 | A feedback expiry gives the running task priority min(p + 1, 31) and the last place in that queue, and leaves every other place and record as it was. |
| KernelObject.Kernel.Step | os/kernel/kernel.c:2965-2991 | Any step does to the blocks what the step function does to their value. |
| KernelObject.Kernel.RunSteps | os/kernel/kernel.c:2965-2991 | Any run that the theorems cover, over mutexes of any protocols, is made by the blocks just as by their value: the theorems hold of the linked queues, the list of raised mutexes, the bitmap and the control blocks. |
| Trees.PutLeftWalk | os/kernel/ready.c:964-975 | Hanging a task in as a left child puts it just before its parent in the in-order walk. |
| Trees.PutRightWalk | os/kernel/ready.c:978-1002 | Hanging a task in on the right, splice at an equal key included, puts it just after its parent in the in-order walk. |
| Trees.PutLeftNeighbours | os/kernel/ready.c:964-1004 | What that does to the left child, right child and parent of every task. |
| Trees.PutRightNeighbours | os/kernel/ready.c:978-1004 | What that, splice included, does to the left child, right child and parent of every task. |
| Trees.RemoveWalk | os/kernel/ready.c:1137-1244 | In the cases in which the code leaves a tree (GetTask says which), taking out a task takes it and nothing else out of the in-order walk. |
| Trees.RemoveNeighbours | os/kernel/ready.c:1137-1244 | What that does in those cases to the left child, right child and parent of every other task. |
| Trees.FirstHasNoLeft | os/kernel/ready.c:1106-1247 | The first task of the walk has no left child, so the running task can always be taken out. |
| ReadyTrees.ReadyTree.Descend | os/kernel/ready.c:948-1003 | The descent from the root ends where the key belongs: beside the task of the same key that is nearest to the root, with all others of that key below it, if there is one; otherwise where everything in the walk before is less and everything behind is more. |
| ReadyTrees.ReadyTree.PutCurrent | os/kernel/ready.c:897-1010 | Insertion: the list is the old one with exactly that task put in where its key belongs, directly behind the task of its key nearest to the root if there is one, and the tree the old one with the task hung in there; the ranks are the predecessor's and those before it, continued one by one, or all anew from 1; the kernel halts if and only if the last of them reaches 32.  Otherwise tree and list agree after it (in-order walk = sorted list forwards and backwards, parent pointers, keys in order, ranks strictly rising in 1..31) if and only if the task did not come into an empty tree with sort links left over from earlier. |
| ReadyTrees.StaleStart | os/kernel/ready.c:1251-1274 | A concrete run that does: two tasks start, run and leave, and the first one, started again, leads the list to the second, which is not ready. |
| ReadyTrees.ReadyTree.LinkBefore | os/kernel/ready.c:1022-1034 | List insertion before the parent, at the head of the list included. |
| ReadyTrees.ReadyTree.LinkAfter | os/kernel/ready.c:1037-1047 | List insertion after the parent, at the end of the list included. |
| ReadyTrees.ReadyTree.AdjustPriority | os/kernel/ready.c:1056-1095 | Renumbering starts at the insertion point from the predecessor's rank, or at the head from 1 when min_priority is 16 and tsk_num is not; it leaves strictly rising ranks and min_priority one past the last, and halts if and only if the last rank would be 32 or more. |
| ReadyTrees.ReadyTree.GetTask | os/kernel/ready.c:1106-1247 | Removal of any ready task: with at most one child, or a left child that has no right child, tree and list agree after it without that task and nothing else has changed; in the remaining case the pointers hang together in no tree at all, while the list is still right. |
| ReadyTrees.ReadyTree.Unlink | os/kernel/ready.c:1251-1274 | List removal at any position; the sort links of the task itself stay as they were. |
| ReadyTrees.ReadyTree.Pick | os/kernel/scheduler.c:947-958 | The pick halts exactly when no task is ready, and otherwise runs a ready task with the least key and the best dynamic priority of all. |
| ReadyTrees.ReadyTree.Requeue | os/kernel/timer_callrte.c:94-104 | Taking out the running task, charging it and putting it back keeps the invariant and hangs it into the tree without it where the insertion would, all other keys and the order of all other tasks; it halts if and only if the renewed ranks reach 32, and never with one task alone. |
| ReadyTrees.ReadyTree.Start | os/kernel/task_manage.c:419-433 | Starting a task does to the keys in key order, the ranks, min_priority and tsk_num what the step function on those values says, and halts exactly when it does.  After a start with left-over sort links into an empty tree these are the keys of the tree alone: the linked list is another one, and the row on AllReturn says what comes of it. |
| ReadyTrees.ReadyTree.Leave | os/kernel/ready.c:1106-1247 | The same for the running task leaving the list and the pick after it, which halts if and only if no task is ready any more. |
| ReadyTrees.ReadyTree.Expire | os/kernel/timer_callrte.c:94-104 | The same for a Fair quantum expiry with any charge: the task stays in front if and only if all others have larger keys then; min_priority goes one up, or starts again from the number of tasks if the task stays in front or the exhaustion is noticed; the kernel halts if and only if it passes 32. |
| ReadyTrees.ReadyTree.Expiries | os/kernel/timer_callrte.c:94-104 | Any run of expiries with any charges follows the run of those values step by step: the kernel halts at the expiry at which that run ends, and otherwise shows its last values. |
| DynamicRanks.ExpiriesForever | os/kernel/ready.c:880-888 | No run of expiries at all, each charged some time or none, halts the kernel for want of a priority if and only if at most one task is ready, or min_priority is at most 16, is not tsk_num + 1, and, if tsk_num is n - 1 for n ready tasks, is less than 16 with the first two keys equal. |
| ReadyTrees.ReadyTree.LastingExpiries | os/kernel/timer_callrte.c:94-104 | On the tree: from such a state no charges whatever halt the kernel. |
| ReadyTrees.ReadyTree.RuinousExpiries | os/kernel/timer_callrte.c:94-104 | On the tree: from every other state there are charges, at most 33 of them, that do. |
| ReadyTrees.ReadyTree.EqualExpiries | os/kernel/timer_callrte.c:94-104 | Expiries of two or more tasks that are equal to within one quantum, all charged alike: the kernel goes on for ever if the exhaustion is noticed, and has halted after 32 expiries if not. |
| DynamicRanks.EqualForever | os/kernel/ready.c:880-888 | Such tasks go on for ever if and only if min_priority is at most 16, is not tsk_num + 1, and is not 16 with tsk_num at n - 1. |
| DynamicRanks.FreshForever | os/kernel/ready.c:880-888 | n equal tasks, started in a fresh kernel and charged alike, never starve it of priorities if n is at most 14, and have starved it after 18 quanta if n is 15 or more. |
| ReadyTrees.ReadyTree.StartAll | os/kernel/task_manage.c:419-433 | Starting tasks one by one in a fresh kernel is the run of starts on the values that FreshForever speaks of; if their keys are all the same, the first one is at the root and first in the list, and the others follow in the reverse of the order in which they were started. |
| ReadyTrees.StartEqual | os/kernel/ready.c:991-1002 | On the tree: n equal tasks started in a fresh kernel stand in the order 1, n, n - 1, ..., 2, or, with n at least 32, have halted it. |
| ReadyTrees.EqualTasks | os/kernel/ready.c:1085-1089 | On the tree: a fresh kernel with n equal tasks is still running after any number of quanta with n at most 14, and has halted after 18 with n at least 15. |
| DynamicRanks.SettledForever | os/kernel/ready.c:876-888 | Tasks that start, leave and run in any order, but for stale starts (into an empty list with left-over sort links), once min_priority is at most 16 and 16 insertions have been counted: with at most n of them at a time the kernel is sure never to starve if and only if n is at most 15. |
| ReadyTrees.ReadyTree.Perform | os/kernel/ready.c:897-1274 | On the tree: any sequence of starts, ends of the running task and expiries, with any charges, follows the run of those values up to the first stale start; it halts exactly when they run out of priorities or no task is ready. |
| ReadyTrees.ReadyTree.FewTasks | os/kernel/ready.c:876-888 | On the tree, with at most 15 tasks beside the init task, from such a state: no sequence of deeds without a stale start ever starves the kernel. |
| ReadyTrees.ReadyTree.ManyTasks | os/kernel/ready.c:876-888 | On the tree, with 16 tasks or more: some sequence without a stale start does. |
| ReadyTrees.ReadyTree.StartLed | os/kernel/ready.c:1017-1092 | After a stale start, for all such states: starting the task that the left-over link leads to makes it its own successor, or with a smaller key that of the task before it, and the renumbering goes round until the kernel is down. |
| ReadyTrees.ReadyTree.AllReturn | os/kernel/ready.c:897-1274 | From every state with two ready tasks or more: when all leave and the first two come back, the kernel is down for want of a priority. |
| ReadyTrees.StaleStarve | os/kernel/ready.c:1251-1274 | A concrete run to that: two tasks are started in a fresh kernel, leave, and come back. |
| ReadyTrees.ReadyTree.StarveTwo | os/kernel/ready.c:1085-1089 | Two ready tasks with execution times 0 and 3, min_priority 3 and tsk_num 1, charged 2 for every quantum: the kernel is starved of priorities within 31 expiries, each counted in tsk_num. |
| ReadyTrees.TwoTasksStarve | os/kernel/ready.c:1085-1089 | A concrete run to that: the two tasks are started in a fresh kernel, with execution times 0 and 3, and expire until it has halted. |
| DynamicRanks.TwoStarve | os/kernel/ready.c:1085-1089 | The same run on the values. |
| Admission.Unrolled.Add | os/kernel/scheduler.c:1021-1077 | After any sequence of admitted tasks the stored length is the least common multiple of all periods and the stored time the sum of e * (length / r). |
| Admission.Unrolled.Misses | os/kernel/scheduler.c:1104-1106 | The kernel freezes if and only if the sum of e / r over all tasks exceeds 1. |
| Admission.SpanIsLeast | os/kernel/scheduler.c:1043-1053 | The stored length is a common multiple of all periods and divides every other one. |
| Admission.LcmSpec | os/kernel/scheduler.c:1043-1053 | The product divided by what Euclid's loop finds is the least common multiple. |
| Admission.DemandScales | os/kernel/scheduler.c:1055-1058 | Stretching the common span stretches the stored time alike, so earlier tasks stay accounted for. |
| Admission.ExactTest | os/kernel/scheduler.c:1104-1106 | Comparing the two integers decides exactly whether the real utilisation exceeds 1. |
| Admission.OrderIndependent | os/kernel/scheduler.c:1021-1077 | The order in which tasks are created changes neither number. |
| MemoryPools.Memory.constructor | os/kernel/memory.c:76-83 | After initialisation every class has all its blocks on its free list, once each. |
| MemoryPools.Memory.InitPool | os/kernel/memory.c:53-73 | One class is strung together in address order right behind the previous class. |
| MemoryPools.Memory.Get | os/kernel/memory.c:89-117 | A request takes the first free block of the smallest class that fits and makes it live, or halts when that class is empty or there is none. |
| MemoryPools.Memory.Release | os/kernel/memory.c:123-145 | A live block goes back in front of the free list of its own class, found by the size in its header. |
| MemoryPools.Memory.ReleaseThenGet | os/kernel/memory.c:89-145 | A release followed by a request of that class returns the same block and leaves all lists as they were. |
| MemoryPools.Memory.LiveBlocksApart | os/kernel/memory.c:53-117 | Any two live blocks, of any classes, occupy separate address ranges. |
| MemoryPools.Memory.FreePlusLive | os/kernel/memory.c:53-145 | Free and live blocks of a class add up to the class; no block is free twice, or free and live. |
| MemoryPools.BlocksApart | os/kernel/memory.c:41-73 | All blocks of all classes occupy separate address ranges. |
| Mailboxes.Mailbox.Send | os/kernel/mailbox.c:451-494 | A message goes to the waiting task that the order of the mailbox serves, first-come or the first of the best priority, or else to the end of the queue. |
| Mailboxes.Mailbox.Receive | os/kernel/mailbox.c:503-530 | A request gets the message that the order of the mailbox serves, the first or the first of the best priority, or waits. |
| Mailboxes.Mailbox.Poll | os/kernel/mailbox.c:540-553 | A polling request gets the message that the order serves, or E_TMOUT and leaves everything as it was. |
| Mailboxes.Mailbox.HandOver | os/kernel/mailbox.c:266-345 | A waiting task that is handed a message leaves the wait queue; deliveries and the queue of messages still account for all messages sent. |
| Mailboxes.Mailbox.Fetch | os/kernel/mailbox.c:164-230 | A message that is fetched leaves the queue; deliveries and the queues still account for everything sent and asked for. |
| Mailboxes.Mailbox.ExactlyOnce | os/kernel/mailbox.c:451-530 | With any orders a message sent once is either queued or was delivered exactly once. |
| Mailboxes.Mailbox.InTurn | os/kernel/mailbox.c:451-530 | With first-come orders the k-th message sent goes to the k-th accepted request, as soon as both are there. |
| RoundRobinQueues.SingleQueue.Expire | os/kernel/timer_callrte.c:32-40 | An expiry moves the running task from head to tail and runs the next; a single task stays. |
| RoundRobinQueues.SingleQueue.ExpireTimes | os/kernel/timer_callrte.c:32-40 | k expiries turn a queue of n tasks by k modulo n places. |
| RoundRobinQueues.EverybodyGetsHead | os/kernel/scheduler.c:630-665 | Every task in the queue is at its head within n expiries. |
| IdTables.SemTable.constructor | os/kernel/semaphore.c:52-69 | The table at start-up is empty, with two IDs, an array of two blocks and a chain of two. |
| IdTables.SemTable.Install | os/kernel/semaphore.c:272-299 | The next ID leads to its block in the static array or to the first free dynamic block, of which there always is one; no other entry changes and no other contents. |
| IdTables.SemTable.Double | os/kernel/kernel.c:1045-1151 | After doubling every ID in use leads to equal contents, wait queue ends included, a static one in its block of the new array, a dynamic one in the very block it had; the added IDs are free; the dynamic chain is the old one followed by as many new blocks, without repetition, and the free ones begin where they did or at the new ones; the backward link at the join is right if and only if just one block was free. |
| IdTables.SemTable.Grow | os/kernel/kernel.c:1077-1112 | The larger table and array: every static entry renewed to its copy, every dynamic entry kept. |
| IdTables.SemTable.Join | os/kernel/kernel.c:1115-1151 | The walk to the last dynamic block, from the first free one or the first in use, and the link written there make one acyclic chain of the two. |
| IdTables.SemTable.Search | os/kernel/kernel.c:1010-1035 | The next ID is the first empty slot, of the table or of the IDs that doubling adds; dynamic blocks keep their place, contents are kept. |
| IdTables.SemTable.Create | os/kernel/kernel.c:961-999 | A creation returns an ID that was not in use and adds exactly its contents, whether the table doubles or not; dynamic blocks stay where they are; bad arguments return E_PAR and change nothing. |

## Left out

- KernelObject.Kernel.WriteMutex: control blocks are records in tables that the kernel object rewrites; aliasing of control blocks, which the source does not use, is not captured.
- KernelObject.Kernel.Syscall: the call flag that keeps getcurrent and putcurrent from acting inside a nested call, and the bookkeeping of what a task holds for its forced termination, are not modelled; neither are calls while dispatching is disabled.
- KernelObject.Kernel.ChgPri: does not take priority 32, which passes the range check of the source and would index past its queue array.
- KernelObject.Kernel.LocMtxCall: does not take a lock that would put a mutex on the list of raised mutexes a second time; nor do KernelObject.Kernel.Step and KernelObject.Kernel.RunSteps.
- IdTables.SemTable.Search: whether there is memory to double the table is a parameter, and the old table and array are not given back to the allocator.
- IdTables.SemTable.Create: deletion of semaphores; the tables of tasks, mailboxes, mutexes, cyclic and alarm handlers are copies of this one.
- Mailboxes.Mailbox.Receive: the timed receive.
- ReadyTrees.ReadyTree.GetTask: what later operations make of the pointers after a removal that leaves no tree; and, after ReadyTrees.ReadyTree.PutCurrent with stale links, operations other than the start of the task that the link leads to.
- Admission.Unrolled.Add: 32-bit overflow of the products.
- Ploc, tloc and twai calls, their timers, and forced release from wait queues: they leave stale wait links.
- The priority ceiling protocol and the delayed highest locker: the first does not give the guarantees of its name, the second adds little to the immediate form.
- Deleting objects, and ending or terminating tasks with the release of what they hold.
- The O(1) scheduler, the priority-fair scheduler and the switching of schedulers.
- Service calls, interrupt handlers, dispatching, stacks, drivers, the shell and the sample tasks.
