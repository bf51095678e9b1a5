# ptask: a verified model of the fiber run-time

ptask runs stackful coroutines ("fibers"). A service thread has a maintask, a ready list that the
maintask closes, a delta-encoded list of timers, and wait queues in mutexes, semaphores and condition
variables. On top of that sit an elastic byte pipe, two bounded queues and a read-write lock. This
project models that logic in Dafny and proves what it promises over every input and every run.

Two builds matter. In the 1:N build (the Makefile's) one thread runs everything and an API call, up to
its context switch, is one step. In the M:N build several threads share fibers; there the model keeps
to the races and counters worth modelling.

## Layout

| file | what it is |
|---|---|
| `DeltaList.dfy` | the watchdog list as a fast encoding of a map from fiber to remaining time |
| `Scheduler.dfy` | the 1:N run-time as a state machine: every API call as a function on states |
| `SchedulerInvariant.dfy` | the invariant of that machine, kept by every call |
| `SchedulerEffects.dfy` | the exact effect of every call on queues, ready list and control blocks |
| `CallLaws.dfy` | what each call does in terms of its own arguments: when it blocks, what it arms, takes, delivers, creates |
| `SchedulerRuns.dfy`, `SyncRuns.dfy` | theorems over whole runs: location, fairness, semaphores, mutexes, events |
| `Kernel.dfy` | the same calls as methods of a class that updates its fields in place, proved equal to the machine |
| `Deadlines.dfy` | clock and deadlines over whole runs of the scheduler |
| `Chain.dfy` | the intrusive lists at the level of memory words |
| `NodeMemory.dfy`, `WordCalls.dfy` | all chains of a service thread in one memory; the calls, and whole runs, on words |
| `NextPow2.dfy`, `Ring.dfy`, `Pipe.dfy` | the pipe: sizes, ring arithmetic, the object and its amortised cost |
| `TwoLockPipe.dfy` | the pipe under concurrency, byte by byte |
| `CondClients.dfy`, `BoundedQueue.dfy` | what a condition variable guarantees its clients; the bounded-queue monitor |
| `BlockQueue.dfy`, `FiberRing.dfy`, `RwLock.dfy` | the three monitors as objects on a service thread |
| `TimedWait.dfy` | the M:N race of waiter, poster and timer |
| `StaleTimer.dfy`, `StaleSleep.dfy` | the fiber's next wait or sleep, begun while an old timer action is still in progress |
| `LoadBalance.dfy` | the M:N fiber counters, thresholds and global ready lists |
| `StackCache.dfy` | the local and global stack caches |
| `Streams.dfy`, `Options.dfy` | how first-in first-out runs compose; optional values |

Imperative code in the source is imperative here: `ServiceThread`, `ElasticPipe`, `NodeQueue`,
`RingQueue`, `StackPool`, `RwLockObject`, `BlockQueueObject` and `FiberQueueObject` are classes, the chain
macros and ring copies work in place on arrays. Each such method is tied to a specification function
or to the abstract queue, and the theorems are about those.

## Where the code and its description differ

The model follows the code. In each case the exact condition is proved.

- A comment at `src/task.c:573` says `fiber_sched` finds no candidate only when called from the maintask,
  and `include/task.h:217-222` says a yield gives up the processor. A lone fiber that yields keeps running,
  and the maintask behind it does not run: `SchedulerRuns.YieldSwitchesIff`, `SchedulerRuns.LoneFiberKeepsRunning`.
- A tick compares every entry with the same gap and takes the fired deltas off the survivors as well. It is a
  plain countdown of all remaining times if and only if everybody is due, or whoever is not due at once has more
  than the gap left: `DeltaList.TickIsExactIff`.
- The loop measures the gap from tick to tick, while fibers call between ticks, so the next gap also counts the
  time before a call. For both reasons fibers can be woken early. By how much is exact: a timer starts ahead
  by the time since the last tick and gains every delta fired before it (`DeltaList.LeadLaw`,
  `DeltaList.WakeLaw`). No timer ever runs ahead and nobody is woken early if and only if every tick meets the
  guard above and every timer is armed at the instant of a tick:
  `DeltaList.NeverEarlyIff`, over runs of the scheduler `Deadlines.NoFiberIsEarlyIff`; `DeltaList.EarlyWake` and
  `DeltaList.EarlyByLateCall` are examples of the two ways to fail.
- A lower bound on the requested times keeps every fiber of every run from being woken late if and only if it is
  not negative: `DeltaList.NeverLateIff`, over runs of the scheduler `Deadlines.NoFiberIsLateIff`.
- A timed-out semaphore wait does not return its decrement, so each time-out swallows a later post:
  `SyncRuns.TimeoutSwallowsAPost`, and the run `SyncRuns.PostSwallowed`.
- In M:N mode a timer action can still be in progress when the wait it belongs to has been ended by a poster,
  exactly while the timer holds the watchdog lock (`TimedWait.OutlivesIff`). The fiber's next wait, begun
  meanwhile, can be ended by that old action if and only if it has not looked at the wait state yet, or waits
  for the lock in the same branch, or is in that branch behind another object's lock
  (`StaleTimer.OldEndsIff`); otherwise exactly-once holds again (`StaleTimer.ExactlyOneWakesAgain`). The fiber can
  even be made ready twice if and only if that happens to a queued wait on another object (`StaleTimer.TwiceIff`),
  or to a sleep before the old action's first look (`StaleSleep.CutShortIff`).
- A service thread leaves on its own counter alone, so fibers on a global ready list can outlive all
  threads: `LoadBalance.LastLeaverStrands`, `LoadBalance.FibersCanBeStranded`.
- The global stack cache starts with no slot marked free, so it is never used by requests of non-zero
  size. Only a zero-size request on an empty local cache changes that, and global slot 0 is then taken for
  "not found": `StackCache.StepInv`, `StackCache.StoredTwiceIff`.

## Model

| member | source | states |
|---|---|---|
| DeltaList.InsertedTimes | src/task.c:665-696 | Arming a fiber gives the remaining-time map exactly one new entry, the requested timeout; every other remaining time is unchanged. |
| DeltaList.InsertedOrder | src/task.c:675-683 | The order of expiry: nobody else changes places; the new fiber stands behind everybody due earlier and, unless it asks for no time, directly behind the first of those due with it, ahead of the others. |
| DeltaList.WalkInsert | src/task.c:665-696 | The walk that subtracts each passed delta and splits the larger one computes the specified insertion, for every list and every request, negative ones included. |
| DeltaList.RemovedTimes | src/task.c:698-715 | Disarming removes exactly that fiber from the map of remaining times; the successor absorbs the delta so nobody else moves. |
| DeltaList.Splice | src/task.c:698-715 | Splicing an entry out by position computes the specified removal. |
| DeltaList.TickAt | src/task.c:718-787 | A tick splits the armed fibers into fired and surviving ones, and a survivor's time becomes old - gap - (sum of fired deltas). |
| DeltaList.TickOrder | src/task.c:725-783 | A tick fires from the front: the fired fibers followed by the survivors are the list in its order. |
| DeltaList.DueFires | src/task.c:718-787 | Every fiber due within the gap is among the fired ones. |
| DeltaList.TickIsExactIff | src/task.c:725-783 | A tick counts every remaining time down by the gap, firing nobody early and shortening nobody, if and only if all armed fibers are due or each of them has either no time left or more than the gap. |
| DeltaList.EarlyIff | src/task.c:725-783 | From a list whose times are exact, an event wakes somebody before the deadline or leaves somebody with too little time if and only if it is a tick that fails its guard or a timer armed after the last tick. |
| DeltaList.NeverEarlyIff | src/task.c:1457-1463 | Over every run of calls, passing time and ticks without negative requests, no timer ever runs ahead of its deadline and nobody is woken early if and only if every tick meets its guard and every timer is armed at the instant of a tick. |
| DeltaList.LeadLaw | src/task.c:665-787 | Over every run, a timer that stays armed is ahead of its deadline by its lead at the start plus all deltas fired since; LeadStep adds that it starts ahead by the time since the last tick. |
| DeltaList.WakeLaw | src/task.c:725-783 | A fiber fired by a tick is woken before its deadline by exactly its lead plus its stored time minus the gap, and early iff that is positive. |
| DeltaList.EarlyByLateCall | src/task.c:1457-1463 | A fiber that asks at 8 for 5 more is woken at 9, by a tick that finds everybody due. |
| DeltaList.EarlyWake | src/task.c:725-783 | A run in which the first tick fires only a due fiber and the second wakes another at 10 that was due at 15. |
| DeltaList.NeverLate | src/task.c:665-787 | Over every run of calls, passing time and ticks without negative requests, whoever is still armed after a tick asked for an instant that has not come yet. |
| DeltaList.NeverLateIff | src/task.c:665-787 | All runs with requests of at least b leave nobody late if and only if b is not negative. |
| DeltaList.NegativeRequestDelaysOthers | src/task.c:653-696 | For every negative request there is a run in which a fiber armed behind it is due and still armed after a tick. |
| SchedulerInvariant.StepInv | src/task.c:564-1437 | Every API call keeps: flags agree with the one chain a fiber is on, timers agree with the timeout flag, the maintask closes the ready list, free mutexes have no waiters, the local count is exact. |
| SchedulerInvariant.FireInv | src/task.c:726-783 | Whoever is at the head of the watchdog list is in a wakeable state, so the fall-through after the three branches is unreachable; waking it keeps the invariant. |
| SchedulerInvariant.RunInv | src/task.c:564-1437 | The invariant holds after every run of enabled calls. |
| SchedulerRuns.ReachableLocated | src/task.c:564-1437 | In every reachable state each live fiber is on the ready list iff no blocked flag is set, on a mutex, semaphore or condition queue iff that flag is set, on no chain when suspended, asleep or waiting for events, on at most one chain, and armed iff its timeout flag is set. |
| SchedulerRuns.ReachableMainLast | src/task.c:564-594 | In every reachable state the maintask is last on the ready list, once, and the running fiber is on it. |
| SchedulerRuns.LoopExitsAlone | src/task.c:1498-1503 | In every reachable state the loop's exit test holds if and only if the maintask is the only live fiber. |
| SchedulerRuns.YieldSwitchesIff | src/task.c:631-651 | A yield switches if and only if some other fiber than the caller and the maintask is ready. |
| SchedulerRuns.LoneFiberKeepsRunning | src/task.c:571-578 | A reachable state in which the caller of a yield is not the maintask and still nothing is switched. |
| SchedulerRuns.BypassStep | src/task.c:564-594 | No call of any kind moves a ready fiber backwards, and every scheduling call moves it forward or runs it. |
| SchedulerRuns.BoundedBypass | src/task.c:564-651 | A ready fiber at index i runs within i+1 scheduling calls, whatever is created, woken, blocked or exits meanwhile. |
| SchedulerRuns.WakeCode | src/task.c:733-751 | A timed waiter is made ready with code 0 exactly by the timer and with code 1 by a post or signal, and is then on no watchdog list. |
| SchedulerRuns.CodeKeptUntilRun | src/task.c:1077-1124 | The code a waiter was woken with is still there when its call resumes, however long it stays ready. |
| SchedulerRuns.TimedCallReturns | src/task.c:1077-1124 | A timed wait that blocks, from call to return: the caller finds code 1 iff a post, signal or broadcast on its object released it, 0 iff a tick did, and a tick never does without a positive timeout. |
| SchedulerEffects.StepQueue | src/task.c:927-1437 | The exact content of every wait queue after every call: unchanged, joined at the tail, served at the head, emptied, or rid of the expired. |
| SchedulerEffects.StepReady | src/task.c:624-629 | Calls that do not reschedule only append the woken fibers before the maintask, in order. |
| SchedulerEffects.StepRotates | src/task.c:564-594 | Rescheduling calls rotate the ready list by exactly one fiber. |
| SchedulerEffects.StepTcb | src/task.c:564-1437 | The exact control block of every fiber after every call. |
| SchedulerEffects.TickleMoves | src/task.c:718-787 | In the full state a tick leaves exactly the delta list's survivors and appends exactly the fired fibers to the ready list, in order. |
| CallLaws.WaitsExactly | src/task.c:564-1437 | Whether a call takes its caller off the ready list, as a condition on its arguments and the fields it finds: a count at or below zero, another holder, an unsatisfied event set, a timeout other than zero. |
| CallLaws.TimersExactly | src/task.c:653-696 | A call that blocks inserts its caller into the watchdog list with precisely the time it asks for; with a negative timeout, or none, the list is unchanged. |
| CallLaws.EventWaitExactly | src/task.c:793-837 | A wait takes the wanted pending bits at once iff some are there and either any will do or all are; a poll changes nothing; otherwise the caller is off the ready list with its request recorded and its own timeout armed. |
| CallLaws.EventPostExactly | src/task.c:840-912 | A post adds its bits and wakes the fiber iff it waits and its set condition now holds: it seizes exactly the wanted pending bits, goes last on the ready list and is disarmed. Otherwise only the bits are added. |
| CallLaws.CreateExactly | src/task.c:512-552 | A new fiber is ready, behind all others, and nothing else changes but the count. |
| CallLaws.ExitExactly | src/task.c:415-447 | After an exit the maintask is the running fiber, the caller is gone and the others keep their order. |
| CallLaws.InitExactly | src/task.c:918-1211 | A new semaphore has the given count, a new mutex no holder and no entries, each with nobody queued; nothing else changes. |
| CallLaws.YieldedCodeArrives | src/task.c:600-629 | Whatever happens between a yield and the resume that answers it, the resumer finds the yielded code. |
| SyncRuns.Fifo | src/task.c:1038-1194 | On every wait queue, without expiries, those waiting plus arrivals equal departures plus those still waiting, in order: first come, first served. |
| SyncRuns.MutexFifo | src/task.c:927-1020 | Mutex hand-offs follow arrival order in every run. |
| SyncRuns.BooksStep | src/task.c:1048-1194 | Per call, count plus waiters changes by posts minus grants minus time-outs. |
| SyncRuns.SemAccounting | src/task.c:1038-1194 | Over every run: count = initial + posts - grants - waiters - timeouts, grants never exceed initial + posts, and without time-outs a negative count is minus the queue length. |
| SyncRuns.BooksFromInit | src/task.c:1038-1194 | The same over every run that starts with the init call, in terms of the count it asks for. |
| SyncRuns.TimeoutSwallowsAPost | src/task.c:733-751 | With nobody waiting, a wait blocks if and only if the tokens left do not outnumber the time-outs so far. |
| SyncRuns.PostSwallowed | src/task.c:733-751 | A run from boot with one post, no grant, one time-out and nobody waiting, after which a wait blocks. |
| SyncRuns.HeldIsBalance | src/task.c:927-971 | `reentries` of the holder is its locks minus unlocks over the run, and everybody else's balance is zero. |
| SyncRuns.BalanceFromInit | src/task.c:918-971 | Over every run that starts with the init call, every fiber holds what its locks exceed its unlocks by, beginning with no holder. |
| SyncRuns.MutualExclusion | src/task.c:927-1020 | Two fibers never both have more locks than unlocks. |
| SyncRuns.LeavesQueueAsHolder | src/task.c:962-992 | A fiber leaves a mutex queue only by an unlock that makes it the holder with one entry. |
| SyncRuns.HolderKeptUntilRun | src/task.c:958-960 | It still is the holder, with one entry, when its lock call returns. |
| SyncRuns.LockCallReturns | src/task.c:927-960 | A lock call that blocks, from call to return: whatever happened meanwhile, the caller is the holder with one entry. |
| Deadlines.RunOfCalls | src/task.c:1457-1489 | A run with passing time, the passing time left out, is a run of the scheduler with the same final state. |
| Deadlines.DeadlineIsRequested | src/task.c:653-696 | A blocking timed call dates its caller at the present instant plus the timeout of the call; without a timer the deadlines are unchanged. |
| Deadlines.NoFiberIsLate | src/task.c:653-787 | In every run from boot with time passing between calls and no negative sleep, after a tick every fiber that still sleeps or waits with a timer has a deadline in the future, counted from the moment of its call. |
| Deadlines.NoFiberIsLateIff | src/task.c:653-787 | All runs from boot with sleeps of at least b leave no fiber late if and only if b is not negative. |
| Deadlines.NoFiberIsEarlyIff | src/task.c:1457-1463 | In every such run nobody is woken before the instant asked for, or left with too little time, if and only if every tick meets its guard and every timer is armed at the instant of a tick. |
| Deadlines.NoFiberIsEarly | src/task.c:653-787 | In runs that meet those guards a tick fires precisely the timers whose instant has come. |
| SyncRuns.NoMissedEvent | src/task.c:793-912 | In every reachable state a fiber waiting for any of some events has none of them pending, and one waiting for all has an empty request or some wanted bit not pending. |
| SyncRuns.EventConservation | src/task.c:793-912 | Over every run, bits taken plus bit pending never exceed bits posted plus bit pending before, and an untaken posted bit is still pending. |
| SyncRuns.TimedOutEventReturnsZero | src/task.c:752-768 | A wait ended by the timer leaves nothing seized and every pending bit in place. |
| SchedulerRuns.EventCallReturns | src/task.c:793-837 | An event wait that blocks, from call to return: the caller finds a set that satisfies its request iff a post to it ended the wait, and none iff a tick did, which needs a positive timeout. |
| Kernel.ServiceThread.FiberSched | src/task.c:564-594 | The in-place rotation computes the state machine's scheduling step. |
| Kernel.ServiceThread.WatchdogInsert | src/task.c:665-696 | Refuses an armed fiber with code 1, otherwise inserts into the delta list and sets the flag. |
| Kernel.ServiceThread.WatchdogRemove | src/task.c:698-715 | Removes an armed fiber from the delta list and clears the flag; nothing to do for others. |
| Kernel.ServiceThread.FiberCreate | src/task.c:512-552 | New fibers enter the ready list before the maintask and the invariant holds. |
| Kernel.ServiceThread.FiberExit | src/task.c:415-447 | The exiting fiber leaves list and counters and the maintask is the running fiber. |
| Kernel.ServiceThread.FiberYield | src/task.c:600-622 | Stores the code, suspends and switches. |
| Kernel.ServiceThread.FiberResume | src/task.c:624-629 | Returns the stored code and makes the fiber ready. |
| Kernel.ServiceThread.FiberSchedYield | src/task.c:631-651 | Moves the caller to the end and switches, as the state machine does. |
| Kernel.ServiceThread.FiberUsleep | src/task.c:653-659 | Arms the timer with the time asked for, leaves the ready list and switches. |
| Kernel.ServiceThread.EventWaitCall | src/task.c:793-837 | Takes the wanted pending bits at once iff some are there and any will do or all are, polls with timeout 0, or parks with its own timeout armed; new state and result exactly. |
| Kernel.ServiceThread.EventPostCall | src/task.c:840-912 | Adds the bits and wakes the fiber exactly when it waits and some wanted bit is there and any will do or all are, delivering the wanted pending bits. |
| Kernel.ServiceThread.MutexInitCall | src/task.c:918-925 | A new mutex is free with nobody queued; nothing else changes and the invariant holds. |
| Kernel.ServiceThread.MutexLockCall | src/task.c:927-960 | Re-enters, acquires, or queues and switches; the outcome says which. |
| Kernel.ServiceThread.MutexUnlockCall | src/task.c:962-1020 | False for a non-holder; otherwise drops one entry and on the last hands the mutex to the first waiter. |
| Kernel.ServiceThread.SemInitCall | src/task.c:1038-1046 | A new semaphore has the given count, negative ones included, and nobody queued. |
| Kernel.ServiceThread.SemWaitCall | src/task.c:1048-1075 | Takes a token or queues and switches. |
| Kernel.ServiceThread.SemTimedWaitCall | src/task.c:1077-1124 | Takes a token, gives the decrement back on a failed poll, or queues with exactly the timeout asked for armed. |
| Kernel.ServiceThread.SemPostCall | src/task.c:1126-1194 | Increments and wakes the first waiter, dropping its timer. |
| Kernel.ServiceThread.CondWaitCall | src/task.c:1213-1240 | Queues the caller at the tail and switches. |
| Kernel.ServiceThread.CondTimedWaitCall | src/task.c:1242-1289 | Polls with timeout 0, else queues with exactly the timeout asked for armed. |
| Kernel.ServiceThread.CondSignalCall | src/task.c:1291-1356 | Wakes the first waiter, if any, with code 1. |
| Kernel.ServiceThread.CondBroadcastCall | src/task.c:1358-1437 | The two loops, collect onto a local chain then release one by one, equal as many signals as there were waiters. |
| Kernel.ServiceThread.WatchdogTickle | src/task.c:718-787 | The loop over the watchdog list computes the state machine's tick, and its last branch is dead. |
| Chain.InitEmpty | include/chain.h:215-226 | The three header words form an empty chain. |
| Chain.InsertBefore | include/chain.h:251-262 | On memory words, inserting before the k-th node is inserting at k in the sequence; no word outside the chain changes. |
| Chain.Append | include/chain.h:291-302 | Appending at the tail is appending to the sequence, for empty and non-empty chains alike. |
| Chain.Remove | include/chain.h:264-274 | A node is taken out at its position, first and last included, without naming the chain. |
| Chain.ExtractFirst | include/chain.h:317-330 | NULL and no change on an empty chain, else the first node and the rest of the sequence. |
| Chain.MoveAll | include/chain.h:359-362 | Safe iteration around remove and append visits every node once, in order: one chain ends empty, the other ends with all its nodes, and no other word changes. |
| Chain.ChainFrame | include/chain.h:208-236 | A chain is unaffected by writes to words it does not own. |
| NodeMemory.RemoveFrom | include/chain.h:264-274 | With many disjoint chains in one memory, removing a node changes its own chain only, and afterwards no chain owns its words. |
| NodeMemory.InsertInto | include/chain.h:251-262 | Inserting a node nobody owns changes one chain only and keeps all of them disjoint. |
| NodeMemory.SchedOnWords | src/task.c:564-594 | Scheduling on memory words: the memory that held the chains of a state holds those of the state after the scheduling step, and the node returned is that of the new current fiber. |
| NodeMemory.ParkOnWords | src/task.c:600-611 | Leaving the ready list for a wait queue, or for none, on memory words yields the queues of the parked state; all other chains, the watchdog list included, are kept. |
| NodeMemory.WakeOnWords | src/task.c:624-629 | Leaving whatever queue the fiber is on for the ready list, on memory words, yields the queues of the woken state; all other chains are kept. |
| WordCalls.StepOnWords | src/task.c:564-1437 | Every call but the making of objects, composed of the chain macros on one memory, takes the queues of the state before to the queues of the state after and keeps the watchdog list beside them. |
| WordCalls.RunOnWords | src/task.c:564-1437 | The same for every run. |
| NextPow2.NextPowerOfTwo | pipe.c:462-494 | Bit smearing returns the least power of two not below n for 1 <= n <= 2^63, and n itself above. |
| NextPow2.CeilIsPow2 | pipe.c:462-494 | The reference value is a power of two. |
| NextPow2.CeilIsLeast | pipe.c:462-494 | No smaller power of two is at least n. |
| Ring.PushAppends | pipe.c:817-853 | Writing into the free part and moving end appends to the queue and disturbs nothing queued, wrap-around included. |
| Ring.PopDrops | pipe.c:969-1011 | Moving begin drops exactly the oldest bytes. |
| Ring.MoveKeeps | pipe.c:733-783 | Unwrapping sentinel and data to the front of a new buffer keeps the queue. |
| Pipe.GrowSize | pipe.c:785-812 | The size a grow asks for is a legal capacity, has room for what is needed, at least doubles, and is at most twice what is needed. |
| Pipe.TrimSize | pipe.c:1017-1052 | A trim lands on a legal capacity of at least 64 elements. |
| Pipe.GrowIsPaid | pipe.c:756-812 | The bytes a grow moves are paid for by the pushed bytes and the stored potential. |
| Pipe.TrimIsPaid | pipe.c:1017-1052 | The bytes a trim moves are paid for by the popped bytes and the stored potential. |
| Pipe.ProcessPush | pipe.c:817-853 | The one- or two-piece copy writes exactly the given bytes at wrapped positions, in bounds, and nothing else. |
| Pipe.PopWithoutLocking | pipe.c:969-1011 | The one- or two-piece copy out returns exactly the oldest n bytes. |
| Pipe.CopyIntoNewBuf | pipe.c:733-747 | Sentinel and data arrive unwrapped at the front of the new buffer, in bounds. |
| Pipe.ElasticPipe.constructor | pipe.c:564-611 | A new unlimited pipe is empty, aligned and sound, has one producer and the minimum capacity. |
| Pipe.ElasticPipe.ResizeBuffer | pipe.c:756-783 | Keeps the queued bytes; does nothing at or below the minimum capacity, else has the new capacity and moved exactly the data and sentinel. |
| Pipe.ElasticPipe.ValidateSize | pipe.c:785-812 | Afterwards the bytes fit, the queue is unchanged, the capacity is the old one if that had room and else the least power of two with room, and the cost is covered by six units a byte, whenever the size a grow asks for is representable. |
| Pipe.ElasticPipe.Push | pipe.c:878-929 | The queue becomes old queue + data; the capacity changes only when the data did not fit, and then to the least power of two of elements that holds them and the sentinel; soundness, alignment and the cost account are kept. |
| Pipe.ElasticPipe.TrimBuffer | pipe.c:1017-1052 | Trims if and only if at most a quarter is used and half is still above the minimum; then to exactly half. The queue is kept. |
| Pipe.ElasticPipe.Pop | pipe.c:1059-1098 | Returns min(requested, queued) oldest bytes, or waits exactly when the pipe is empty with producers left; afterwards the capacity is halved iff at most a quarter of it is used and half is above the minimum. |
| Pipe.ElasticPipe.PopAll | pipe.c:1100-1116 | Collects until the count is reached, the producers are gone or it must wait; returns the exact prefix. |
| Pipe.ElasticPipe.SentinelRule | pipe.c:502-538 | In every state of the object begin meets end exactly when the pipe is full, end is inside the buffer and both are aligned. |
| Pipe.ElasticPipe.ResizingIsAmortised | pipe.c:310-314 | Bytes moved by all resizes ever done are at most 3 pushed + 2 popped + 16 elem_size. |
| Pipe.Drive | pipe.c:878-1116 | For every sequence of pushes and pops, up to the first push that needs an unrepresentable buffer: the pipe holds what a plain byte queue holds, queued before + pushed == popped + queued after, the sentinel rule and the amortised bound hold. |
| TwoLockPipe.NoOverlap | pipe.c:301-308 | The position a pusher writes, computed from its stale begin, and the position a popper reads are in bounds and never the same. |
| TwoLockPipe.StaleIsSafe | pipe.c:785-853 | A stale begin only underestimates the room, a stale end only what is queued. |
| TwoLockPipe.PushFromSnapshot | pipe.c:817-853 | Run with its stale snapshot, the push copy takes the right path and writes exactly the bytes and positions of the concurrent steps. |
| TwoLockPipe.PopFromSnapshot | pipe.c:969-1011 | Run with its stale snapshot, the pop copy returns the oldest bytes of the current queue. |
| TwoLockPipe.StepRefines | pipe.c:785-1052 | Every shared access of every interleaving keeps the invariant and is a step of a byte queue, linearised at the end and begin updates. |
| TwoLockPipe.ResizeNeedsBothLocks | pipe.c:785-812 | The buffer changes size only while both locks are held by one side. |
| TwoLockPipe.ResizesIff | pipe.c:785-1052 | The buffer grows at exactly the steps where what is queued and what is to be pushed exceed it, and is halved at exactly those where at most a quarter is used and half is above the minimum. |
| TwoLockPipe.SomeHolderCanMove | pipe.c:540-547 | Whenever a lock is held some holder has an enabled step: the lock order does not deadlock. |
| TwoLockPipe.Linearizable | pipe.c:878-1098 | For every interleaving: queue before + bytes pushed == bytes popped + queue after. |
| TwoLockPipe.CallsDecide | pipe.c:878-1098 | For every interleaving from free locks, the queue and the bytes handed out are those of a plain byte queue that is told the operations alone: a push appends the data its call brought, a pop removes the oldest min(asked for, queued at its lock) bytes. |
| TimedWait.StepInv | src/task.c:698-751 | Every atomic step of waiter, poster and timer keeps the protocol invariant. |
| TimedWait.NeverTwice | src/task.c:726-751 | At every moment of every interleaving the waiter has been made ready at most once. |
| TimedWait.ExactlyOneWakes | src/task.c:1077-1194 | When the race is settled exactly one side made the waiter ready, the code tells which, and the fiber is on no queue and no watchdog list. |
| TimedWait.EpisodesEnd | src/task.c:1077-1194 | Every episode ends: the number of steps is bounded by the rank of its state. |
| TimedWait.NobodyIsStuck | src/task.c:1077-1194 | If nobody can move, the waiter has switched, no action is half done, and a post or time-out has happened. |
| TimedWait.OutlivesIff | src/task.c:726-751 | In every reachable state in which the poster has ended the wait, a timer action is in progress iff the timer holds the watchdog lock, and then it is at one of five positions. |
| TimedWait.TimerCanOutliveTheWait | src/task.c:726-751 | Each of those positions is reached, for queued and for event waits. |
| StaleTimer.OldEndsIff | src/task.c:733-751 | A wait begun then can be ended by the old action, with no post and no expiry of its own, if and only if that action is at one of the named positions. |
| StaleTimer.ExactlyOneWakesAgain | src/task.c:1077-1194 | From every other position, in every interleaving of the four actors, exactly one of the new wait's own poster and timer wakes it, once, and the code tells which. |
| StaleTimer.OldIsInvisible | src/task.c:733-751 | From every other position, leaving out the old action's steps gives a run of the plain protocol with the same outcome. |
| StaleTimer.TwiceIff | src/task.c:733-751 | The new wait can be made ready twice if and only if the old action can reach it and it is a queued wait on another object. |
| StaleSleep.CutShortIff | src/task.c:770-776 | A new sleep can be cut short, and its fiber made ready twice, if and only if the old action has not looked at the flags yet. |
| StaleSleep.SleepEndsOnce | src/task.c:770-776 | Otherwise, in every interleaving, the sleep ends exactly once, by its own timer. |
| CondClients.SparedQueue | src/task.c:1213-1437 | Any call that does not name a condition leaves its untimed queue exactly as it was. |
| CondClients.SignalEffect | src/task.c:1291-1356 | A signal moves the first waiter, and only it, to the ready list. |
| CondClients.BroadcastEffect | src/task.c:1358-1437 | A broadcast moves all waiters of that condition, and only those. |
| CondClients.WaitEffect | src/task.c:1213-1240 | A wait moves the caller, and only it, from the ready list to the condition. |
| BoundedQueue.NextInv | blockq.c:231-276 | Every turn of every fiber, including unrelated run-time calls, keeps the counting invariant of the monitor. |
| BoundedQueue.NoLostWakeup | blockq.c:231-276 | In every run: if a consumer is parked the items are at most the awake consumers, if a producer is parked the free slots are at most the awake producers. |
| BoundedQueue.NeverAllAsleep | blockq.c:231-276 | With a positive limit, producers and consumers are never all parked at once. |
| BoundedQueue.ItemsAreFifo | include/fiberq.h:115-155 | Over every run, items before + pushed == popped + items after. |
| BlockQueue.NodeQueue.constructor | blockq.c:204-229 | All limit+8 nodes are on the free list. |
| BlockQueue.NodeQueue.PushNode | blockq.c:166-174 | Below the limit a free node exists; the object is appended, and queue and free list still partition the nodes. |
| BlockQueue.NodeQueue.PopNode | blockq.c:176-189 | Returns the oldest object and puts its node back on the free list; the partition is kept. |
| BlockQueue.BlockQueueObject.PushCall | blockq.c:231-253 | One turn of a push is one turn of the monitor: queued and signalled, or parked exactly when the queue is at its limit. |
| BlockQueue.BlockQueueObject.PopCall | blockq.c:255-276 | One turn of a pop: the oldest object, or parked exactly when the queue is empty. |
| FiberRing.RingQueue.Put | include/fiberq.h:115-134 | The ring slot arithmetic appends the item. |
| FiberRing.RingQueue.Take | include/fiberq.h:136-155 | The ring slot arithmetic returns and drops the oldest item. |
| FiberRing.FiberQueueObject.PushCall | include/fiberq.h:115-134 | One turn of a push on the ring is one turn of the same monitor. |
| FiberRing.FiberQueueObject.PopCall | include/fiberq.h:136-155 | One turn of a pop on the ring is one turn of the same monitor. |
| RwLock.NextInv | rwlock.c:27-64 | Every turn, including unrelated run-time calls, keeps the lock's invariant. |
| RwLock.HoldsAreBalances | rwlock.c:27-64 | In every run each fiber holds the lock as often as its own lock calls that got it exceed its unlock calls, for reading and for writing. |
| RwLock.FieldsAreTotals | rwlock.c:27-64 | In every run from init `readers` is the number of read calls that got the lock minus read unlocks, `writer` is set iff write calls exceed write unlocks, by one at most, and the two are never both positive. |
| RwLock.ReadersXorWriter | rwlock.c:27-64 | Under matched calls, in every run, by the calls alone: while one fiber has more write locks than unlocks it has one, no other fiber has any, and no fiber has more read locks than unlocks. |
| RwLock.SleepersFaceAHolder | rwlock.c:27-64 | Whoever is parked on the lock, lock calls are ahead of unlock calls, and a parked reader faces a write call that is. |
| RwLock.RwLockObject.RdLockCall | rwlock.c:27-35 | Gets the lock at once exactly when there is no writer, which adds one reader, else parks and changes neither field. |
| RwLock.RwLockObject.WrLockCall | rwlock.c:47-55 | Gets the lock at once exactly when nobody holds it, which sets the writer, else parks and changes neither field. |
| RwLock.RwLockObject.RdUnlockCall | rwlock.c:37-45 | Drops one reader and broadcasts on the last. |
| RwLock.RwLockObject.WrUnlockCall | rwlock.c:57-64 | Clears the writer and broadcasts. |
| LoadBalance.StepInv | src/task.c:91-118 | Join, create, exit, leave, block, wake, resume and balance keep: exact local counters, live owners, each ownerless fiber once on its group's list, and the totals. |
| LoadBalance.CountersAreExact | src/task.c:525-552 | In every reachable state each local counter is the number of fibers owned, and locals plus global lists sum to the global counter, the number of live fibers. |
| LoadBalance.CreateExactly | src/task.c:525-552 | A create puts the fiber last on its group's list, owned by nobody, if and only if 7(n+1) < 6((x-1)m + 1) for n fibers, m threads and x local fibers; otherwise the creator owns and counts it. |
| LoadBalance.BalanceExactly | src/task.c:1469-1485 | A thread pulls if and only if 15(xm + 1) <= 16n: it takes the first fiber of the list its cursor names, if any, and moves the cursor; otherwise nothing changes. |
| LoadBalance.WakeExactly | src/task.c:91-118 | A fiber woken on its own thread stays there; one woken from another leaves its owner's count for the end of its group's list. |
| LoadBalance.WaitingHasAPuller | src/task.c:1469-1485 | Whenever a global list is non-empty and a thread is live, some live thread is below the pull threshold. |
| LoadBalance.ExportGoesElsewhere | src/task.c:527-533 | A create that exports leaves its own thread at or above the pull threshold and another live thread below it. |
| LoadBalance.SingleThreadNeverExports | src/task.c:527-533 | With one service thread a create never exports. |
| LoadBalance.PulledWithin | src/task.c:1471-1485 | Under any interleaving a thread polls at most 4k+3 times while the fiber at position k of a global list stays there. |
| LoadBalance.LastLeaverStrands | src/task.c:1498-1503 | When the last thread leaves, the fibers that remain are exactly as many as wait on the global lists: none iff those are empty. |
| LoadBalance.FibersCanBeStranded | src/task.c:1498-1503 | A run of two threads that ends with no thread and a fiber on a global list. |
| StackCache.ScanNibbles | src/task.c:140-169 | The nibble scan returns the last fitting slot of the first group of four that has one, and -1 exactly when no occupied slot fits. |
| StackCache.ScannedUnique | src/task.c:140-169 | That description determines the index. |
| StackCache.EverySlotIsAVictim | src/task.c:283-288 | The address hash reaches each of the eight slots, from an address other than NULL. |
| StackCache.StackPool.PutCall | src/task.c:262-308 | Into the lowest free local slot, else a global one, else over a victim that is returned for unmapping; slot 0 of the global cache also evicts. |
| StackCache.StackPool.GetCall | src/task.c:310-383 | A local hit, else a global hit, else a miss that changes nothing. |
| StackCache.StepInv | src/task.c:262-383 | A create or exit keeps "each mapped stack has one owner, the global cache is untouched" if and only if it is not a zero-size request on an empty local cache. |
| StackCache.EachStackOnce | src/task.c:431-437 | In every run of non-zero requests each mapped stack belongs to exactly one live fiber or one occupied local slot, nothing else is mapped, and the global mask is 0. |
| StackCache.CreateServes | src/task.c:310-383 | A create gets at least the requested size; a new mapping is made exactly when no occupied local slot fits and the system can provide one. |
| StackCache.Round | src/task.c:475-477 | Page rounding in 32 bits is a whole number of pages, 0 exactly for 0 and for requests above 2^32 - 4096; otherwise at least the request and less than a page more. |
| StackCache.StoredTwiceIff | src/task.c:271-300 | A put stores its stack in two slots if and only if the local cache is full and global slot 0 is free. |
| StackCache.FourZeroRequests | src/task.c:338-357 | Four zero-size requests on empty caches mark global slot 0 free. |

## Left out

- Register and stack switching (`src/context.S`): the model keeps only which fiber is current, and makes no M:N claim that depends on when a context is saved.
- M:N atomicity: each flag update, list splice and lock operation is one atomic step; lost updates of the non-atomic `state |=` are not modelled, and spinlocks are atomic sections.
- Pipes with a non-zero limit: the bound is rounded in bytes and bypassed by the resize code, so the documented limit is not what the code maintains.
- `pipe_reserve`: it sets the minimum to the requested size before asking for the resize, which then returns early.
- Pipe handles: reference counts and freeing are left out; the number of producers is a plain field of the object.
- Pipe waits in M:N mode: no liveness claim is made for the signals sent without the waiter's lock.
- Pipe.ElasticPipe.Push: requires that, if the buffer must grow, the size asked for plus one element fits in 64 bits; what the size arithmetic does beyond that is not modelled.
- Pipe.ElasticPipe.ValidateSize: the same bound, stated on elements.
- Integer widths: counters, reentries, delta times and gaps are unbounded integers, except in `next_pow2` and in the page rounding of stack sizes.
- DeltaList.NeverLate: is stated for runs without negative requests; DeltaList.NeverLateIff says that exactly those bounds will do.
- SyncRuns.Fifo: is stated for runs in which nobody expires on that queue; mutex queues never have expiries.
- TimedWait.ExactlyOneWakes: covers one episode that starts with no post or timer action in progress for the fiber; StaleTimer treats the other starts.
- WordCalls.StepOnWords: leaves out the initialisation of objects, which adds a header to the memory; flags, counts and timers are read off the state.
- Watchdog splices on memory words: the watchdog list is held in the same memory and kept by the other splices; its own walk is modelled on entries.
- LoadBalance.StepInv: works at API-call granularity; a thread that joins or leaves does so in one step, and a startup callback that fails is not modelled.
- Maintask and resume: the maintask never blocks and only a suspended fiber is resumed, as the library expects of its callers.
- Destroying or re-initialising synchronisation objects, and freeing queues: nothing happens to wait queues there.
- Free lists of control blocks: identities may be reused after an exit, and uninitialised fields are arbitrary "stale" values.
- The stack cache of a thread's very first fiber, which is looked up before the thread has a local cache.
- `CHAIN_*` macros with a field name, prepend, insert-after, replace and reverse iteration: the same splices again.
- Sockets and epoll (`src/epoll.c`, `simplehttp.c`), the demo programs and the scripts in `bin/`.
