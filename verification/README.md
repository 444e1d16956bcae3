# Thread-Metric: a verified model of the ports and benchmarks

This project models the parts of the Thread-Metric RTOS benchmark suite where
correctness depends on many steps acting together, and proves what those parts
promise. Four things are modelled:

* **The ThreadX POSIX-host handoff protocol.** A scheduler pthread, a timer
  pthread that plays the interrupt, and any number of ThreadX pthreads pass the
  processor around with one recursive mutex, counting semaphores, suspend and
  resume signals and acknowledge pipes. `HandoffModel` states each of them as a
  program counter with local data and one step function; `HandoffInvariant`
  proves an inductive invariant; `HandoffSafety` and `HandoffProgress` draw the
  consequences. Below the protocol, `CondSemaphore` proves that the semaphore
  made from a mutex and a condition variable is an atomic counting semaphore, and
  `InterruptLockout` proves nested disable and restore for every tree of calls;
  `HandoffLockout` shows that both models mean the same by interrupt control.
* **The scheduling benchmarks.** The chain of preemptive threads and the ring of
  cooperative threads, both for any number of threads, and the two interrupt
  tests, each with a reporter that may preempt at any statement and reads the
  counters one by one (`Tolerance`, `PreemptiveChain`, `PreemptiveRounds`,
  `CooperativeRing`, `CooperativeLaps`, `InterruptTests`, `InterruptRounds`).
* **Synthetic interrupt context on Cortex-M** (`SyntheticIsr`), with real
  interrupts arriving at every point where they are not masked.
* **Two data cores**: the free list whose links lie in the free blocks, on a byte
  array (`PointerBytes`, `Freelist`), and the report's decimal printers, formatted
  printer and option rules (`Decimal`, `Printf`, `Options`).

The ThreadX core is an environment of the handoff model: whoever holds the mutex
in its place (the running thread, or the timer inside a tick) may set the execute
pointer to any thread or to none and the preemption-disable count to anything. So
each safety theorem holds for every decision the core could make. The benchmark
models assume strict priority, first-in first-out order within a priority, and
that a preempted thread keeps its place.

## How the source maps to the models

The step functions follow the source statement by statement, split wherever
another process can interfere.

* `HandoffModel.SchedulerStep`: `_tx_thread_schedule`
* `HandoffModel.TimerStep`: `_tx_thread_context_save`, `_tx_timer_interrupt` and
  `_tx_thread_context_restore`, in the loop of the timer pthread
* `HandoffModel.EntryStep`, `ControlStep`, `YieldStep`, `ReenterStep`: the thread
  entry, `_tx_thread_interrupt_control`, and the two halves of
  `_tx_thread_system_return`
* `HandoffModel.HandlerStep`: the suspend signal handler
* `CondSemaphore.Step`: post, wait and trywait
* `PreemptiveChain.WorkerStep`, `CooperativeRing.WorkerStep`,
  `InterruptPreemptionTest.MachineStep`, `InterruptProcessingTest.ThreadStep`: the
  thread entries, with each counter increment split into its load and its store
* `Tolerance.ReporterStep`: the reporter's snapshot and check

Code that works on its data without interference is imperative here too: the
classes `InterruptLockout.Port`, `SyntheticIsr.Port`, `Freelist.Pool`,
`Decimal.Console` and `Options.Parameters`, and the loops of `Printf`.

## Three results that differ from what one would expect

* *A thread with interrupts disabled is never suspended by a tick.* A tick that
  begins now suspends the current thread if and only if the mutex is free, which,
  with the scheduler waiting for a yield, means if and only if that thread does not
  hold it (`HandoffSafety.TickStopsIffUnlocked`). So the expectation is right for a
  thread that holds the mutex and wrong for the posture flag alone. A thread whose
  flag says "disabled" is stopped exactly when it has been selected again after a
  yield and is about to take the mutex; `HandoffWitness.FlaggedThreadCanBeStopped`
  is such a run from the initial state.
* *The reporter's check accepts counters within 1 of each other.* It does if and
  only if their total fits in an unsigned long, or has wrapped to less than the
  number of counters (`Tolerance.ToleranceIsExact`). The preemptive benchmark gets
  there: with 32-bit counters its reporter complains of five equal counters after
  900 million rounds (`PreemptiveRounds.FiveThreadsComplain`).
* *A drain finds nothing to discard.* True of the scheduler semaphore and of every
  run semaphore (`HandoffSafety.DrainsFindNothing`). False of the interrupt
  semaphore: between passing its wait and taking the mutex again, the timer can be
  overtaken by a thread that yields and is dispatched anew, for which the scheduler
  posts once more (`HandoffDrainWitness.IsrDrainCanFindPost` is such a run). From
  the moment the timer raises its flag until it lowers it, the drain discards
  something if and only if more handoffs were completed than the one the timer
  waited for (`HandoffSafety.DrainDiscardsIffOvertaken`).

## Model

| member | source | states |
|---|---|---|
| HandoffInvariant.InitEstablishesInv | ports/threadx/posix-host/tx_thread_stack_build.c:38-53 | the state with every thread in its entry function satisfies the inductive invariant |
| HandoffInvariant.SchedulerKeepsInv | ports/threadx/posix-host/tx_thread_schedule.c:24-69 | every step of the scheduler keeps it |
| HandoffInvariant.TimerKeepsInv | ports/threadx/posix-host/tx_thread_context_restore.c:15-60 | every step of a tick, from context save to context restore, keeps it |
| HandoffInvariant.ThreadKeepsInv | ports/threadx/posix-host/tx_thread_system_return.c:20-74 | every step of any of the threads keeps it, for all threads |
| HandoffInvariant.OtherEventKeepsInv | ports/threadx/posix-host/tx_initialize_low_level.c:52-79 | signal handlers, calls from application code and every choice of the core keep it |
| HandoffInvariant.RunKeepsInv | ports/threadx/posix-host/tx_thread_schedule.c:24-69 | every run keeps it, for any number of threads |
| HandoffInvariant.ReachableInv | ports/threadx/posix-host/tx_thread_schedule.c:24-69 | it holds in every reachable state |
| HandoffModel.ThreadLeavesRest | ports/threadx/posix-host/tx_thread_system_return.c:20-74 | a thread's step writes nothing but the mutex, the scheduler semaphore, its own data and the current pointer, which it can only clear |
| HandoffSafety.MutualExclusion | ports/threadx/posix-host/tx_thread_schedule.c:24-68 | at most one ThreadX pthread is outside the handoff tails and not stopped, and it is the current thread |
| HandoffSafety.CurrentThreadExecutes | ports/threadx/posix-host/tx_thread_schedule.c:65-68 | between ticks, with the scheduler waiting for a yield, the current thread is exactly the one that executes |
| HandoffSafety.NoThreadExits | ports/threadx/posix-host/tx_thread_interrupt_control.c:34-52 | the "terminated thread" exits are unreachable: a thread that holds the mutex there is the current thread; and no thread takes the branch of interrupt control that is for a tick |
| HandoffSafety.LockCountsAreExact | ports/threadx/posix-host/tx_port.h:280-299 | every hand-kept lock count equals the recursion depth of the real mutex as its pthread holds it |
| HandoffSafety.SemaphoresStayBinary | ports/threadx/posix-host/tx_thread_schedule.c:49-62 | the scheduler semaphore and all run semaphores stay in {0, 1}; the interrupt semaphore is positive only while timer_waiting is set |
| HandoffSafety.DrainsFindNothing | ports/threadx/posix-host/tx_thread_system_return.c:48-51 | every drain of the scheduler semaphore and of a run semaphore finds it at zero; the interrupt semaphore is at zero outside the timer's wait, and when the timer lowers its flag |
| HandoffSafety.RunConservesWakeups | ports/threadx/posix-host/tx_thread_schedule.c:56-68 | over every run, posts to the scheduler semaphore equal the waits that took one plus the change of its count: no drain discards a wakeup |
| HandoffSafety.RunConservesIsr | ports/threadx/posix-host/tx_thread_context_restore.c:44-48 | over every run, each interrupt post is waited for, drained or still there |
| HandoffSafety.DrainDiscardsIffOvertaken | ports/threadx/posix-host/tx_thread_context_restore.c:37-52 | between raising and lowering its flag in one tick, the timer passes its wait at most once, and its drain discards a post if and only if more handoffs were completed than it waited for |
| HandoffDrainWitness.IsrDrainCanFindPost | ports/threadx/posix-host/tx_thread_context_restore.c:44-48 | a run from the initial state, with two threads, in which the drain of the interrupt semaphore finds a post |
| HandoffSafety.TimerWaitsForHandoff | ports/threadx/posix-host/tx_thread_context_restore.c:34-52 | from setting timer_waiting on, the timer passes its wait no more often than handoffs have been completed; when it lowers the flag, those it did not wait for were drained |
| HandoffSafety.IsrPostFollowsAnswer | ports/threadx/posix-host/tx_thread_schedule.c:55-57 | the interrupt post is sent only after the chosen thread took its run semaphore and answered |
| HandoffSafety.SuspensionMeansParked | ports/threadx/posix-host/tx_thread_context_save.c:16-20 | a thread that is not current has suspension_type 1 exactly when it is stopped in the suspend handler, acknowledged and not resumed |
| HandoffSafety.SignalsArePaired | ports/threadx/posix-host/tx_initialize_low_level.c:186-211 | a resume goes only to a pthread that was acknowledged and is not yet resumed, a suspend only to one that has no stop under way |
| HandoffSafety.NoStrayResume | ports/threadx/posix-host/tx_initialize_low_level.c:52-79 | a pending resume belongs to the suspension in progress, the suspended flag means sigsuspend, and no pipe holds more than one byte |
| HandoffSafety.DuplicateSuspendIsIgnored | ports/threadx/posix-host/tx_initialize_low_level.c:59-63 | a suspend signal to a pthread already suspended writes no acknowledge byte and leaves it as it is |
| HandoffSafety.NeverStoppedInSemaphore | ports/threadx/posix-host/tx_port.h:74-103 | no pthread is asked to stop, or stopped, inside a semaphore operation, where it would keep the inner lock |
| HandoffSafety.EarlyResumeIsKept | ports/threadx/posix-host/tx_initialize_low_level.c:74-78 | a resume sent between the acknowledge byte and sigsuspend is not lost |
| HandoffSafety.InterruptIsIsolated | ports/threadx/posix-host/tx_thread_context_save.c:14-24 | system_state is 1 exactly from context save to context restore and else 0; meanwhile nobody executes, nothing is dispatched, and the timer is not signal-suspended |
| HandoffSafety.TickKeepsCurrent | ports/threadx/posix-host/tx_thread_context_restore.c:17-21 | over every run within one tick the current pointer does not change |
| HandoffSafety.TicksOncePerWakeup | ports/threadx/posix-host/tx_initialize_low_level.c:162-171 | over every run the timer goes through its tick body exactly once for each time it wakes |
| HandoffSafety.TickPreemptsIff | ports/threadx/posix-host/tx_thread_context_restore.c:21-57 | at context restore the current thread loses the processor if and only if preemption is enabled and the core has chosen another thread or none; else it keeps it and its resume signal is sent |
| HandoffSafety.DisabledTickKeepsThread | ports/threadx/posix-host/tx_thread_context_restore.c:22-57 | over every run of a tick whose restore finds preemption disabled: it ends with the same thread current, and running again |
| HandoffProgress.TickWaitsIff | ports/threadx/posix-host/tx_thread_context_restore.c:41-50 | a preempting tick waits for the handoff, with the mutex let go, if and only if the chosen thread starts from its run semaphore |
| HandoffProgress.TickEndsAfterHandoff | ports/threadx/posix-host/tx_thread_context_restore.c:41-52 | over every run, such a tick passes its wait exactly once before it lowers its flag, and a handoff has been completed by then |
| HandoffSafety.PostureMatchesMutex | ports/threadx/posix-host/tx_thread_interrupt_control.c:53-61 | a thread in its own code has int_disabled_flag set exactly if it holds the mutex |
| HandoffSafety.TickStopsIffUnlocked | ports/threadx/posix-host/tx_thread_context_save.c:14-20 | a tick that begins now suspends the current thread if and only if the mutex is free; with the scheduler waiting for a yield, if and only if that thread does not hold it; and one whose flag is set if and only if it is about to take the mutex again in system return |
| HandoffSafety.TickStopsUnlockedThread | ports/threadx/posix-host/tx_thread_context_save.c:14-20 | in every reachable state in which a tick is about to stop a thread, that thread has lock count 0 |
| HandoffSafety.RunKeepsPosture | ports/threadx/posix-host/tx_thread_interrupt_control.c:53-61 | over every run in which thread t makes no interrupt-control call, its posture flag does not change |
| HandoffSafety.SystemReturnKeepsPosture | ports/threadx/posix-host/tx_thread_system_return.c:43-74 | a thread that yields and is back in its code any number of handoffs and ticks later holds the mutex then exactly if it did before |
| HandoffWitness.FlaggedThreadCanBeStopped | ports/threadx/posix-host/tx_thread_system_return.c:58-61 | a run from the initial state in which a tick sends the suspend signal to a thread whose int_disabled_flag is set |
| HandoffProgress.NoDeadlock | ports/threadx/posix-host/tx_thread_schedule.c:43-63 | in every reachable state some process can make a step, or the current thread runs its own code while the scheduler waits for it, or nobody is current, the mutex is free, and scheduler and timer are in their nanosleep |
| HandoffProgress.WaitersHavePosters | ports/threadx/posix-host/tx_thread_schedule.c:55-62 | while the scheduler holds the mutex and waits for an answer, the thread it chose is at its posted run semaphore or about to answer, can step, and does not touch the mutex; whoever waits for an acknowledge byte has a signal handler able to run |
| HandoffProgress.ReachableLive | ports/threadx/posix-host/tx_thread_context_restore.c:41-46 | whenever the timer waits for the interrupt semaphore the scheduler is on its way to post it; whenever the scheduler waits with nobody current, somebody is on its way to post |
| HandoffProgress.InternalDescends | ports/threadx/posix-host/tx_thread_schedule.c:24-69 | every step of the protocol lowers one potential function |
| HandoffProgress.EnvironmentAscends | ports/threadx/posix-host/tx_initialize_low_level.c:162-171 | an event of the environment raises it by at most 44 |
| HandoffProgress.ProtocolStepsAreBounded | ports/threadx/posix-host/tx_thread_schedule.c:24-69 | over every run the protocol's own steps are bounded by the initial potential and 44 for each event of the environment |
| HandoffProgress.HandoffCompletes | ports/threadx/posix-host/tx_thread_schedule.c:24-69 | from every reachable state the protocol settles by its own steps, within the bound |
| HandoffProgress.EveryScheduleSettles | ports/threadx/posix-host/tx_thread_schedule.c:24-69 | in whatever order the processes run, the protocol's own steps end within the bound, and where they end it has settled |
| HandoffProgress.EveryScheduleRunsChosen | ports/threadx/posix-host/tx_thread_schedule.c:38-68 | once the core has chosen a thread, the scheduler is awake, no tick is under way and no other thread has the processor: in whatever order the processes run, where their steps end that thread is current and executes its own code |
| HandoffProgress.ChosenThreadRuns | ports/threadx/posix-host/tx_thread_context_restore.c:32-52 | from every reachable state with nobody current, a thread chosen and no tick under way, the rendezvous of a preempting tick included, there is a run of the protocol's own steps, after the scheduler wakes if it sleeps, to that thread executing |
| HandoffLockout.ThreadControlRefines | ports/threadx/posix-host/tx_thread_interrupt_control.c:22-64 | interrupt control by a thread of the protocol does to its lock count, mutex depth and flag what InterruptLockout.Control does |
| HandoffLockout.NestedTickRefines | ports/threadx/posix-host/tx_timer_interrupt.c:32-38 | for every tree of calls nested in a tick, one added lock for each call gives the depth and count that InterruptLockout.Exec gives |
| HandoffLockout.TickBodyRefines | ports/threadx/posix-host/tx_timer_interrupt.c:14-40 | the whole tick body of the protocol, its lock, any tree of calls and its one unlock, leaves the depth and count that InterruptLockout.TimerInterrupt gives |
| CondSemaphore.NextKeepsInv | ports/threadx/posix-host/tx_port.h:74-103 | every step of any number of posters, waiters and triers, spurious wakeups included, keeps the semaphore's invariant |
| CondSemaphore.EveryEventIsAtomic | ports/threadx/posix-host/tx_port.h:74-103 | every step is a silent step, a post, a take of a positive count, or a try that fails on zero: an atomic counting semaphore |
| CondSemaphore.CountIsConserved | ports/threadx/posix-host/tx_port.h:74-103 | over every run the count is the initial count plus the posts minus the successful takes |
| CondSemaphore.NoLostWakeup | ports/threadx/posix-host/tx_port.h:82-89 | while a thread is blocked the count is not negative and not above the wakeups under way, counting a signal about to be sent |
| CondSemaphore.BlockedAtRestMeansZero | ports/threadx/posix-host/tx_port.h:82-89 | when no thread can make a step and one is blocked, the count is zero |
| CondSemaphore.HolderCanRun | ports/threadx/posix-host/tx_port.h:74-103 | the holder of the inner lock can always make its next step |
| CondSemaphore.EachCallTakesEffectOnce | ports/threadx/posix-host/tx_port.h:74-103 | over every run and for each thread, every call performs exactly one operation, in order, after it is made and before it returns, and reports it: a try returns success exactly if it took |
| CondSemaphore.WaitCompletes | ports/threadx/posix-host/tx_port.h:82-89 | a fresh or woken wait with the count positive and the lock free takes one and returns, by four steps of its own |
| CondSemaphore.TryCompletes | ports/threadx/posix-host/tx_port.h:91-103 | a try with the lock free takes one if and only if the count is positive, and returns, by three steps |
| CondSemaphore.PostCompletes | ports/threadx/posix-host/tx_port.h:74-80 | a post with the lock free adds one, wakes one blocked thread if there is any, and returns, by four steps |
| CondSemaphore.OwnStepsAreBounded | ports/threadx/posix-host/tx_port.h:74-103 | over every run a thread's own steps are at most four for each call it makes and each time it is woken: no call circles |
| InterruptLockout.NestedLockout | ports/threadx/posix-host/tx_thread_interrupt_control.c:22-64 | for every properly nested tree of calls the returned posture is Enable exactly at depth 0, the mutex is held all through each outermost section, the end leaves lock count 0 and interrupts enabled, and the other flag is left alone |
| InterruptLockout.InnerCallsOnlyAdd | ports/threadx/posix-host/tx_thread_interrupt_control.c:42-61 | inside a section calls only add to the lock count, two for each inner section, report Disable, and leave the other posture flag: inside a tick that of the interrupted thread |
| InterruptLockout.SectionsAreFlagged | ports/threadx/posix-host/tx_thread_interrupt_control.c:46-61 | for every tree of calls, the flag that is written is set all through every section, nested ones included |
| InterruptLockout.CompleteTick | ports/threadx/posix-host/tx_thread_context_restore.c:15-60 | whatever expiration processing nests and whichever way context restore ends, a complete tick ends with lock count 0 and the interrupted thread's flag untouched; between its halves the timer keeps the mutex exactly if something was nested, and where it waits for the handoff it has let it go |
| InterruptLockout.TickReportsDisabled | ports/threadx/posix-host/tx_timer_interrupt.c:32-38 | nothing nested in a tick is told that interrupts are enabled |
| InterruptLockout.Port.MutexRecursiveUnlock | ports/threadx/posix-host/tx_port.h:291-299 | the unlock loop gives back as many levels as were counted and no more |
| InterruptLockout.Port.InterruptControl | ports/threadx/posix-host/tx_thread_interrupt_control.c:22-64 | returns Enable exactly if nothing was held; disabling adds one lock, enabling gives all back; writes the global flag in a tick, else the current thread's, and nothing else |
| InterruptLockout.Port.Client | ports/threadx/posix-host/tx_thread_interrupt_control.c:11-20 | code that brackets sections with disable and restore ends in the state of Exec |
| InterruptLockout.Port.Restore | ports/threadx/posix-host/tx_thread_context_restore.c:15-60 | the mutex operations of context restore, on each of its three ways, end in the state of ContextRestore |
| InterruptLockout.Port.Tick | ports/threadx/posix-host/tx_timer_interrupt.c:12-41 | a tick entered with lock count 0 ends with lock count 0, system_state 0 and the interrupted thread's flag untouched, for every nesting inside and every ending |
| Tolerance.WordSumIsSum | src/preemptive_scheduling.c:206-207 | the sum computed in unsigned words is the exact sum modulo the word size |
| Tolerance.CloseCountersPass | src/preemptive_scheduling.c:209-219 | counters within 1 of each other pass the check while their total fits |
| Tolerance.WrappedTotalFails | src/preemptive_scheduling.c:206-219 | once the total has wrapped to at least the number of counters, the check reports them |
| Tolerance.ToleranceIsExact | src/preemptive_scheduling.c:206-219 | for counters within 1 of each other: no error if and only if the total fits or has wrapped to less than their number |
| Tolerance.ErrsIffFarOff | src/preemptive_scheduling.c:206-219 | for any two or more counters: an error if and only if the wrapped total is at least their number and some counter is, in products, more than 1 below or above the average |
| Tolerance.SilenceMeansClose | src/preemptive_scheduling.c:209-219 | while the total fits, a check that passes means that no two counters differ by more than 2 |
| Tolerance.StalledThreadIsReported | src/preemptive_scheduling.c:209-219 | a counter still at 0 is reported once the total is twice the number of threads |
| Tolerance.RunawayIsReported | src/preemptive_scheduling.c:209-219 | and so is one ahead of another by more than 2 |
| Tolerance.FiveEqualCountersFail | src/preemptive_scheduling.c:206-219 | five equal 32-bit counters that the check reports |
| Tolerance.ReporterIsSound | src/cooperative_scheduling.c:168-194 | a reporter that reads the counters one by one keeps a true snapshot and complains only once the exact total no longer fits |
| PreemptiveChain.NextKeepsInv | src/preemptive_scheduling.c:81-165 | every statement of every thread, and the reporter in between, keeps the chain's round structure |
| PreemptiveChain.CountersRiseAlongChain | src/preemptive_scheduling.c:81-165 | for n threads, in every reachable state, c0 <= c1 <= ... <= c(n-1) <= c0 + 1 |
| PreemptiveChain.ResumeFindsSuspended | src/preemptive_scheduling.c:81-140 | every resume of thread k + 1 finds it suspended, and some thread is always ready |
| PreemptiveChain.ReporterNeverComplains | src/preemptive_scheduling.c:200-223 | while the exact total fits in an unsigned long no run takes the error branch, and the snapshot holds the exact counts |
| PreemptiveRounds.CompletesRounds | src/preemptive_scheduling.c:81-165 | for n threads and every number of rounds there is a run from the start that completes them |
| PreemptiveRounds.EqualCountsVerdict | src/preemptive_scheduling.c:200-223 | for every b there is a run in which every thread has counted b and the reporter has looked once; it complains if and only if the total of the words does not fit in a word and wraps to at least their number |
| PreemptiveRounds.FiveThreadsComplain | src/preemptive_scheduling.c:206-223 | with 32-bit counters there is a run of the five threads, from the start, whose reporter complains of equal counters |
| CooperativeRing.NextKeepsInv | src/cooperative_scheduling.c:77-136 | every statement keeps the ring's lap structure |
| CooperativeRing.CountersFallAlongRing | src/cooperative_scheduling.c:77-136 | for n threads, in every reachable state, c0 >= c1 >= ... >= c(n-1) >= c0 - 1 |
| CooperativeRing.QueueIsRotation | src/cooperative_scheduling.c:77-136 | the ready queue is always the ring turned to the running thread |
| CooperativeRing.ReporterNeverComplains | src/cooperative_scheduling.c:171-194 | a run that has taken the error branch has an exact total that no longer fits in an unsigned long; until then the snapshot holds the exact counts |
| CooperativeLaps.CompletesLaps | src/cooperative_scheduling.c:77-136 | for n threads and every number of laps there is a run from the start that completes them |
| CooperativeLaps.EqualCountsVerdict | src/cooperative_scheduling.c:171-194 | for every b there is a run in which every thread has counted b and the reporter has looked once; it complains if and only if the total of the words does not fit in a word and wraps to at least their number |
| InterruptPreemptionTest.PreemptionTestHolds | src/interrupt_preemption_processing.c:76-174 | c1 <= c0 <= ch <= c1 + 1 in every reachable state, every resume from the handler finds thread 0 suspended, and the check does not fire while totals fit |
| InterruptPreemptionRounds.EqualCountsVerdict | src/interrupt_preemption_processing.c:76-174 | for every b there is a run in which handler and both threads have counted b and the reporter has looked once; its complaint is exactly the wrapped total |
| InterruptProcessingTest.ProcessingTestHolds | src/interrupt_processing.c:74-173 | ct <= ch <= ct + 1 in every reachable state, every get succeeds so that the thread never returns, and the check does not fire while totals fit |
| InterruptProcessingRounds.EqualCountsVerdict | src/interrupt_processing.c:74-173 | for every b there is a run in which handler and thread have counted b and the reporter has looked once; its complaint is exactly the wrapped total |
| SyntheticIsr.FlagIsNeverSeen | ports/threadx/cortex-m/tm_isr_dispatch.c:54-62 | whatever interrupts arrive, the active flag implies that interrupts are masked, and no other thread observes it |
| SyntheticIsr.CallDelivers | ports/threadx/tm_port.c:98-155 | on return the two nesting counts are what they were, interrupts are enabled, and no preemption is undelivered unless preemption was disabled or an interrupt in progress at the call |
| SyntheticIsr.CallProceeds | ports/threadx/cortex-m/tm_isr_dispatch.c:54-62 | the call can always make its next step until it returns |
| SyntheticIsr.FlagSeenIffUnmasked | ports/threadx/tm_port.c:89-97 | in every run, for the exit of every service the handler calls: the code's exit keeps interrupts masked, and another thread could see the active flag afterwards if and only if the exit left them unmasked and preemption was enabled at the call |
| SyntheticIsr.ServicesOnlyRecord | ports/threadx/tm_port.c:267-272 | for every handler body the bracketed services change only the execute pointer and the pending flag, and an undelivered choice is on record |
| SyntheticIsr.SyncCallDelivers | ports/threadx/cortex-m/tm_isr_dispatch.c:54-62 | for every handler and every state it is called in, the uninterrupted call ends with interrupts enabled, the flag clear, nothing pending, counts and current thread as before; the core's choice has run if anything asked for it and nothing held it back |
| SyntheticIsr.UninterruptedCallReturns | ports/threadx/cortex-m/tm_isr_dispatch.c:54-62 | left alone, the process that real interrupts may interrupt runs from entry to return and ends in exactly the state of the code |
| SyntheticIsr.Port.BracketedService | ports/threadx/tm_port.c:268-271 | a bracketed service leaves both counts, the mask, the flag and the current thread as they were, makes the core's choice the thread to execute, and has a preemption pending if and only if one was or this choice needs one and preemption was enabled |
| SyntheticIsr.Port.CauseInterruptSync | ports/threadx/cortex-m/tm_isr_dispatch.c:54-62 | the code, for every handler body: interrupts enabled, flag clear, nothing pending, counts and current thread as before, and which thread is to execute |
| PointerBytes.RoundTrip | ports/freertos/tm_port.c:350-351 | every address that fits in a pointer is read back from memory as stored |
| PointerBytes.DecodeThenEncode | ports/freertos/tm_port.c:374-390 | storing a pointer just read leaves the same bytes |
| Freelist.ChainElsewhere | ports/freertos/tm_port.c:369-378 | whatever is written into a block that is not free, the list in the other blocks stays |
| Freelist.ChainIsUnique | ports/freertos/tm_port.c:337-360 | the bytes and the head determine the list |
| Freelist.ListIsAcyclic | ports/freertos/tm_port.c:337-360 | following the stored links visits block addresses of the pool, none twice |
| Freelist.ListEnds | ports/freertos/tm_port.c:337-360 | after as many links as there are free blocks, none included, they lead to NULL |
| Freelist.FreePlusOutstanding | ports/freertos/tm_port.c:362-379 | free and outstanding blocks add up to all blocks; none is free exactly when all are outstanding |
| Freelist.RunKeepsPartition | ports/freertos/tm_port.c:362-392 | over every legal sequence of operations each block is free or outstanding and never both |
| Freelist.NestedUseRestores | src/memory_allocation.c:64-88 | any number of allocations given back in the opposite order restores the free list and the outstanding blocks; Pool.NestedUse says it of the bytes |
| Freelist.Pool.Create | ports/freertos/tm_port.c:337-360 | the loop builds a list of all blocks in address order; an id other than 0 is refused without effect |
| Freelist.Pool.StoreLink | ports/freertos/tm_port.c:350-351 | writing a pointer byte by byte at a block's address changes that link and no other byte |
| Freelist.Pool.Allocate | ports/freertos/tm_port.c:362-379 | pops the list; fails exactly for a wrong id or when all blocks are outstanding |
| Freelist.Pool.Deallocate | ports/freertos/tm_port.c:381-392 | pushes the owned block, storing the old head in it |
| Freelist.Pool.ClientWrite | ports/freertos/tm_port.c:369-378 | a client that writes any byte of a block it owns leaves the pool intact |
| Freelist.Pool.Drive | ports/freertos/tm_port.c:337-392 | over every legal sequence of allocations, deallocations and client writes the pool refines a stack, hands out the pointers the stack says, and clients find in each byte of a block they keep what they last wrote there |
| Freelist.Pool.NestedUse | src/memory_allocation.c:64-88 | a client that gives back what it allocated in the opposite order and does not write to it leaves the head and every byte of the pool as they were |
| Freelist.Pool.BenchmarkLoop | src/memory_allocation.c:64-88 | the benchmark's loop never breaks, counts every turn, and leaves every byte of the pool as it was |
| Decimal.ParsesBack | src/tm_report.c:103-120 | the digits of every number parse back to it |
| Decimal.DigitsAreCanonical | src/tm_report.c:108-119 | they are a numeral without leading zeros |
| Decimal.CanonicalIsPrinted | src/tm_report.c:103-120 | and each such numeral is what is printed for its number |
| Decimal.NumeralsSpelledOut | src/tm_report.c:103-133 | concrete numerals, the least int included |
| Decimal.UlongDigits | src/tm_report.c:105-114 | a number below 2 to the 64 has at most 20 digits |
| Decimal.UnsignedNegation | src/tm_report.c:127-129 | negation in unsigned arithmetic gives the magnitude of every negative int, the least one included |
| Decimal.Console.PrintUnsignedLong | src/tm_report.c:103-120 | for every 64-bit value the output grows by its digits, and the index stays within the buffer of 21 |
| Decimal.Console.FillDigits | src/tm_report.c:113-116 | the first loop leaves the digits in the buffer in reverse |
| Decimal.Console.Flush | src/tm_report.c:118-119 | the second loop puts them out in order |
| Decimal.Console.PrintInt | src/tm_report.c:125-133 | for every int, INT_MIN included, the output grows by its signed numeral |
| Printf.Printf | src/tm_report.c:136-187 | for every format and fitting arguments the loop ends, reads nothing past the terminator, and prints the rendering of the format's pieces |
| Printf.PrintConversion | src/tm_report.c:148-182 | one conversion, a trailing percent sign included: where the next piece begins, how many arguments it took and what it printed |
| Printf.PrintLong | src/tm_report.c:150-162 | the same behind the letter l, a format that ends there included |
| Printf.PutString | src/tm_report.c:166-171 | prints a string up to its terminator |
| Printf.RenderConcat | src/tm_report.c:143-184 | arguments are consumed in order: what follows gets those left over |
| Printf.FormatsCompose | src/tm_report.c:143-184 | formats concatenate where the first does not end inside a conversion |
| Printf.ExtraArgumentsAreIgnored | src/tm_report.c:143-184 | arguments beyond those asked for do not change the output |
| Printf.DoubledPrintsOriginal | src/tm_report.c:173-175 | a string with every percent sign doubled asks for no argument and prints the original |
| Printf.TitledNumber | src/tm_report.c:150-153 | any text with its percent signs doubled and a %lu prints the text and the numeral |
| Printf.TitledArgument | src/tm_report.c:143-184 | the same for every format that takes one argument |
| Printf.ConversionsPrint | src/tm_report.c:149-172 | what %lu, %d and %s print, the least int and the null pointer included |
| Printf.OthersPrintThemselves | src/tm_report.c:144-181 | every other piece prints itself, but a doubled percent sign one and a last one nothing |
| Options.SpellingIsConverted | src/tm_report.c:49-51 | strtol converts every spelling of a number in range in full |
| Options.ConvertedIsSpelled | src/tm_report.c:49-51 | and what it converts in full, without a range error, is such a spelling |
| Options.AcceptedIffSpelled | src/tm_report.c:46-62 | a setting is accepted as v if and only if it spells v and v is from the least value to INT_MAX, for every width of long |
| Options.SpellsOne | src/tm_report.c:49-52 | a string spells one number at most |
| Options.PrintedIsTakenBack | src/tm_report.c:46-62 | the printed form of every int is accepted unchanged where it is in range and refused elsewhere |
| Options.FormattedIntIsTakenBack | src/tm_report.c:46-62 | what the formatted printer prints for any int spells it, and is accepted unchanged where it is in range |
| Options.OutOfRangeIsClamped | src/tm_report.c:48-51 | a spelling of a number that no long can hold is clamped and reported as out of range |
| Options.SettingsSpelledOut | src/tm_report.c:46-62 | concrete settings: leading white space and sign accepted; trailing letters, the empty string, a negative count, zero duration and 2147483648 refused |
| Options.Parameters.ReportInit | src/tm_report.c:39-64 | each parameter becomes the number its variable spells in range, and else stays; durations stay positive and cycles not negative |
| Options.Parameters.ReportInitArgv | src/tm_report.c:72-95 | duration and cycles end as the last accepted "--duration=" and "--cycles=" argument says, or unchanged if there is none |
| Options.OutcomeIsUnique | src/tm_report.c:80-95 | that outcome is determined by the arguments |
| Options.PrefixesDiffer | src/tm_report.c:82-88 | no argument sets both parameters |
| Options.PrintedOptionSets | src/tm_report.c:82-94 | a positive duration printed behind "--duration=", or a count behind "--cycles=", sets that parameter, whatever came before |

## Left out

- HandoffModel: the ThreadX core behind the execute pointer is an arbitrary choice made under the mutex; its own data structures are not part of this model.
- HandoffModel: thread creation and termination, the delete and reset helpers, pthread_cancel and the terminated state; the number of threads is fixed in a run but arbitrary.
- HandoffModel: run counts and time slices, the system clock and the timer list of a tick, which the protocol does not read; the tick's own disable and restore calls appear as additional locks, which HandoffLockout justifies.
- HandoffModel: semaphore operations are single steps there, which CondSemaphore.EachCallTakesEffectOnce and HandoffSafety.NeverStoppedInSemaphore justify; a signal sent under a nested lock and unlock of the mutex is one step.
- HandoffModel: the protocol is stated on values, one state and one step function for each process, because its processes interleave; the sequential code of the mutex macros and of interrupt control is imperative in InterruptLockout.
- HandoffProgress: nothing is said about how long nanosleep takes or when the host runs a process that could run.
- TX_LINUX_NO_IDLE_ENABLE, pthread priorities, trace hooks, and failures of pthread and pipe creation.
- CondSemaphore: the width of the count; the model's count does not overflow.
- PreemptiveChain: threads are created and resumed before the first event; the reporter's printing and its running totals are not modelled.
- CooperativeRing: the FreeRTOS ports, whose configurations slice time, so that the ring's order is not promised there.
- InterruptPreemptionTest: the trap is modelled by its contract, that the handler has run before the caller goes on.
- SyntheticIsr: a service is what it makes of the execute pointer, and a switch to other threads is one step after which the caller is the thread to execute.
- SyntheticIsr: the variant compiled with TM_ISR_VIA_THREAD, in which the brackets are empty.
- Freelist: giving back a pointer that was not handed out, which the code does not check.
- Freelist.Pool.BenchmarkLoop: the counter is a number, not a word that wraps.
- Decimal.Console: the character output itself, which each port supplies.
- Printf: arguments that do not fit the format, which the language leaves undefined.
- Options: strtol is modelled from section 7.22.1.4 of ISO/IEC 9899:2011 in the "C" locale; getenv is a parameter.
- The single-thread benchmarks (basic, message and synchronization processing), range checks and priority mapping of the ports, start-up code, and build files would add only easy members.
