/** What the handoff protocol guarantees in every reachable state and over every
    run, whatever the ThreadX core chooses to execute. */
module HandoffSafety {
  import opened Wrappers
  import opened HandoffModel
  import opened HandoffInvariant

  // ----- mutual exclusion -----

  /** The pthread has left the handoff tail: it is neither waiting for its run
      semaphore, nor on its way there, nor answering the scheduler. */
  ghost predicate OutsideTail(pc: ThreadPc) {
    match pc
    case EntryWait | EntryPost => false
    case RetDrain | RetPostLock | RetPost | RetPostUnlock | RetWait | RetRepost => false
    case _ => true
  }

  ghost predicate Executes(s: State, t: Tid) {
    t < |s.threads| && OutsideTail(s.threads[t].pc) && !SigStopped(s.threads[t].sig)
  }

  /** At most one ThreadX pthread executes, and it is the current thread. */
  lemma MutualExclusion(s: State, t: Tid)
    requires Reachable(s) && Executes(s, t)
    ensures IsCurrent(s, t)
    ensures forall u | Executes(s, u) :: u == t
  {
    ReachableInv(s);
    forall u | Executes(s, u) ensures IsCurrent(s, u) { assert ThreadInv(s, u); }
  }

  /** Between a tick and the next, once the scheduler waits for a yield, the
      current thread is exactly the one that executes. */
  lemma CurrentThreadExecutes(s: State, t: Tid)
    requires Reachable(s) && s.sch.pc.SWaitYield?
    requires !InIsr(s.tmr.pc) && !s.tmr.pc.TSaveAck? && !s.tmr.pc.TSaveMark?
    ensures IsCurrent(s, t) <==> Executes(s, t)
  {
    ReachableInv(s);
    if t < |s.threads| { assert ThreadInv(s, t); }
  }

  /** The "terminated thread" exits are never taken: a thread that holds the
      mutex to look at the current pointer finds itself there. Nor does a thread ever
      take the branch of interrupt control for a tick: that is the timer's. */
  lemma NoThreadExits(s: State, t: Tid)
    requires Reachable(s) && t < |s.threads|
    ensures !s.threads[t].pc.Exited?
    ensures s.threads[t].pc.CtlBody? || s.threads[t].pc.RetBody? || s.threads[t].pc.RetCheck?
            ==> IsCurrent(s, t) && Owns(s.mutex, Thread(t))
    ensures s.threads[t].pc.CtlBody? && s.threads[t].sig.handler.Out? ==> s.systemState == 0
  {
    ReachableInv(s);
    assert ThreadInv(s, t);
  }

  /** The hand-kept lock counts equal the recursion depth of the real mutex. */
  lemma LockCountsAreExact(s: State, t: Tid)
    requires Reachable(s)
    ensures s.sch.locks == LocksOf(s.mutex, Scheduler) && s.tmr.locks == LocksOf(s.mutex, Timer)
    ensures t < |s.threads| ==> s.threads[t].locks == LocksOf(s.mutex, Thread(t))
  {
    ReachableInv(s);
    if t < |s.threads| { assert ThreadInv(s, t); }
  }

  // ----- semaphores -----

  lemma SemaphoresStayBinary(s: State, t: Tid)
    requires Reachable(s)
    ensures s.sem <= 1
    ensures t < |s.threads| ==> s.threads[t].run <= 1
    ensures s.isr > 0 ==> s.timerWaiting
  {
    ReachableInv(s);
    if t < |s.threads| { assert ThreadInv(s, t); }
  }

  /** The drains of the scheduler semaphore and of a run semaphore find it at zero:
      they discard no wakeup. The drain of the interrupt semaphore may find posts,
      of handoffs completed since the timer passed its wait; it discards those, and
      leaves none: the semaphore is at zero outside the timer's wait for it. */
  lemma DrainsFindNothing(s: State, t: Tid)
    requires Reachable(s) && t < |s.threads|
    ensures s.sch.pc.SDrainRun? && IsCurrent(s, t) ==> s.threads[t].run == 0
    ensures s.tmr.pc.TDrainSched? || s.threads[t].pc.RetDrain? ==> s.sem == 0
    ensures s.isr > 0 ==> s.tmr.pc.TWaitIsr? || s.tmr.pc.TRelock? || s.tmr.pc.TDrainIsr?
    ensures s.tmr.pc.TSetWaiting? || s.tmr.pc.TClear? ==> s.isr == 0
  {
    ReachableInv(s);
    assert ThreadInv(s, t);
  }

  ghost function Posts(s: State, e: Event): nat {
    match e
    case TimerRuns => if s.tmr.pc.TPostSched? then 1 else 0
    case ThreadRuns(t) =>
      if t < |s.threads| && (s.threads[t].pc.EntryPost? || s.threads[t].pc.RetPost?
        || s.threads[t].pc.RetRepost?) then 1 else 0
    case _ => 0
  }

  ghost function Waits(s: State, e: Event): nat {
    if e.SchedulerRuns? && (s.sch.pc.SWaitWaiting? || s.sch.pc.SWaitSuspended? || s.sch.pc.SWaitYield?) then 1 else 0
  }

  ghost function IsrPosts(s: State, e: Event): nat {
    if e.SchedulerRuns? && s.sch.pc.SPostIsr? then 1 else 0
  }

  ghost function IsrWaits(s: State, e: Event): nat {
    if e.TimerRuns? && s.tmr.pc.TWaitIsr? then 1 else 0
  }

  ghost function IsrDrains(s: State, e: Event): nat {
    if e.TimerRuns? && s.tmr.pc.TDrainIsr? && s.isr > 0 then 1 else 0
  }

  /** The sum of `count` over the events of a run. */
  ghost function Total(s: State, es: seq<Event>, count: (State, Event) -> nat): nat
    requires ValidRef(s, s.current) && ValidRef(s, s.execute)
    decreases |es|
  {
    if es == [] then 0
    else
      match Next(s, es[0])
      case None => 0
      case Some(s1) => NextKeepsRefs(s, es[0]); count(s, es[0]) + Total(s1, es[1..], count)
  }

  lemma YieldConservesWakeups(s: State, t: Tid, s1: State)
    requires View(s, t) && s.threads[t].sig.handler.Out? && YieldStep(s, t) == Some(s1)
    ensures s1.sem == s.sem + Posts(s, ThreadRuns(t))
  {
  }

  lemma ReenterConservesWakeups(s: State, t: Tid, s1: State)
    requires t < |s.threads| && ReenterStep(s, t) == Some(s1)
    ensures s1.sem == s.sem + Posts(s, ThreadRuns(t))
  {
  }

  lemma ControlConservesWakeups(s: State, t: Tid, s1: State)
    requires ValidRef(s, s.current) && t < |s.threads| && ControlStep(s, t) == Some(s1)
    ensures s1.sem == s.sem + Posts(s, ThreadRuns(t))
  {
  }

  lemma ThreadConservesWakeups(s: State, t: Tid, s1: State)
    requires View(s, t) && ThreadStep(s, t) == Some(s1)
    ensures s1.sem == s.sem + Posts(s, ThreadRuns(t))
  {
    match s.threads[t].pc
    case EntryWait | EntryPost =>
    case CtlLock(_) | CtlBody(_) => ControlConservesWakeups(s, t, s1);
    case RetWait | RetRepost | RetRelock | RetCheck => ReenterConservesWakeups(s, t, s1);
    case _ => YieldConservesWakeups(s, t, s1);
  }

  lemma StepConservesWakeups(s: State, e: Event)
    requires Inv(s) && Next(s, e).Some?
    ensures Next(s, e).value.sem + Waits(s, e) == s.sem + Posts(s, e)
  {
    if e.ThreadRuns? { ThreadConservesWakeups(s, e.t, Next(s, e).value); }
  }

  /** Over every run the scheduler takes each wakeup that was posted to it: what
      is posted is waited for or still there, and no drain takes any. */
  lemma {:induction false} RunConservesWakeups(s: State, es: seq<Event>)
    requires Inv(s) && Run(s, es).Some?
    ensures Run(s, es).value.sem + Total(s, es, Waits) == s.sem + Total(s, es, Posts)
    decreases |es|
  {
    if es == [] {
    } else {
      StepConservesWakeups(s, es[0]);
      NextKeepsInv(s, es[0]);
      RunConservesWakeups(Next(s, es[0]).value, es[1..]);
    }
  }

  lemma StepConservesIsr(s: State, e: Event)
    requires Inv(s) && Next(s, e).Some?
    ensures Next(s, e).value.isr + IsrWaits(s, e) + IsrDrains(s, e) == s.isr + IsrPosts(s, e)
  {
    if e.ThreadRuns? { ThreadLeavesRest(s, e.t, Next(s, e).value); }
  }

  /** Over every run each post of the interrupt semaphore is waited for, drained, or
      still there. */
  lemma {:induction false} RunConservesIsr(s: State, es: seq<Event>)
    requires Inv(s) && Run(s, es).Some?
    ensures Run(s, es).value.isr + Total(s, es, IsrWaits) + Total(s, es, IsrDrains)
         == s.isr + Total(s, es, IsrPosts)
    decreases |es|
  {
    if es == [] {
    } else {
      StepConservesIsr(s, es[0]);
      NextKeepsInv(s, es[0]);
      RunConservesIsr(Next(s, es[0]).value, es[1..]);
    }
  }

  /** From the moment the timer raises its waiting flag, it passes its wait no
      more often than the scheduler has completed a handoff. By the time it lowers
      the flag, every completed handoff was either waited for or drained. */
  lemma TimerWaitsForHandoff(s: State, es: seq<Event>)
    requires Reachable(s) && s.tmr.pc.TSetWaiting? && Run(s, es).Some?
    ensures Total(s, es, IsrWaits) + Total(s, es, IsrDrains) <= Total(s, es, IsrPosts)
    ensures Run(s, es).value.tmr.pc.TClear? ==>
      Total(s, es, IsrWaits) + Total(s, es, IsrDrains) == Total(s, es, IsrPosts)
  {
    ReachableInv(s);
    RunConservesIsr(s, es);
    RunKeepsInv(s, es);
  }

  /** How often the timer can still pass its wait before its next tick. */
  ghost function WaitsAhead(pc: TimerPc): nat {
    if TimerYields(pc) || pc.TChoose? || pc.TWaitIsr? then 1 else 0
  }

  lemma StepUsesWait(s: State, e: Event)
    requires Inv(s) && Next(s, e).Some? && AfterTick(s.tmr.pc) && !e.WakeTimer?
    ensures AfterTick(Next(s, e).value.tmr.pc)
    ensures IsrWaits(s, e) + WaitsAhead(Next(s, e).value.tmr.pc) <= WaitsAhead(s.tmr.pc)
  {
    if e.ThreadRuns? { ThreadLeavesRest(s, e.t, Next(s, e).value); }
  }

  lemma {:induction false} RunUsesWait(s: State, es: seq<Event>)
    requires Inv(s) && Run(s, es).Some? && AfterTick(s.tmr.pc) && WakeTimer !in es
    ensures Total(s, es, IsrWaits) <= WaitsAhead(s.tmr.pc)
    decreases |es|
  {
    if es == [] {
    } else {
      assert es[0] in es;
      StepUsesWait(s, es[0]);
      NextKeepsInv(s, es[0]);
      RunUsesWait(Next(s, es[0]).value, es[1..]);
    }
  }

  /** When does the drain of the interrupt semaphore discard something? In the rest of
      a tick that raises the waiting flag and then lowers it, exactly when handoffs
      were completed beyond the one, if any, that the timer waited for. */
  lemma DrainDiscardsIffOvertaken(s: State, es: seq<Event>)
    requires Reachable(s) && s.tmr.pc.TSetWaiting? && Run(s, es).Some? && WakeTimer !in es
    requires Run(s, es).value.tmr.pc.TClear?
    ensures Total(s, es, IsrWaits) <= 1
    ensures Total(s, es, IsrDrains) > 0 <==> Total(s, es, IsrPosts) > Total(s, es, IsrWaits)
  {
    ReachableInv(s);
    TimerWaitsForHandoff(s, es);
    RunUsesWait(s, es);
  }

  /** An interrupt post is sent only when the chosen thread has taken its run
      semaphore and answered. */
  lemma IsrPostFollowsAnswer(s: State)
    requires Reachable(s) && s.sch.pc.SPostIsr?
    ensures s.timerWaiting && s.current.Some?
    ensures OnCpu(s.threads[s.current.value].pc) && s.threads[s.current.value].run == 0
  {
    ReachableInv(s);
    assert ThreadInv(s, s.current.value);
  }

  // ----- signals -----

  /** A thread that is not current is marked suspended exactly when it sits in
      the suspend handler, acknowledged and not resumed. */
  lemma SuspensionMeansParked(s: State, t: Tid)
    requires Reachable(s) && t < |s.threads| && !IsCurrent(s, t)
    ensures s.threads[t].suspension <==> !s.threads[t].sig.handler.Out?
    ensures s.threads[t].suspension <==> SigStopped(s.threads[t].sig)
  {
    ReachableInv(s);
    assert ThreadInv(s, t);
  }

  /** Whoever is about to be resumed was acknowledged and is not yet resumed, and
      whoever is about to be suspended has taken its last suspend signal. */
  lemma SignalsArePaired(s: State)
    requires Reachable(s)
    ensures s.sch.pc.SResumeTimer? ==> SigStopped(s.tmr.sig)
    ensures s.sch.pc.SSuspendTimer? ==> SigGoing(s.tmr.sig) && s.timerPipe == 0
    ensures s.sch.pc.SResume? ==> s.current.Some? && SigStopped(s.threads[s.current.value].sig)
    ensures s.tmr.pc.TRestoreBody? && s.current.Some? ==> SigStopped(s.threads[s.current.value].sig)
    ensures s.tmr.pc.TSaveBody? && s.current.Some? ==> SigGoing(s.threads[s.current.value].sig) && s.otherPipe == 0
  {
    ReachableInv(s);
    if s.current.Some? { assert ThreadInv(s, s.current.value); }
  }

  /** A pending resume belongs to the suspension in progress, so none is left to
      cut a later one short, and the handler never finds itself suspended already. */
  lemma NoStrayResume(s: State, t: Tid)
    requires Reachable(s) && t < |s.threads|
    ensures forall g | g == s.tmr.sig || g == s.threads[t].sig ::
              && (g.resumePending ==> InAckedHandler(g))
              && (g.suspended <==> g.handler.Parked?)
    ensures s.timerPipe <= 1 && s.otherPipe <= 1
  {
    ReachableInv(s);
    assert ThreadInv(s, t);
    if s.current.Some? { assert ThreadInv(s, s.current.value); }
  }

  /** A suspend signal that reaches a pthread already suspended is taken without an
      acknowledge byte, so it cannot put the pipe out of step, and changes nothing
      else. */
  lemma DuplicateSuspendIsIgnored(g: Sig)
    requires g.handler.Out? && g.suspendPending && g.suspended
    ensures HandlerStep(g) == Some((g.(suspendPending := false), 0))
  {
  }

  /** No pthread is stopped inside a semaphore operation, where it would keep the
      semaphore's inner lock from everybody else: a thread with a suspension
      requested or under way is past the post that answered the scheduler and
      before the next operation, and the timer is asleep or about to take the
      mutex. */
  lemma NeverStoppedInSemaphore(s: State, t: Tid)
    requires Reachable(s) && t < |s.threads|
    ensures s.threads[t].sig.suspendPending || !s.threads[t].sig.handler.Out? ==> OnCpu(s.threads[t].pc)
    ensures s.tmr.sig.suspendPending || !s.tmr.sig.handler.Out? ==> TimerIdle(s.tmr.pc)
  {
    ReachableInv(s);
    assert ThreadInv(s, t);
  }

  /** A resume sent between the acknowledge byte and sigsuspend stays pending, and
      two handler steps later the pthread is running. */
  lemma EarlyResumeIsKept(g: Sig)
    requires SigStopped(g) && g.handler.Acked?
    ensures var g1 := g.(resumePending := true);
            && HandlerStep(g1).Some?
            && HandlerStep(HandlerStep(g1).value.0).Some?
            && SigFree(HandlerStep(HandlerStep(g1).value.0).value.0)
  {
  }

  // ----- interrupts -----

  /** During a tick nobody executes, nothing is dispatched and the timer itself is
      never signal-suspended. */
  lemma InterruptIsIsolated(s: State, t: Tid)
    requires Reachable(s)
    ensures s.systemState == 0 || s.systemState == 1
    ensures s.systemState == 1 <==> InIsr(s.tmr.pc)
    ensures InIsr(s.tmr.pc) ==> !Executes(s, t) && !Dispatching(s.sch.pc)
    ensures s.sch.pc.SSuspendTimer? ==> TimerIdle(s.tmr.pc)
  {
    ReachableInv(s);
    if t < |s.threads| { assert ThreadInv(s, t); }
  }

  lemma InterruptKeepsCurrent(s: State, e: Event)
    requires Inv(s) && InIsr(s.tmr.pc) && Next(s, e).Some? && InIsr(Next(s, e).value.tmr.pc)
    ensures Next(s, e).value.current == s.current
  {
    if e.ThreadRuns? { assert ThreadInv(s, e.t); }
  }

  /** The run stays inside one tick. */
  ghost predicate WithinTick(s: State, es: seq<Event>)
    requires ValidRef(s, s.current) && ValidRef(s, s.execute)
    decreases |es|
  {
    InIsr(s.tmr.pc) &&
    (es == [] ||
     match Next(s, es[0])
     case None => false
     case Some(s1) => NextKeepsRefs(s, es[0]); WithinTick(s1, es[1..]))
  }

  /** From context save to context restore the current thread does not change. */
  lemma {:induction false} TickKeepsCurrent(s: State, es: seq<Event>)
    requires Inv(s) && WithinTick(s, es)
    ensures Run(s, es).Some? && Run(s, es).value.current == s.current
    decreases |es|
  {
    if es == [] {
    } else {
      InterruptKeepsCurrent(s, es[0]);
      NextKeepsInv(s, es[0]);
      TickKeepsCurrent(Next(s, es[0]).value, es[1..]);
    }
  }

  // ----- one tick for each wake-up -----

  ghost function Wakeups(s: State, e: Event): nat {
    if e.WakeTimer? then 1 else 0
  }

  /** The timer leaves the tick body: the clock, the expirations and whatever the core
      makes of them are done. */
  ghost function Ticks(s: State, e: Event): nat {
    if e.TimerRuns? && s.tmr.pc.TTick? then 1 else 0
  }

  /** The tick body is still to come. */
  ghost function TickDue(pc: TimerPc): nat {
    if pc.TSaveLock? || pc.TSaveBody? || pc.TSaveAck? || pc.TSaveMark? || pc.TTickLock? || pc.TTick? then 1 else 0
  }

  lemma TimerTicksBefore(s: State)
    requires ValidRef(s, s.current) && ValidRef(s, s.execute) && TimerStep(s).Some?
    requires BeforeRestore(s.tmr.pc)
    ensures Ticks(s, TimerRuns) + TickDue(TimerStep(s).value.tmr.pc) == TickDue(s.tmr.pc)
  {
  }

  lemma TimerTicksGivingUp(s: State)
    requires ValidRef(s, s.current) && ValidRef(s, s.execute) && TimerStep(s).Some?
    requires GivingUp(s.tmr.pc)
    ensures Ticks(s, TimerRuns) + TickDue(TimerStep(s).value.tmr.pc) == TickDue(s.tmr.pc)
  {
  }

  lemma TimerTicksAfterChoice(s: State)
    requires ValidRef(s, s.current) && ValidRef(s, s.execute) && TimerStep(s).Some?
    requires AfterChoice(s.tmr.pc)
    ensures Ticks(s, TimerRuns) + TickDue(TimerStep(s).value.tmr.pc) == TickDue(s.tmr.pc)
  {
  }

  lemma TimerTicks(s: State)
    requires ValidRef(s, s.current) && ValidRef(s, s.execute) && TimerStep(s).Some?
    ensures Ticks(s, TimerRuns) + TickDue(TimerStep(s).value.tmr.pc) == TickDue(s.tmr.pc)
  {
    if BeforeRestore(s.tmr.pc) {
      TimerTicksBefore(s);
    } else if GivingUp(s.tmr.pc) {
      TimerTicksGivingUp(s);
    } else {
      TimerTicksAfterChoice(s);
    }
  }

  lemma StepTicks(s: State, e: Event)
    requires Inv(s) && Next(s, e).Some?
    ensures Ticks(s, e) + TickDue(Next(s, e).value.tmr.pc) == Wakeups(s, e) + TickDue(s.tmr.pc)
  {
    match e
    case TimerRuns => TimerTicks(s);
    case ThreadRuns(t) => ThreadLeavesRest(s, t, Next(s, e).value);
    case _ =>
  }

  /** Over every run the timer goes through its tick body exactly once for each time it
      wakes, whatever is current and whatever preempts. */
  lemma {:induction false} TicksOncePerWakeup(s: State, es: seq<Event>)
    requires Inv(s) && Run(s, es).Some?
    ensures Total(s, es, Ticks) + TickDue(Run(s, es).value.tmr.pc) == Total(s, es, Wakeups) + TickDue(s.tmr.pc)
    decreases |es|
  {
    if es == [] {
    } else {
      StepTicks(s, es[0]);
      NextKeepsInv(s, es[0]);
      TicksOncePerWakeup(Next(s, es[0]).value, es[1..]);
    }
  }

  // ----- preemption -----

  /** When does a tick preempt? At its context restore, the current thread loses the
      processor if and only if preemption is enabled and the core has chosen another
      thread, or none; it then stays stopped. Otherwise it keeps the processor and its
      resume signal is sent. */
  lemma TickPreemptsIff(s: State, t: Tid)
    requires Reachable(s) && s.tmr.pc.TRestoreBody? && IsCurrent(s, t)
    ensures ValidRef(s, s.current) && ValidRef(s, s.execute) && TimerStep(s).Some?
    ensures var s1 := TimerStep(s).value;
      && |s1.threads| == |s.threads| && t < |s.threads|
      && (s1.current.None? <==> s.preemptDisable == 0 && s.execute != Some(t))
      && (s1.current.None? ==> s1.threads[t].suspension && SigStopped(s1.threads[t].sig) && s1.tmr.pc.TDrainSched?)
      && (s1.current.Some? ==> IsCurrent(s1, t) && SigWaking(s1.threads[t].sig) && s1.tmr.pc.TUnlock?)
  {
    ReachableInv(s);
    assert ThreadInv(s, t);
    RestoreStep(s, t);
  }

  lemma RestoreStep(s: State, t: Tid)
    requires View(s, t) && s.tmr.pc.TRestoreBody? && IsCurrent(s, t)
    ensures TimerStep(s).Some? && |TimerStep(s).value.threads| == |s.threads|
    ensures var s1 := TimerStep(s).value;
      && (s1.current.None? <==> s.preemptDisable == 0 && s.execute != Some(t))
      && (s1.current.None? ==> s1.threads[t].suspension && SigStopped(s1.threads[t].sig) && s1.tmr.pc.TDrainSched?)
      && (s1.current.Some? ==> IsCurrent(s1, t) && SigWaking(s1.threads[t].sig) && s1.tmr.pc.TUnlock?)
  {
  }

  /** The run is the rest of one tick, up to the moment the timer is asleep again, and
      its context restore finds preemption disabled. */
  ghost predicate RestOfTickUndisturbed(s: State, es: seq<Event>)
    requires ValidRef(s, s.current) && ValidRef(s, s.execute)
    decreases |es|
  {
    if es == [] then s.tmr.pc.TSleep?
    else
      && (InIsr(s.tmr.pc) || s.tmr.pc.TUnlock?) && (s.tmr.pc.TRestoreBody? ==> s.preemptDisable > 0)
      && match Next(s, es[0])
         case None => false
         case Some(s1) => NextKeepsRefs(s, es[0]); RestOfTickUndisturbed(s1, es[1..])
  }

  lemma UndisturbedStepKeepsCurrent(s: State, e: Event)
    requires Inv(s) && (InIsr(s.tmr.pc) || s.tmr.pc.TUnlock?) && (s.tmr.pc.TRestoreBody? ==> s.preemptDisable > 0)
    requires Next(s, e).Some?
    ensures Next(s, e).value.current == s.current
    ensures s.current.Some? && s.sch.pc.SWaitYield? ==> Next(s, e).value.sch.pc.SWaitYield?
  {
    if e.ThreadRuns? { assert ThreadInv(s, e.t); ThreadLeavesRest(s, e.t, Next(s, e).value); }
  }

  /** A tick that finds preemption disabled ends with the thread current that was
      current when it began, and with that thread running again. */
  lemma DisabledTickKeepsThread(s: State, es: seq<Event>)
    requires Reachable(s) && InIsr(s.tmr.pc)
    requires ValidRef(s, s.current) && ValidRef(s, s.execute) && RestOfTickUndisturbed(s, es)
    ensures Run(s, es).Some? && Run(s, es).value.current == s.current
    ensures s.current.Some? ==>
      && s.current.value < |Run(s, es).value.threads|
      && SigGoing(Run(s, es).value.threads[s.current.value].sig)
  {
    ReachableInv(s);
    RestOfTickKeepsThread(s, es);
    var s1 := Run(s, es).value;
    if s.current.Some? { assert ThreadInv(s1, s.current.value); }
  }

  lemma {:induction false} RestOfTickKeepsThread(s: State, es: seq<Event>)
    requires Inv(s) && RestOfTickUndisturbed(s, es) && (s.current.Some? ==> s.sch.pc.SWaitYield?)
    ensures Run(s, es).Some? && Inv(Run(s, es).value) && Run(s, es).value.current == s.current
    ensures Run(s, es).value.tmr.pc.TSleep? && (s.current.Some? ==> Run(s, es).value.sch.pc.SWaitYield?)
    decreases |es|
  {
    if es == [] {
    } else {
      UndisturbedStepKeepsCurrent(s, es[0]);
      NextKeepsInv(s, es[0]);
      RestOfTickKeepsThread(Next(s, es[0]).value, es[1..]);
    }
  }

  /** The timer will still pass its wait before its next tick. */
  ghost function WaitDue(s: State): nat
    requires ValidRef(s, s.execute)
  {
    if s.tmr.pc.TWaitIsr? || (s.tmr.pc.TChoose? && s.execute.Some? && !s.threads[s.execute.value].suspension)
    then 1 else 0
  }

  lemma ThreadKeepsWaitDue(s: State, e: Event)
    requires Inv(s) && Next(s, e).Some? && (e.ThreadRuns? || e.ThreadKernel? || e.ThreadHandler?)
    requires s.tmr.pc.TChoose? || AfterChoice(s.tmr.pc) || s.tmr.pc.TSleep?
    ensures var s1 := Next(s, e).value;
      ValidRef(s1, s1.execute) && s1.tmr.pc == s.tmr.pc && WaitDue(s1) == WaitDue(s)
  {
    assert ThreadInv(s, e.t);
    NextKeepsRefs(s, e);
    if e.ThreadRuns? { ThreadLeavesRest(s, e.t, Next(s, e).value); }
  }

  lemma StepKeepsWaitDue(s: State, e: Event)
    requires Inv(s) && Next(s, e).Some? && !e.WakeTimer?
    requires s.tmr.pc.TChoose? || AfterChoice(s.tmr.pc) || s.tmr.pc.TSleep?
    ensures var s1 := Next(s, e).value;
      && ValidRef(s1, s1.execute) && (s1.tmr.pc.TChoose? || AfterChoice(s1.tmr.pc) || s1.tmr.pc.TSleep?)
      && IsrWaits(s, e) + WaitDue(s1) == WaitDue(s)
  {
    if e.ThreadRuns? || e.ThreadKernel? || e.ThreadHandler? {
      ThreadKeepsWaitDue(s, e);
    } else if e.TimerRuns? {
      TimerKeepsWaitDue(s, e);
    } else {
      OtherKeepsWaitDue(s, e);
    }
  }

  lemma TimerKeepsWaitDue(s: State, e: Event)
    requires Inv(s) && Next(s, e).Some? && e.TimerRuns?
    requires s.tmr.pc.TChoose? || AfterChoice(s.tmr.pc) || s.tmr.pc.TSleep?
    ensures var s1 := Next(s, e).value;
      && ValidRef(s1, s1.execute) && (s1.tmr.pc.TChoose? || AfterChoice(s1.tmr.pc) || s1.tmr.pc.TSleep?)
      && IsrWaits(s, e) + WaitDue(s1) == WaitDue(s)
  {
    NextKeepsRefs(s, e);
  }

  lemma OtherKeepsWaitDue(s: State, e: Event)
    requires Inv(s) && Next(s, e).Some? && !e.WakeTimer? && !e.TimerRuns?
    requires !e.ThreadRuns? && !e.ThreadKernel? && !e.ThreadHandler?
    requires s.tmr.pc.TChoose? || AfterChoice(s.tmr.pc) || s.tmr.pc.TSleep?
    ensures var s1 := Next(s, e).value;
      && ValidRef(s1, s1.execute) && (s1.tmr.pc.TChoose? || AfterChoice(s1.tmr.pc) || s1.tmr.pc.TSleep?)
      && IsrWaits(s, e) + WaitDue(s1) == WaitDue(s)
  {
    NextKeepsRefs(s, e);
  }

  lemma {:induction false} RunKeepsWaitDue(s: State, es: seq<Event>)
    requires Inv(s) && Run(s, es).Some? && WakeTimer !in es
    requires s.tmr.pc.TChoose? || AfterChoice(s.tmr.pc) || s.tmr.pc.TSleep?
    ensures Total(s, es, IsrWaits) + WaitDue(Run(s, es).value) == WaitDue(s)
    decreases |es|
  {
    if es == [] {
    } else {
      assert es[0] in es;
      StepKeepsWaitDue(s, es[0]);
      NextKeepsInv(s, es[0]);
      RunKeepsWaitDue(Next(s, es[0]).value, es[1..]);
    }
  }

  // ----- interrupt posture -----

  /** A thread in its own code, or entering the port from it, has interrupts
      disabled exactly when it holds the mutex. */
  lemma PostureMatchesMutex(s: State, t: Tid)
    requires Reachable(s) && t < |s.threads|
    requires s.threads[t].pc.Running? || s.threads[t].pc.CtlLock? || s.threads[t].pc.RetLock?
    ensures s.threads[t].intDisabled <==> Owns(s.mutex, Thread(t))
  {
    ReachableInv(s);
    assert ThreadInv(s, t);
  }

  /** A tick that begins now sends thread `t` the suspend signal: its first three
      steps are enabled and leave that signal pending. */
  ghost predicate NextTickStops(s: State, t: Tid)
    requires ValidRef(s, s.current) && ValidRef(s, s.execute)
  {
    var r := Run(s, [WakeTimer, TimerRuns, TimerRuns]);
    r.Some? && t < |r.value.threads| && r.value.threads[t].sig.suspendPending
  }

  /** The state after the first two of them, when the mutex is free. */
  function TickBegun(s: State): State {
    s.(tmr := s.tmr.(pc := TSaveBody, locks := s.tmr.locks + 1), mutex := Lock(s.mutex, Timer))
  }

  lemma TickRun(s: State)
    requires ValidRef(s, s.current) && ValidRef(s, s.execute)
    requires s.tmr.pc.TSleep? && s.tmr.sig.handler.Out?
    ensures Run(s, [WakeTimer, TimerRuns, TimerRuns])
         == if CanLock(s.mutex, Timer) then Next(TickBegun(s), TimerRuns) else None
  {
    var s1 := TimerGoto(s, TSaveLock);
    var rest := [TimerRuns, TimerRuns];
    assert [WakeTimer, TimerRuns, TimerRuns][1..] == rest && rest[1..] == [TimerRuns] && [TimerRuns][1..] == [];
    assert Run(s, [WakeTimer, TimerRuns, TimerRuns]) == Run(s1, rest);
    if CanLock(s.mutex, Timer) {
      assert Next(s1, TimerRuns) == Some(TickBegun(s));
      assert Run(s1, rest) == Run(TickBegun(s), [TimerRuns]);
    } else {
      assert Next(s1, TimerRuns) == None;
    }
  }

  /** When does a tick suspend the current thread? Exactly when the mutex is free;
      with the scheduler waiting for a yield, exactly when that thread does not hold
      it. A thread whose posture flag says "disabled" is then stopped in one place,
      and always there: on its way back into system return, before it has taken the
      mutex again. */
  lemma TickStopsIffUnlocked(s: State, t: Tid)
    requires Reachable(s) && IsCurrent(s, t)
    requires s.tmr.pc.TSleep? && s.tmr.sig.handler.Out?
    ensures ValidRef(s, s.current) && ValidRef(s, s.execute)
    ensures NextTickStops(s, t) <==> s.mutex.owner.None?
    ensures s.sch.pc.SWaitYield? ==> (NextTickStops(s, t) <==> !Owns(s.mutex, Thread(t)))
    ensures s.sch.pc.SWaitYield? && s.threads[t].intDisabled
      ==> (NextTickStops(s, t) <==> s.threads[t].pc.RetRelock?)
  {
    ReachableInv(s);
    assert ThreadInv(s, t);
    TickRun(s);
  }

  /** Whenever a tick is about to stop a thread, that thread holds no lock. */
  lemma TickStopsUnlockedThread(s: State)
    requires Reachable(s) && s.tmr.pc.TSaveBody? && s.current.Some?
    ensures s.threads[s.current.value].locks == 0
    ensures s.threads[s.current.value].intDisabled ==> s.threads[s.current.value].pc.RetRelock?
  {
    ReachableInv(s);
    assert ThreadInv(s, s.current.value);
  }

  ghost predicate InControl(s: State, t: Tid) {
    t < |s.threads| && (s.threads[t].pc.CtlLock? || s.threads[t].pc.CtlBody?)
  }

  ghost predicate PostureKept(s: State, s1: State, t: Tid) {
    && |s1.threads| == |s.threads| && t < |s.threads|
    && !s1.threads[t].pc.CtlLock? && !s1.threads[t].pc.CtlBody?
    && s1.threads[t].intDisabled == s.threads[t].intDisabled
  }

  lemma YieldKeepsPostureReleasing(s: State, t: Tid, s1: State)
    requires t < |s.threads| && YieldStep(s, t) == Some(s1)
    requires s.threads[t].pc.RetLock? || s.threads[t].pc.RetBody?
    ensures PostureKept(s, s1, t)
  {
  }

  lemma YieldKeepsPosturePosting(s: State, t: Tid, s1: State)
    requires t < |s.threads| && YieldStep(s, t) == Some(s1)
    requires !s.threads[t].pc.RetLock? && !s.threads[t].pc.RetBody?
    ensures PostureKept(s, s1, t)
  {
  }

  lemma YieldKeepsPosture(s: State, t: Tid, s1: State)
    requires t < |s.threads| && YieldStep(s, t) == Some(s1)
    ensures PostureKept(s, s1, t)
  {
    if s.threads[t].pc.RetLock? || s.threads[t].pc.RetBody? {
      YieldKeepsPostureReleasing(s, t, s1);
    } else {
      YieldKeepsPosturePosting(s, t, s1);
    }
  }

  lemma ReenterKeepsPosture(s: State, t: Tid, s1: State)
    requires t < |s.threads| && ReenterStep(s, t) == Some(s1)
    ensures PostureKept(s, s1, t)
  {
  }

  lemma OwnStepKeepsPosture(s: State, t: Tid, s1: State)
    requires ValidRef(s, s.current) && t < |s.threads| && ThreadStep(s, t) == Some(s1) && !InControl(s, t)
    ensures PostureKept(s, s1, t)
  {
    match s.threads[t].pc
    case EntryWait | EntryPost =>
    case RetWait | RetRepost | RetRelock | RetCheck => ReenterKeepsPosture(s, t, s1);
    case _ => YieldKeepsPosture(s, t, s1);
  }

  lemma SchedulerKeepsPosture(s: State, t: Tid)
    requires ValidRef(s, s.current) && ValidRef(s, s.execute) && t < |s.threads| && SchedulerStep(s).Some?
    ensures |SchedulerStep(s).value.threads| == |s.threads|
    ensures SchedulerStep(s).value.threads[t].pc == s.threads[t].pc
    ensures SchedulerStep(s).value.threads[t].intDisabled == s.threads[t].intDisabled
  {
  }

  lemma TimerKeepsPostureSaving(s: State, t: Tid)
    requires ValidRef(s, s.current) && ValidRef(s, s.execute) && t < |s.threads| && TimerStep(s).Some?
    requires s.tmr.pc.TSleep? || s.tmr.pc.TSaveLock? || s.tmr.pc.TSaveBody? || s.tmr.pc.TSaveAck? || s.tmr.pc.TSaveMark?
    ensures |TimerStep(s).value.threads| == |s.threads|
    ensures TimerStep(s).value.threads[t].pc == s.threads[t].pc
    ensures TimerStep(s).value.threads[t].intDisabled == s.threads[t].intDisabled
  {
  }

  lemma TimerKeepsPostureRestoring(s: State, t: Tid)
    requires ValidRef(s, s.current) && ValidRef(s, s.execute) && t < |s.threads| && TimerStep(s).Some?
    requires s.tmr.pc.TTickLock? || s.tmr.pc.TTick? || s.tmr.pc.TRestoreLock? || s.tmr.pc.TRestoreBody?
    ensures |TimerStep(s).value.threads| == |s.threads|
    ensures TimerStep(s).value.threads[t].pc == s.threads[t].pc
    ensures TimerStep(s).value.threads[t].intDisabled == s.threads[t].intDisabled
  {
  }

  lemma TimerKeepsPostureAfter(s: State, t: Tid)
    requires ValidRef(s, s.current) && ValidRef(s, s.execute) && t < |s.threads| && TimerStep(s).Some?
    requires s.tmr.pc.TDrainSched? || s.tmr.pc.TSetWaiting? || s.tmr.pc.TPostSched? || s.tmr.pc.TChoose?
      || AfterChoice(s.tmr.pc)
    ensures |TimerStep(s).value.threads| == |s.threads|
    ensures TimerStep(s).value.threads[t].pc == s.threads[t].pc
    ensures TimerStep(s).value.threads[t].intDisabled == s.threads[t].intDisabled
  {
  }

  lemma TimerKeepsPosture(s: State, t: Tid)
    requires ValidRef(s, s.current) && ValidRef(s, s.execute) && t < |s.threads| && TimerStep(s).Some?
    ensures |TimerStep(s).value.threads| == |s.threads|
    ensures TimerStep(s).value.threads[t].pc == s.threads[t].pc
    ensures TimerStep(s).value.threads[t].intDisabled == s.threads[t].intDisabled
  {
    if s.tmr.pc.TSleep? || s.tmr.pc.TSaveLock? || s.tmr.pc.TSaveBody? || s.tmr.pc.TSaveAck? || s.tmr.pc.TSaveMark? {
      TimerKeepsPostureSaving(s, t);
    } else if s.tmr.pc.TTickLock? || s.tmr.pc.TTick? || s.tmr.pc.TRestoreLock? || s.tmr.pc.TRestoreBody? {
      TimerKeepsPostureRestoring(s, t);
    } else {
      TimerKeepsPostureAfter(s, t);
    }
  }

  lemma StepKeepsPosture(s: State, e: Event, t: Tid)
    requires Inv(s) && t < |s.threads| && Next(s, e).Some?
    requires !InControl(s, t) && !(e.CallControl? && e.t == t)
    ensures |Next(s, e).value.threads| == |s.threads| && !InControl(Next(s, e).value, t)
    ensures Next(s, e).value.threads[t].intDisabled == s.threads[t].intDisabled
  {
    match e
    case SchedulerRuns => SchedulerKeepsPosture(s, t);
    case TimerRuns => TimerKeepsPosture(s, t);
    case ThreadRuns(u) =>
      if u == t {
        OwnStepKeepsPosture(s, t, Next(s, e).value);
      } else {
        ThreadLeavesRest(s, u, Next(s, e).value);
      }
    case _ =>
  }

  lemma {:induction false} RunKeepsPosture(s: State, es: seq<Event>, t: Tid)
    requires Inv(s) && t < |s.threads| && Run(s, es).Some? && !InControl(s, t)
    requires forall p :: CallControl(t, p) !in es
    ensures |Run(s, es).value.threads| == |s.threads|
    ensures Run(s, es).value.threads[t].intDisabled == s.threads[t].intDisabled
    decreases |es|
  {
    if es == [] {
    } else {
      StepKeepsPosture(s, es[0], t);
      NextKeepsInv(s, es[0]);
      RunKeepsPosture(Next(s, es[0]).value, es[1..], t);
    }
  }

  /** A thread that yields and, any number of handoffs and ticks later, is back in
      its own code holds the mutex then exactly if it held it before. */
  lemma SystemReturnKeepsPosture(s: State, es: seq<Event>, t: Tid)
    requires Reachable(s) && t < |s.threads| && Run(s, es).Some?
    requires s.threads[t].pc.RetLock? && t < |Run(s, es).value.threads| && Run(s, es).value.threads[t].pc.Running?
    requires forall p :: CallControl(t, p) !in es
    ensures Owns(Run(s, es).value.mutex, Thread(t)) <==> Owns(s.mutex, Thread(t))
  {
    ReachableInv(s);
    RunKeepsPosture(s, es, t);
    RunKeepsInv(s, es);
    assert ThreadInv(s, t);
    assert ThreadInv(Run(s, es).value, t);
  }
}
