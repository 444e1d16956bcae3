/** The handoff cannot get stuck, and every handoff takes a bounded number of
    steps of the protocol's own. */
module HandoffProgress {
  import opened Wrappers
  import opened HandoffModel
  import opened HandoffSafety
  import opened HandoffInvariant

  // ----- somebody always owes the next post -----

  ghost predicate SomeoneYields(s: State) {
    TimerYields(s.tmr.pc) || exists t :: 0 <= t < |s.threads| && Yielding(s.threads[t].pc)
  }

  /** The scheduler is on its way to dispatch a thread through its run semaphore,
      and so to post the interrupt semaphore. */
  ghost predicate DispatchDue(s: State)
    requires ValidRef(s, s.execute)
  {
    || (&& s.current.None? && s.execute.Some? && !s.threads[s.execute.value].suspension
        && ((s.sch.pc.SWaitYield? && s.sem == 1) || s.sch.pc.SLock? || s.sch.pc.STest? || s.sch.pc.SDispatch?))
    || s.sch.pc.SDrainRun? || s.sch.pc.SPostRun? || s.sch.pc.SBranch? || s.sch.pc.SWaitWaiting? || s.sch.pc.SPostIsr?
  }

  ghost predicate LiveInv(s: State)
    requires ValidRef(s, s.execute)
  {
    && (s.sch.pc.SWaitYield? && s.current.None? && s.sem == 0 ==> SomeoneYields(s))
    && (s.tmr.pc.TChoose? ==> s.current.None? && ((s.sch.pc.SWaitYield? && s.sem == 1) || s.sch.pc.SLock?))
    && (s.tmr.pc.TWaitIsr? && s.isr == 0 ==> DispatchDue(s))
  }

  ghost predicate LiveAfter(s: State, r: Option<State>) {
    r.Some? ==> ValidRef(r.value, r.value.execute) && LiveInv(r.value)
  }

  lemma SchedulerKeepsLivePicking(s: State)
    requires Inv(s) && LiveInv(s)
    requires s.sch.pc.SLock? || s.sch.pc.STest? || s.sch.pc.SSleep? || s.sch.pc.SDispatch? || s.sch.pc.SResume?
    ensures LiveAfter(s, SchedulerStep(s))
  {
    if s.current.Some? { assert ThreadInv(s, s.current.value); }
  }

  lemma SchedulerKeepsLiveStarting(s: State)
    requires Inv(s) && LiveInv(s)
    requires s.sch.pc.SDrainRun? || s.sch.pc.SPostRun? || s.sch.pc.SBranch? || s.sch.pc.SWaitWaiting?
      || s.sch.pc.SPostIsr?
    ensures LiveAfter(s, SchedulerStep(s))
  {
    if s.current.Some? { assert ThreadInv(s, s.current.value); }
  }

  lemma SchedulerKeepsLiveEnding(s: State)
    requires Inv(s) && LiveInv(s)
    requires s.sch.pc.SSuspendTimer? || s.sch.pc.SAckTimer? || s.sch.pc.SWaitSuspended? || s.sch.pc.SResumeTimer?
      || s.sch.pc.SUnlock? || s.sch.pc.SWaitYield?
    ensures LiveAfter(s, SchedulerStep(s))
  {
    if s.current.Some? { assert ThreadInv(s, s.current.value); }
  }

  lemma SchedulerKeepsLive(s: State)
    requires Inv(s) && LiveInv(s)
    ensures LiveAfter(s, SchedulerStep(s))
  {
    if s.sch.pc.SLock? || s.sch.pc.STest? || s.sch.pc.SSleep? || s.sch.pc.SDispatch? || s.sch.pc.SResume? {
      SchedulerKeepsLivePicking(s);
    } else if s.sch.pc.SDrainRun? || s.sch.pc.SPostRun? || s.sch.pc.SBranch? || s.sch.pc.SWaitWaiting?
      || s.sch.pc.SPostIsr? {
      SchedulerKeepsLiveStarting(s);
    } else {
      SchedulerKeepsLiveEnding(s);
    }
  }

  lemma TimerKeepsLiveInTick(s: State)
    requires Inv(s) && LiveInv(s)
    requires BeforeRestore(s.tmr.pc)
    ensures LiveAfter(s, TimerStep(s))
  {
  }

  lemma TimerKeepsLiveGivingUp(s: State)
    requires Inv(s) && LiveInv(s)
    requires GivingUp(s.tmr.pc)
    ensures LiveAfter(s, TimerStep(s))
  {
  }

  lemma TimerKeepsLiveWaiting(s: State)
    requires Inv(s) && LiveInv(s)
    requires AfterChoice(s.tmr.pc)
    ensures LiveAfter(s, TimerStep(s))
  {
  }

  lemma TimerKeepsLive(s: State)
    requires Inv(s) && LiveInv(s)
    ensures LiveAfter(s, TimerStep(s))
  {
    if BeforeRestore(s.tmr.pc) {
      TimerKeepsLiveInTick(s);
    } else if GivingUp(s.tmr.pc) {
      TimerKeepsLiveGivingUp(s);
    } else {
      TimerKeepsLiveWaiting(s);
    }
  }

  /** A step of thread `t` that leaves the window open leaves somebody yielding. */
  lemma ThreadKeepsYielder(s: State, t: Tid, s1: State)
    requires Inv(s) && LiveInv(s) && t < |s.threads| && ThreadStep(s, t) == Some(s1) && OnlyOwn(s, s1, t)
    requires s1.sch.pc.SWaitYield? && s1.current.None? && s1.sem == 0
    ensures SomeoneYields(s1)
  {
    ThreadStaysYielding(s, t, s1);
    if s.threads[t].pc.RetBody? {
      assert Yielding(s1.threads[t].pc);
    } else if !TimerYields(s.tmr.pc) {
      var u :| 0 <= u < |s.threads| && Yielding(s.threads[u].pc);
      assert Yielding(s1.threads[u].pc);
    }
  }

  lemma ThreadStaysYielding(s: State, t: Tid, s1: State)
    requires View(s, t) && ThreadStep(s, t) == Some(s1) && OnlyOwn(s, s1, t)
    requires s1.sch.pc.SWaitYield? && s1.current.None? && s1.sem == 0
    ensures if s.threads[t].pc.RetBody? || Yielding(s.threads[t].pc) then Yielding(s1.threads[t].pc)
            else s.current.None? && s.sem == 0
  {
  }

  lemma ThreadKeepsDue(s: State, t: Tid)
    requires Inv(s) && t < |s.threads| && ThreadStep(s, t).Some? && DispatchDue(s)
    ensures var s1 := ThreadStep(s, t).value; ValidRef(s1, s1.execute) && DispatchDue(s1)
  {
    assert ThreadInv(s, t);
    ThreadLeavesRest(s, t, ThreadStep(s, t).value);
  }

  /** While the timer looks at the execute pointer no thread can make a step. */
  lemma NoThreadStepsDuringChoice(s: State, t: Tid)
    requires Inv(s) && LiveInv(s) && t < |s.threads| && s.tmr.pc.TChoose?
    ensures ThreadStep(s, t).None?
  {
    assert ThreadInv(s, t);
  }

  /** What a step that only writes the data of thread `t` owes to LiveInv. */
  lemma LiveFrame(s: State, s1: State, t: Tid)
    requires ValidRef(s, s.execute) && LiveInv(s) && OnlyOwn(s, s1, t)
    requires s1.sch.pc.SWaitYield? && s1.current.None? && s1.sem == 0 ==> SomeoneYields(s1)
    requires DispatchDue(s) && s.tmr.pc.TWaitIsr? ==> DispatchDue(s1)
    requires s.tmr.pc.TChoose? ==> s1.current.None? && s1.sem == s.sem
    ensures LiveInv(s1)
  {
  }

  lemma ThreadKeepsLive(s: State, t: Tid)
    requires Inv(s) && LiveInv(s) && t < |s.threads|
    ensures LiveAfter(s, ThreadStep(s, t))
  {
    if ThreadStep(s, t).Some? {
      var s1 := ThreadStep(s, t).value;
      ThreadLeavesRest(s, t, s1);
      if s1.sch.pc.SWaitYield? && s1.current.None? && s1.sem == 0 { ThreadKeepsYielder(s, t, s1); }
      if DispatchDue(s) { ThreadKeepsDue(s, t); }
      if s.tmr.pc.TChoose? { NoThreadStepsDuringChoice(s, t); }
      LiveFrame(s, s1, t);
    }
  }

  /** An event that leaves the program counters of the threads where they are, or
      moves one that is not yielding, leaves somebody yielding. */
  lemma YielderStays(s: State, s1: State)
    requires SomeoneYields(s) && |s1.threads| == |s.threads|
    requires TimerYields(s.tmr.pc) ==> TimerYields(s1.tmr.pc)
    requires forall u | 0 <= u < |s.threads| :: Yielding(s.threads[u].pc) ==> Yielding(s1.threads[u].pc)
    ensures SomeoneYields(s1)
  {
    if !TimerYields(s.tmr.pc) {
      var u :| 0 <= u < |s.threads| && Yielding(s.threads[u].pc);
    }
  }

  lemma CallKeepsLive(s: State, e: Event)
    requires Inv(s) && LiveInv(s) && (e.CallControl? || e.CallReturn?)
    ensures LiveAfter(s, Next(s, e))
  {
    if Next(s, e).Some? {
      var s1 := Next(s, e).value;
      assert ThreadInv(s, e.t);
      if SomeoneYields(s) { YielderStays(s, s1); }
    }
  }

  lemma HandlerKeepsLive(s: State, e: Event)
    requires Inv(s) && LiveInv(s) && (e.ThreadHandler? || e.TimerHandler?)
    ensures LiveAfter(s, Next(s, e))
  {
    if Next(s, e).Some? {
      var s1 := Next(s, e).value;
      if SomeoneYields(s) { YielderStays(s, s1); }
    }
  }

  lemma ThreadKernelKeepsLive(s: State, e: Event)
    requires Inv(s) && LiveInv(s) && e.ThreadKernel?
    ensures LiveAfter(s, Next(s, e))
  {
    if Next(s, e).Some? {
      assert ThreadInv(s, e.t);
    }
  }

  lemma HostKeepsLive(s: State, e: Event)
    requires Inv(s) && LiveInv(s) && (e.TimerKernel? || e.TimerNested? || e.WakeScheduler? || e.WakeTimer?)
    ensures LiveAfter(s, Next(s, e))
  {
    if Next(s, e).Some? {
      var s1 := Next(s, e).value;
      if SomeoneYields(s) { YielderStays(s, s1); }
    }
  }

  lemma OtherEventKeepsLive(s: State, e: Event)
    requires Inv(s) && LiveInv(s) && !e.SchedulerRuns? && !e.TimerRuns? && !e.ThreadRuns?
    ensures LiveAfter(s, Next(s, e))
  {
    match e
    case ThreadHandler(_) | TimerHandler => HandlerKeepsLive(s, e);
    case CallControl(_, _) | CallReturn(_) => CallKeepsLive(s, e);
    case ThreadKernel(_, _, _) => ThreadKernelKeepsLive(s, e);
    case _ => HostKeepsLive(s, e);
  }

  lemma NextKeepsLive(s: State, e: Event)
    requires Inv(s) && LiveInv(s)
    ensures LiveAfter(s, Next(s, e))
  {
    match e
    case SchedulerRuns => SchedulerKeepsLive(s);
    case TimerRuns => TimerKeepsLive(s);
    case ThreadRuns(t) => if t < |s.threads| { ThreadKeepsLive(s, t); }
    case _ => OtherEventKeepsLive(s, e);
  }

  lemma {:induction false} RunKeepsLive(s: State, es: seq<Event>)
    requires Inv(s) && LiveInv(s) && Run(s, es).Some?
    ensures Inv(Run(s, es).value) && LiveInv(Run(s, es).value)
    decreases |es|
  {
    if es == [] {
    } else {
      NextKeepsLive(s, es[0]);
      NextKeepsInv(s, es[0]);
      RunKeepsLive(Next(s, es[0]).value, es[1..]);
    }
  }

  lemma ReachableLive(s: State)
    requires Reachable(s)
    ensures Inv(s) && LiveInv(s)
  {
    var s0: State, es: seq<Event> :| Init(s0) && Run(s0, es) == Some(s);
    InitEstablishesInv(s0);
    RunKeepsLive(s0, es);
  }

  // ----- no deadlock -----

  /** Nothing is under way: either the current thread executes its own code and
      the scheduler waits for it to yield, or there is no current thread, the
      mutex is free, and the scheduler and the timer sleep. */
  ghost predicate Settled(s: State) {
    || (&& s.current.Some? && OwnCode(s, s.current.value) && SigFree(s.threads[s.current.value].sig)
        && s.sch.pc.SWaitYield? && s.sem == 0)
    || (s.current.None? && s.mutex.owner.None? && s.sch.pc.SSleep? && s.tmr.pc.TSleep?)
  }

  /** Some process of the protocol can make a step. */
  ghost predicate CanProceed(s: State)
    requires ValidRef(s, s.current) && ValidRef(s, s.execute)
  {
    || SchedulerStep(s).Some? || TimerStep(s).Some? || HandlerStep(s.tmr.sig).Some?
    || (exists t :: 0 <= t < |s.threads| && ThreadCanProceed(s, t))
  }

  ghost predicate ThreadCanProceed(s: State, t: Tid)
    requires ValidRef(s, s.current) && t < |s.threads|
  {
    ThreadStep(s, t).Some? || HandlerStep(s.threads[t].sig).Some?
  }

  /** What a process waits for while it holds the mutex comes from a process that
      does not need it. The scheduler's answer comes from the thread it chose, which
      is at its run semaphore with that posted, or about to answer; an acknowledge
      byte comes from the signal handler of the pthread being stopped. */
  lemma WaitersHavePosters(s: State)
    requires Reachable(s)
    ensures (s.sch.pc.SWaitWaiting? || s.sch.pc.SWaitSuspended?) && s.sem == 0 ==>
      s.current.Some? && ChosenAnswers(s, s.current.value)
    ensures s.sch.pc.SAckTimer? && s.timerPipe == 0 ==> HandlerStep(s.tmr.sig).Some?
    ensures s.tmr.pc.TSaveAck? && s.otherPipe == 0 ==>
      s.current.Some? && HandlerStep(s.threads[s.current.value].sig).Some?
  {
    ReachableLive(s);
    if s.current.Some? { assert ThreadInv(s, s.current.value); }
  }

  /** The next step of thread `t` is enabled, leaves the mutex alone, and answers or
      brings it to where the step after that answers. */
  ghost predicate ChosenAnswers(s: State, t: Tid)
    requires ValidRef(s, s.current)
  {
    t < |s.threads| &&
    match ThreadStep(s, t)
    case None => false
    case Some(s1) =>
      && s1.mutex == s.mutex && |s1.threads| == |s.threads|
      && (if AtAnswer(s.threads[t].pc) then s1.sem == s.sem + 1
          else AtRunWait(s.threads[t].pc) && AtAnswer(s1.threads[t].pc))
  }

  lemma SchedulerHolderProceeds(s: State)
    requires Inv(s) && SchedulerHolds(s.sch.pc)
    ensures CanProceed(s)
  {
    if s.current.Some? { assert ThreadInv(s, s.current.value); }
    if s.sch.pc.SWaitWaiting? || s.sch.pc.SWaitSuspended? { assert s.sem > 0 || ThreadCanProceed(s, s.current.value); }
  }

  lemma TimerHolderProceeds(s: State)
    requires Inv(s) && Owns(s.mutex, Timer)
    ensures CanProceed(s)
  {
    if s.current.Some? { assert ThreadInv(s, s.current.value); }
    if s.tmr.pc.TSaveAck? { assert s.otherPipe > 0 || ThreadCanProceed(s, s.current.value); }
  }

  lemma ThreadHolderProceeds(s: State, t: Tid)
    requires Inv(s) && Owns(s.mutex, Thread(t)) && t < |s.threads|
    ensures CanProceed(s) || Settled(s)
  {
    assert ThreadInv(s, t);
    if !s.threads[t].pc.Running? { assert ThreadCanProceed(s, t); }
  }

  /** With the mutex free, a sleeping or waiting scheduler and a timer that cannot
      move leave only a thread to run. */
  lemma FreeMutexProceeds(s: State)
    requires Inv(s) && LiveInv(s) && s.mutex.owner.None?
    ensures CanProceed(s) || Settled(s)
  {
    if s.sch.pc.SWaitYield? && s.sem == 0 {
      if s.current.Some? {
        var t := s.current.value;
        assert ThreadInv(s, t);
        if !OwnCode(s, t) || !SigFree(s.threads[t].sig) { FreeCurrentProceeds(s); }
      } else if !TimerYields(s.tmr.pc) {
        var t :| 0 <= t < |s.threads| && Yielding(s.threads[t].pc);
        assert ThreadInv(s, t);
        assert ThreadCanProceed(s, t);
      }
    }
  }

  lemma FreeCurrentProceeds(s: State)
    requires Inv(s) && s.mutex.owner.None? && s.sch.pc.SWaitYield? && s.current.Some?
    requires !OwnCode(s, s.current.value) || !SigFree(s.threads[s.current.value].sig)
    ensures CanProceed(s)
  {
    var t := s.current.value;
    assert ThreadInv(s, t);
    if !InIsr(s.tmr.pc) { assert ThreadCanProceed(s, t); }
  }

  /** Deadlock freedom: in every reachable state some process of the protocol can
      make a step, unless nothing is under way. */
  lemma NoDeadlock(s: State)
    requires Reachable(s)
    ensures CanProceed(s) || Settled(s)
  {
    ReachableLive(s);
    ProceedsOrSettled(s);
  }

  lemma ProceedsOrSettled(s: State)
    requires Inv(s) && LiveInv(s)
    ensures CanProceed(s) || Settled(s)
  {
    if s.mutex.owner.None? { FreeMutexProceeds(s); }
    else {
      match s.mutex.owner.value
      case Scheduler => SchedulerHolderProceeds(s);
      case Timer => TimerHolderProceeds(s);
      case Thread(t) => ThreadHolderProceeds(s, t);
    }
  }

  // ----- a potential that every protocol step lowers -----

  ghost function SchedulerRank(pc: SchedulerPc): nat {
    match pc
    case SLock => 21 case STest => 20 case SDispatch => 19
    case SDrainRun => 18 case SPostRun => 17 case SBranch => 11
    case SSuspendTimer => 10 case SAckTimer => 4 case SWaitSuspended => 3 case SResumeTimer => 2
    case SWaitWaiting => 4 case SPostIsr => 3
    case SResume => 2 case SUnlock => 1
    case SSleep => 0 case SWaitYield => 0
  }

  ghost function TimerRank(pc: TimerPc): nat {
    match pc
    case TSaveLock => 44 case TSaveBody => 43 case TSaveAck => 37 case TSaveMark => 36
    case TTickLock => 35 case TTick => 34 case TRestoreLock => 33 case TRestoreBody => 32
    case TDrainSched => 31 case TSetWaiting => 30 case TPostSched => 29 case TChoose => 6
    case TWaitIsr => 5 case TRelock => 4 case TDrainIsr => 3 case TClear => 2 case TUnlock => 1
    case TSleep => 0
  }

  ghost function PcRank(pc: ThreadPc): nat {
    match pc
    case RetLock => 28 case RetBody => 27 case RetDrain => 26 case RetPostLock => 25 case RetPost => 24
    case RetPostUnlock => 1
    case RetRepost => 4 case RetRelock => 2 case RetCheck => 1
    case EntryPost => 2
    case CtlLock(_) => 2 case CtlBody(_) => 1
    case EntryWait => 0 case RetWait => 0 case Running => 0 case Exited => 0
  }

  ghost function SigRank(g: Sig): nat {
    (match g.handler case Out => 0 case Parked => 1 case Acked => 2 case Acking => 3)
    + (if g.suspendPending then 4 else 0)
  }

  ghost function ThreadRank(h: ThreadProc): nat {
    PcRank(h.pc) + SigRank(h.sig) + 5 * h.run
  }

  ghost function ThreadsRank(ts: seq<ThreadProc>): nat {
    if ts == [] then 0 else ThreadRank(ts[0]) + ThreadsRank(ts[1..])
  }

  /** A wakeup posted as an answer is nearly used up; one posted to give up the
      processor pays for the whole handoff that follows. */
  ghost function WakeupRank(s: State): nat {
    if AwaitsAnswer(s.sch.pc) then s.sem else 22 * s.sem
  }

  ghost function CoreRank(s: State): nat {
    SchedulerRank(s.sch.pc) + TimerRank(s.tmr.pc) + SigRank(s.tmr.sig) + s.isr + WakeupRank(s)
  }

  ghost function Potential(s: State): nat {
    CoreRank(s) + ThreadsRank(s.threads)
  }

  lemma {:induction false} ThreadsRankUpdate(ts: seq<ThreadProc>, t: Tid, h: ThreadProc)
    requires t < |ts|
    ensures ThreadsRank(ts[t := h]) + ThreadRank(ts[t]) == ThreadsRank(ts) + ThreadRank(h)
  {
    if t == 0 {
      assert ts[t := h][1..] == ts[1..];
    } else {
      assert ts[t := h][1..] == ts[1..][t - 1 := h];
      ThreadsRankUpdate(ts[1..], t - 1, h);
    }
  }

  /** At most thread `t` differs. */
  ghost predicate OnlyThread(s: State, s1: State, t: Tid) {
    |s1.threads| == |s.threads| && t < |s.threads| && s1.threads == s.threads[t := s1.threads[t]]
  }

  lemma OneThreadRank(s: State, s1: State, t: Tid)
    requires OnlyThread(s, s1, t)
    ensures Potential(s1) + CoreRank(s) + ThreadRank(s.threads[t])
         == Potential(s) + CoreRank(s1) + ThreadRank(s1.threads[t])
  {
    ThreadsRankUpdate(s.threads, t, s1.threads[t]);
  }

  /** The scheduler steps that write the chosen thread's data. */
  ghost predicate SchedulerWritesThread(s: State) {
    s.current.Some? && (s.sch.pc.SResume? || s.sch.pc.SDrainRun? || s.sch.pc.SPostRun?)
  }

  lemma SchedulerWrites(s: State, s1: State)
    requires GlobalInv(s) && SchedulerStep(s) == Some(s1)
    ensures if SchedulerWritesThread(s) then OnlyThread(s, s1, s.current.value) else s1.threads == s.threads
  {
  }

  lemma ResumeDescends(s: State, s1: State, t: Tid)
    requires View(s, t) && IsCurrent(s, t) && s.sch.pc.SResume?
    requires SchedulerStep(s) == Some(s1) && |s1.threads| == |s.threads|
    ensures CoreRank(s1) + ThreadRank(s1.threads[t]) < CoreRank(s) + ThreadRank(s.threads[t])
  {
    assert s1.threads[t] == s.threads[t].(sig := s.threads[t].sig.(resumePending := true));
    assert s1.sch.pc.SUnlock?;
  }

  lemma DrainDescends(s: State, s1: State, t: Tid)
    requires View(s, t) && IsCurrent(s, t) && s.sch.pc.SDrainRun?
    requires SchedulerStep(s) == Some(s1) && |s1.threads| == |s.threads|
    ensures CoreRank(s1) + ThreadRank(s1.threads[t]) < CoreRank(s) + ThreadRank(s.threads[t])
  {
    assert RoleOf(s, t).Chosen? && s1.threads[t] == s.threads[t];
    assert s1.sch.pc.SPostRun?;
  }

  lemma PostDescends(s: State, s1: State, t: Tid)
    requires View(s, t) && IsCurrent(s, t) && s.sch.pc.SPostRun?
    requires SchedulerStep(s) == Some(s1) && |s1.threads| == |s.threads|
    ensures CoreRank(s1) + ThreadRank(s1.threads[t]) < CoreRank(s) + ThreadRank(s.threads[t])
  {
    var h := s.threads[t];
    assert s1.threads[t] == h.(run := h.run + 1);
    RunPostRank(h);
    PostCoreRank(s, s1);
  }

  lemma RunPostRank(h: ThreadProc)
    ensures ThreadRank(h.(run := h.run + 1)) == ThreadRank(h) + 5
  {
  }

  lemma PostCoreRank(s: State, s1: State)
    requires GlobalInv(s) && s.sch.pc.SPostRun? && SchedulerStep(s) == Some(s1)
    ensures CoreRank(s1) + 6 == CoreRank(s)
  {
    assert s.sem == 0 && s1.sem == 0 && s1.sch.pc.SBranch? && s1.tmr == s.tmr && s1.isr == s.isr;
  }

  lemma SchedulerThreadDescends(s: State, s1: State, t: Tid)
    requires View(s, t) && IsCurrent(s, t) && SchedulerWritesThread(s)
    requires SchedulerStep(s) == Some(s1) && |s1.threads| == |s.threads|
    ensures CoreRank(s1) + ThreadRank(s1.threads[t]) < CoreRank(s) + ThreadRank(s.threads[t])
  {
    if s.sch.pc.SResume? {
      ResumeDescends(s, s1, t);
    } else if s.sch.pc.SDrainRun? {
      DrainDescends(s, s1, t);
    } else {
      PostDescends(s, s1, t);
    }
  }

  lemma SchedulerCoreDescendsPicking(s: State, s1: State)
    requires GlobalInv(s) && SchedulerStep(s) == Some(s1) && !SchedulerWritesThread(s)
    requires Picking(s.sch.pc)
    ensures CoreRank(s1) < CoreRank(s)
  {
  }

  lemma SchedulerCoreDescendsMeeting(s: State, s1: State)
    requires GlobalInv(s) && SchedulerStep(s) == Some(s1) && !SchedulerWritesThread(s)
    requires Meeting(s.sch.pc)
    ensures CoreRank(s1) < CoreRank(s)
  {
  }

  lemma SchedulerCoreDescends(s: State, s1: State)
    requires GlobalInv(s) && SchedulerStep(s) == Some(s1) && !SchedulerWritesThread(s)
    ensures CoreRank(s1) < CoreRank(s)
  {
    if Picking(s.sch.pc) {
      SchedulerCoreDescendsPicking(s, s1);
    } else {
      SchedulerCoreDescendsMeeting(s, s1);
    }
  }

  lemma SchedulerDescends(s: State, s1: State)
    requires Inv(s) && SchedulerStep(s) == Some(s1)
    ensures Potential(s1) < Potential(s)
  {
    SchedulerWrites(s, s1);
    if SchedulerWritesThread(s) {
      var t := s.current.value;
      assert View(s, t);
      OneThreadRank(s, s1, t);
      SchedulerThreadDescends(s, s1, t);
    } else {
      SchedulerCoreDescends(s, s1);
    }
  }

  /** The timer steps that write the current thread's data. */
  ghost predicate TimerWritesThread(s: State) {
    s.current.Some? && (s.tmr.pc.TSaveBody? || s.tmr.pc.TSaveMark? || s.tmr.pc.TRestoreBody?)
  }

  lemma TimerWrites(s: State, s1: State)
    requires GlobalInv(s) && TimerStep(s) == Some(s1)
    ensures if TimerWritesThread(s) then OnlyThread(s, s1, s.current.value) else s1.threads == s.threads
  {
  }

  lemma TimerCoreDescendsInTick(s: State, s1: State)
    requires GlobalInv(s) && TimerStep(s) == Some(s1)
    requires BeforeRestore(s.tmr.pc)
    ensures CoreRank(s1) + (if s.tmr.pc.TSaveBody? && s.current.Some? then 6 else 1) <= CoreRank(s)
  {
  }

  lemma TimerCoreDescendsGivingUp(s: State, s1: State)
    requires GlobalInv(s) && TimerStep(s) == Some(s1)
    requires GivingUp(s.tmr.pc)
    ensures CoreRank(s1) + (if s.tmr.pc.TSaveBody? && s.current.Some? then 6 else 1) <= CoreRank(s)
  {
  }

  lemma TimerCoreDescendsWaiting(s: State, s1: State)
    requires GlobalInv(s) && TimerStep(s) == Some(s1)
    requires AfterChoice(s.tmr.pc)
    ensures CoreRank(s1) + (if s.tmr.pc.TSaveBody? && s.current.Some? then 6 else 1) <= CoreRank(s)
  {
  }

  lemma TimerCoreDescends(s: State, s1: State)
    requires GlobalInv(s) && TimerStep(s) == Some(s1)
    ensures CoreRank(s1) + (if s.tmr.pc.TSaveBody? && s.current.Some? then 6 else 1) <= CoreRank(s)
  {
    if BeforeRestore(s.tmr.pc) {
      TimerCoreDescendsInTick(s, s1);
    } else if GivingUp(s.tmr.pc) {
      TimerCoreDescendsGivingUp(s, s1);
    } else {
      TimerCoreDescendsWaiting(s, s1);
    }
  }

  lemma TimerThreadAscends(s: State, s1: State, t: Tid)
    requires GlobalInv(s) && IsCurrent(s, t) && TimerStep(s) == Some(s1) && TimerWritesThread(s)
      && |s1.threads| == |s.threads|
    ensures ThreadRank(s1.threads[t]) <= ThreadRank(s.threads[t]) + (if s.tmr.pc.TSaveBody? then 4 else 0)
  {
  }

  lemma TimerDescends(s: State, s1: State)
    requires Inv(s) && TimerStep(s) == Some(s1)
    ensures Potential(s1) < Potential(s)
  {
    TimerWrites(s, s1);
    TimerCoreDescends(s, s1);
    if TimerWritesThread(s) {
      var t := s.current.value;
      OneThreadRank(s, s1, t);
      TimerThreadAscends(s, s1, t);
    }
  }

  lemma ThreadDescends(s: State, s1: State, t: Tid)
    requires Inv(s) && t < |s.threads| && ThreadStep(s, t) == Some(s1)
    ensures Potential(s1) < Potential(s)
  {
    ThreadLeavesRest(s, t, s1);
    OneThreadRank(s, s1, t);
    assert View(s, t);
    ThreadRankDescends(s, s1, t);
  }

  ghost predicate Descends(s: State, s1: State, t: Tid) {
    && t < |s.threads| && t < |s1.threads|
    && WakeupRank(s1) + ThreadRank(s1.threads[t]) < WakeupRank(s) + ThreadRank(s.threads[t])
  }

  lemma SameSigRank(h: ThreadProc, h1: ThreadProc)
    requires h1.sig == h.sig
    ensures ThreadRank(h1) + PcRank(h.pc) + 5 * h.run == ThreadRank(h) + PcRank(h1.pc) + 5 * h1.run
  {
  }

  lemma EntryDescends(s: State, s1: State, t: Tid)
    requires View(s, t) && s.threads[t].sig.handler.Out? && EntryStep(s, t) == Some(s1)
    ensures Descends(s, s1, t)
  {
    var h, h1 := s.threads[t], s1.threads[t];
    if h.pc.EntryPost? { assert AwaitsAnswer(s.sch.pc); }
    SameSigRank(h, h1);
  }

  lemma ControlChanges(s: State, s1: State, t: Tid)
    requires ValidRef(s, s.current) && t < |s.threads| && ControlStep(s, t) == Some(s1)
    ensures |s1.threads| == |s.threads| && s1.sch == s.sch && s1.sem == s.sem
    ensures s1.threads[t].run == s.threads[t].run && s1.threads[t].sig == s.threads[t].sig
    ensures PcRank(s1.threads[t].pc) < PcRank(s.threads[t].pc)
  {
  }

  lemma ControlDescends(s: State, s1: State, t: Tid)
    requires View(s, t) && s.threads[t].sig.handler.Out? && ControlStep(s, t) == Some(s1)
    ensures Descends(s, s1, t)
  {
    ControlChanges(s, s1, t);
    SameSigRank(s.threads[t], s1.threads[t]);
  }

  lemma YieldChanges(s: State, s1: State, t: Tid)
    requires t < |s.threads| && YieldStep(s, t) == Some(s1)
    requires !s.threads[t].pc.RetPost? && !s.threads[t].pc.RetBody?
    requires s.threads[t].pc.RetDrain? ==> s.sem == 0
    ensures |s1.threads| == |s.threads| && s1.sch == s.sch && s1.sem == s.sem
    ensures s1.threads[t].run == s.threads[t].run && s1.threads[t].sig == s.threads[t].sig
    ensures PcRank(s1.threads[t].pc) < PcRank(s.threads[t].pc)
  {
  }

  lemma YieldDescends(s: State, s1: State, t: Tid)
    requires View(s, t) && s.threads[t].sig.handler.Out? && YieldStep(s, t) == Some(s1)
    ensures Descends(s, s1, t)
  {
    if s.threads[t].pc.RetPost? { assert s.sch.pc.SWaitYield?; }
    else if !s.threads[t].pc.RetBody? { YieldChanges(s, s1, t); }
    SameSigRank(s.threads[t], s1.threads[t]);
  }

  lemma ReenterChanges(s: State, s1: State, t: Tid)
    requires t < |s.threads| && ReenterStep(s, t) == Some(s1)
    ensures |s1.threads| == |s.threads| && s1.sch == s.sch && s1.threads[t].sig == s.threads[t].sig
    ensures s1.sem == s.sem + (if s.threads[t].pc.RetRepost? then 1 else 0)
    ensures PcRank(s1.threads[t].pc) + 5 * s1.threads[t].run + (if s.threads[t].pc.RetRepost? then 2 else 1)
         <= PcRank(s.threads[t].pc) + 5 * s.threads[t].run
  {
  }

  lemma ReenterDescends(s: State, s1: State, t: Tid)
    requires View(s, t) && s.threads[t].sig.handler.Out? && ReenterStep(s, t) == Some(s1)
    ensures Descends(s, s1, t)
  {
    if s.threads[t].pc.RetRepost? { assert AwaitsAnswer(s.sch.pc); }
    ReenterChanges(s, s1, t);
    SameSigRank(s.threads[t], s1.threads[t]);
  }

  lemma ThreadRankDescends(s: State, s1: State, t: Tid)
    requires View(s, t) && ThreadStep(s, t) == Some(s1)
    ensures Descends(s, s1, t)
  {
    match s.threads[t].pc
    case EntryWait | EntryPost => EntryDescends(s, s1, t);
    case CtlLock(_) | CtlBody(_) => ControlDescends(s, s1, t);
    case RetWait | RetRepost | RetRelock | RetCheck => ReenterDescends(s, s1, t);
    case _ => YieldDescends(s, s1, t);
  }

  lemma HandlerStepDescends(g: Sig)
    requires HandlerStep(g).Some?
    ensures SigRank(HandlerStep(g).value.0) < SigRank(g)
  {
  }

  lemma HandlerDescends(s: State, s1: State, e: Event)
    requires Inv(s) && (e.TimerHandler? || e.ThreadHandler?) && Next(s, e) == Some(s1)
    ensures Potential(s1) < Potential(s)
  {
    if e.ThreadHandler? {
      assert s1.threads == s.threads[e.t := s1.threads[e.t]];
      HandlerStepDescends(s.threads[e.t].sig);
      OneThreadRank(s, s1, e.t);
    } else {
      HandlerStepDescends(s.tmr.sig);
    }
  }

  /** Every step of the protocol lowers the potential. */
  lemma InternalDescends(s: State, e: Event)
    requires Inv(s) && Internal(e) && Next(s, e).Some?
    ensures Potential(Next(s, e).value) < Potential(s)
  {
    var s1 := Next(s, e).value;
    match e
    case SchedulerRuns => SchedulerDescends(s, s1);
    case TimerRuns => TimerDescends(s, s1);
    case ThreadRuns(t) => ThreadDescends(s, s1, t);
    case _ => HandlerDescends(s, s1, e);
  }

  /** One event of the environment pays for no more than 44 steps. */
  lemma EnvironmentAscends(s: State, e: Event)
    requires Inv(s) && !Internal(e) && Next(s, e).Some?
    ensures Potential(Next(s, e).value) <= Potential(s) + 44
  {
    var s1 := Next(s, e).value;
    if e.CallControl? || e.CallReturn? {
      assert s1.threads == s.threads[e.t := s1.threads[e.t]];
      OneThreadRank(s, s1, e.t);
    }
  }

  ghost function InternalSteps(es: seq<Event>): nat {
    if es == [] then 0 else (if Internal(es[0]) then 1 else 0) + InternalSteps(es[1..])
  }

  /** Over every run, the protocol's own steps are bounded by the potential at its
      start and the number of events of the environment. */
  lemma {:induction false} ProtocolStepsAreBounded(s: State, es: seq<Event>)
    requires Inv(s) && Run(s, es).Some?
    ensures Potential(Run(s, es).value) + InternalSteps(es) <= Potential(s) + 44 * (|es| - InternalSteps(es))
    decreases |es|
  {
    if es == [] {
    } else {
      if Internal(es[0]) { InternalDescends(s, es[0]); } else { EnvironmentAscends(s, es[0]); }
      NextKeepsInv(s, es[0]);
      ProtocolStepsAreBounded(Next(s, es[0]).value, es[1..]);
    }
  }

  ghost predicate AllInternal(es: seq<Event>) {
    forall i :: 0 <= i < |es| ==> Internal(es[i])
  }

  /** An internal event that is enabled when some process can proceed. */
  lemma SomeEventEnabled(s: State) returns (e: Event)
    requires ValidRef(s, s.current) && ValidRef(s, s.execute) && CanProceed(s)
    ensures Internal(e) && Next(s, e).Some?
  {
    if SchedulerStep(s).Some? { e := SchedulerRuns; }
    else if TimerStep(s).Some? { e := TimerRuns; }
    else if HandlerStep(s.tmr.sig).Some? { e := TimerHandler; }
    else {
      var t :| 0 <= t < |s.threads| && ThreadCanProceed(s, t);
      e := if ThreadStep(s, t).Some? then ThreadRuns(t) else ThreadHandler(t);
    }
  }

  lemma {:induction false} SettlesFrom(s: State) returns (es: seq<Event>)
    requires Inv(s) && LiveInv(s)
    ensures AllInternal(es) && |es| <= Potential(s)
    ensures Run(s, es).Some? && Settled(Run(s, es).value)
    decreases Potential(s)
  {
    if Settled(s) {
      es := [];
    } else {
      ProceedsOrSettled(s);
      var e := SomeEventEnabled(s);
      InternalDescends(s, e);
      NextKeepsInv(s, e);
      NextKeepsLive(s, e);
      var rest := SettlesFrom(Next(s, e).value);
      es := [e] + rest;
      assert es[1..] == rest;
    }
  }

  /** Left to itself, the protocol settles from every reachable state, within as
      many steps as the potential says. */
  lemma HandoffCompletes(s: State) returns (es: seq<Event>)
    requires Reachable(s)
    ensures AllInternal(es) && |es| <= Potential(s)
    ensures Run(s, es).Some? && Settled(Run(s, es).value)
  {
    ReachableLive(s);
    es := SettlesFrom(s);
  }

  // ----- the chosen thread gets to run -----

  /** The core has chosen thread `t`, the scheduler is awake, no tick is under way
      and no other thread has the processor. */
  ghost predicate Due(s: State, t: Tid) {
    && s.execute.Some? && s.execute.value == t
    && AfterTick(s.tmr.pc) && !s.sch.pc.SSleep?
    && (s.current.None? || IsCurrent(s, t))
  }

  lemma SchedulerKeepsDuePicking(s: State, t: Tid, s1: State)
    requires Inv(s) && Due(s, t) && SchedulerStep(s) == Some(s1)
    requires Picking(s.sch.pc)
    ensures Due(s1, t)
  {
  }

  lemma SchedulerKeepsDueMeeting(s: State, t: Tid, s1: State)
    requires Inv(s) && Due(s, t) && SchedulerStep(s) == Some(s1)
    requires Meeting(s.sch.pc)
    ensures Due(s1, t)
  {
  }

  lemma SchedulerKeepsDue(s: State, t: Tid, s1: State)
    requires Inv(s) && Due(s, t) && SchedulerStep(s) == Some(s1)
    ensures Due(s1, t)
  {
    if Picking(s.sch.pc) {
      SchedulerKeepsDuePicking(s, t, s1);
    } else {
      SchedulerKeepsDueMeeting(s, t, s1);
    }
  }

  lemma TimerKeepsDue(s: State, t: Tid, s1: State)
    requires Inv(s) && Due(s, t) && TimerStep(s) == Some(s1)
    ensures Due(s1, t)
  {
  }

  lemma InternalKeepsDue(s: State, t: Tid, e: Event)
    requires Inv(s) && Due(s, t) && Internal(e) && Next(s, e).Some?
    ensures Due(Next(s, e).value, t)
  {
    var s1 := Next(s, e).value;
    match e
    case SchedulerRuns => SchedulerKeepsDue(s, t, s1);
    case TimerRuns => TimerKeepsDue(s, t, s1);
    case ThreadRuns(u) => ThreadLeavesRest(s, u, s1);
    case _ =>
  }

  lemma {:induction false} RunKeepsDue(s: State, t: Tid, es: seq<Event>)
    requires Inv(s) && LiveInv(s) && Due(s, t) && AllInternal(es) && Run(s, es).Some?
    ensures Inv(Run(s, es).value) && LiveInv(Run(s, es).value) && Due(Run(s, es).value, t)
    decreases |es|
  {
    if es == [] {
    } else {
      InternalKeepsDue(s, t, es[0]);
      NextKeepsInv(s, es[0]);
      NextKeepsLive(s, es[0]);
      RunKeepsDue(Next(s, es[0]).value, t, es[1..]);
    }
  }

  /** No run of the protocol's own steps is longer than the potential at its start,
      and one that cannot be continued has settled. */
  lemma EveryScheduleSettles(s: State, es: seq<Event>)
    requires Reachable(s) && AllInternal(es) && Run(s, es).Some?
    ensures |es| <= Potential(s)
    ensures CanProceed(Run(s, es).value) || Settled(Run(s, es).value)
  {
    ReachableLive(s);
    RunKeepsLive(s, es);
    ProceedsOrSettled(Run(s, es).value);
    ProtocolStepsAreBounded(s, es);
    AllInternalCounted(es);
  }

  lemma {:induction false} AllInternalCounted(es: seq<Event>)
    requires AllInternal(es)
    ensures InternalSteps(es) == |es|
  {
    if es == [] {
    } else {
      AllInternalCounted(es[1..]);
    }
  }

  /** The handoff delivers: whatever order the host runs the processes in, and
      whatever is halfway done, once no process can make another step the thread
      that the core chose is current and executes its own code. */
  lemma EveryScheduleRunsChosen(s: State, t: Tid, es: seq<Event>)
    requires Reachable(s) && Due(s, t) && AllInternal(es) && Run(s, es).Some?
    ensures |es| <= Potential(s)
    ensures var s1 := Run(s, es).value; CanProceed(s1) || (IsCurrent(s1, t) && OwnCode(s1, t))
  {
    EveryScheduleSettles(s, es);
    ReachableLive(s);
    RunKeepsDue(s, t, es);
  }

  /** And there is such a run from every state in which the core has chosen `t` and
      nobody is current, after the scheduler wakes if it sleeps. */
  lemma ChosenThreadRuns(s: State, t: Tid) returns (es: seq<Event>)
    requires Reachable(s) && s.current.None? && s.execute == Some(t) && AfterTick(s.tmr.pc)
    ensures if s.sch.pc.SSleep? then es != [] && es[0].WakeScheduler? && AllInternal(es[1..]) else AllInternal(es)
    ensures Run(s, es).Some? && IsCurrent(Run(s, es).value, t) && OwnCode(Run(s, es).value, t)
  {
    ReachableLive(s);
    if s.sch.pc.SSleep? {
      var s1 := Next(s, WakeScheduler).value;
      NextKeepsInv(s, WakeScheduler);
      NextKeepsLive(s, WakeScheduler);
      var rest := SettlesFrom(s1);
      RunKeepsDue(s1, t, rest);
      es := [WakeScheduler] + rest;
      assert es[1..] == rest;
    } else {
      es := SettlesFrom(s);
      RunKeepsDue(s, t, es);
    }
  }

  // ----- the rendezvous at the end of a preempting tick -----

  /** The tick that preempts waits for the handoff if and only if the thread the core
      chose is one that starts from its run semaphore, and not one that a signal
      resumes. Where it waits it has let the mutex go. */
  lemma TickWaitsIff(s: State)
    requires Reachable(s) && s.tmr.pc.TChoose?
    ensures ValidRef(s, s.current) && ValidRef(s, s.execute) && TimerStep(s).Some?
    ensures var s1 := TimerStep(s).value;
      && (s1.tmr.pc.TWaitIsr? <==> s.execute.Some? && InTail(s.threads[s.execute.value].pc))
      && (s1.tmr.pc.TWaitIsr? ==> s1.mutex.owner.None?)
      && (!s1.tmr.pc.TWaitIsr? ==> s1.tmr.pc.TClear? && Owns(s1.mutex, Timer))
  {
    ReachableLive(s);
    if s.execute.Some? { assert ThreadInv(s, s.execute.value); }
  }

  /** And then it does not lower its flag before that handoff is completed: the timer
      passes its wait exactly once, and the scheduler has posted by then. */
  lemma TickEndsAfterHandoff(s: State, es: seq<Event>)
    requires Reachable(s) && s.tmr.pc.TChoose? && Run(s, es).Some? && WakeTimer !in es
    requires s.execute.Some? && s.execute.value < |s.threads| && InTail(s.threads[s.execute.value].pc)
    requires !Run(s, es).value.tmr.pc.TChoose? && !Run(s, es).value.tmr.pc.TWaitIsr?
    ensures Total(s, es, IsrWaits) == 1 && Total(s, es, IsrPosts) >= 1
  {
    ReachableLive(s);
    assert ThreadInv(s, s.execute.value);
    RunKeepsWaitDue(s, es);
    RunConservesIsr(s, es);
  }
}
