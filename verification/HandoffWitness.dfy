/** A run that ends with a tick about to stop a thread whose posture flag says
    that interrupts are disabled. One would expect that no thread with interrupts
    disabled is ever suspended by a tick. That is true of a thread that holds the
    mutex, and false of the flag alone: HandoffSafety.TickStopsIffUnlocked. */
module HandoffWitness {
  import opened InterruptPosture
  import opened Wrappers
  import opened HandoffModel
  import opened HandoffInvariant
  import opened HandoffSafety

  lemma {:induction false} RunAppends(s: State, es: seq<Event>, e: Event)
    requires ValidRef(s, s.current) && ValidRef(s, s.execute) && Run(s, es).Some?
    ensures Run(s, es + [e]) == Next(Run(s, es).value, e)
    decreases |es|
  {
    if es == [] {
      var r := Next(s, e);
      if r.Some? {
        NextKeepsRefs(s, e);
        assert ([] + [e])[1..] == [];
        assert Run(r.value, []) == Some(r.value);
      }
    } else {
      NextKeepsRefs(s, es[0]);
      RunAppends(Next(s, es[0]).value, es[1..], e);
      assert (es + [e])[1..] == es[1..] + [e];
    }
  }

  lemma Go(s: State, e: Event, s1: State)
    requires Reachable(s) && ValidRef(s, s.current) && ValidRef(s, s.execute) && Next(s, e) == Some(s1)
    ensures Reachable(s1)
  {
    var s0: State, es: seq<Event> :| Init(s0) && Run(s0, es) == Some(s);
    RunAppends(s0, es, e);
    assert Run(s0, es + [e]) == Some(s1);
  }

  /** One thread, chosen by the core; the scheduler, the timer and the current
      pointer as given. */
  function OneThread(m: Mutex, sch: SchedulerProc, g: Sig, h: ThreadProc, sem: nat, current: Option<Tid>): State {
    State(m, sch, TimerProc(TSleep, 0, g), [h], sem, 0, false, 0, current, Some(0), 0, 0, 0)
  }

  function Holding(pc: SchedulerPc): SchedulerProc {
    SchedulerProc(pc, 1)
  }

  function Outside(pc: SchedulerPc): SchedulerProc {
    SchedulerProc(pc, 0)
  }

  const FREE := Mutex(None, 0)
  const BY_SCHEDULER := Mutex(Some(Scheduler), 1)

  predicate Waits(h: ThreadProc) {
    (h.pc.EntryWait? || h.pc.RetWait?) && h.locks == 0 && h.sig == QUIET && h.run == 0 && !h.suspension
  }

  lemma SingletonUpdate()
    ensures forall h: ThreadProc, h1: ThreadProc {:trigger [h][0 := h1]} :: [h][0 := h1] == [h1]
  {
  }

  const BY_THREAD := Mutex(Some(Thread(0)), 1)
  const BY_TIMER := Mutex(Some(Timer), 1)
  const REQUESTED := Sig(true, false, Out, false)
  const ACKING := Sig(false, false, Acking, false)
  const ACKED := Sig(false, false, Acked, false)
  const WAKING := Sig(false, true, Parked, true)
  const PARKED := Sig(false, false, Parked, true)

  function At(pc: ThreadPc, locks: nat, flag: bool): ThreadProc {
    ThreadProc(pc, locks, QUIET, 0, false, flag)
  }

  function Woken(h: ThreadProc): ThreadProc {
    h.(pc := if h.pc.EntryWait? then EntryPost else RetRepost)
  }

  function Answered(h: ThreadProc): ThreadProc {
    h.(pc := if h.pc.EntryWait? then Running else RetRelock)
  }

  /** From the scheduler's lock to its choice. */
  lemma SchedulerChooses(h: ThreadProc)
    requires Waits(h)
    requires Reachable(OneThread(FREE, Outside(SLock), QUIET, h, 0, None))
    ensures Reachable(OneThread(BY_SCHEDULER, Holding(SDrainRun), QUIET, h, 0, Some(0)))
  {
    Go(OneThread(FREE, Outside(SLock), QUIET, h, 0, None),
       SchedulerRuns, OneThread(BY_SCHEDULER, Holding(STest), QUIET, h, 0, None));
    Go(OneThread(BY_SCHEDULER, Holding(STest), QUIET, h, 0, None),
       SchedulerRuns, OneThread(BY_SCHEDULER, Holding(SDispatch), QUIET, h, 0, None));
    Go(OneThread(BY_SCHEDULER, Holding(SDispatch), QUIET, h, 0, None),
       SchedulerRuns, OneThread(BY_SCHEDULER, Holding(SDrainRun), QUIET, h, 0, Some(0)));
  }

  /** It posts the run semaphore. */
  lemma SchedulerPosts(h: ThreadProc)
    requires Waits(h)
    requires Reachable(OneThread(BY_SCHEDULER, Holding(SDrainRun), QUIET, h, 0, Some(0)))
    ensures Reachable(OneThread(BY_SCHEDULER, Holding(SBranch), QUIET, h.(run := 1), 0, Some(0)))
  {
    SingletonUpdate();
    Go(OneThread(BY_SCHEDULER, Holding(SDrainRun), QUIET, h, 0, Some(0)),
       SchedulerRuns, OneThread(BY_SCHEDULER, Holding(SPostRun), QUIET, h, 0, Some(0)));
    Go(OneThread(BY_SCHEDULER, Holding(SPostRun), QUIET, h, 0, Some(0)),
       SchedulerRuns, OneThread(BY_SCHEDULER, Holding(SBranch), QUIET, h.(run := 1), 0, Some(0)));
  }

  /** It sends the timer the suspend signal. */
  lemma SchedulerSuspendsTimer(h: ThreadProc)
    requires Waits(h)
    requires Reachable(OneThread(BY_SCHEDULER, Holding(SBranch), QUIET, h.(run := 1), 0, Some(0)))
    ensures Reachable(OneThread(BY_SCHEDULER, Holding(SAckTimer), REQUESTED, h.(run := 1), 0, Some(0)))
  {
    Go(OneThread(BY_SCHEDULER, Holding(SBranch), QUIET, h.(run := 1), 0, Some(0)),
       SchedulerRuns, OneThread(BY_SCHEDULER, Holding(SSuspendTimer), QUIET, h.(run := 1), 0, Some(0)));
    Go(OneThread(BY_SCHEDULER, Holding(SSuspendTimer), QUIET, h.(run := 1), 0, Some(0)),
       SchedulerRuns, OneThread(BY_SCHEDULER, Holding(SAckTimer), REQUESTED, h.(run := 1), 0, Some(0)));
  }

  /** The timer acknowledges and parks. */
  lemma TimerAcknowledges(h: ThreadProc)
    requires Waits(h)
    requires Reachable(OneThread(BY_SCHEDULER, Holding(SAckTimer), REQUESTED, h.(run := 1), 0, Some(0)))
    ensures Reachable(OneThread(BY_SCHEDULER, Holding(SWaitSuspended), PARKED, h.(run := 1), 0, Some(0)))
  {
    Go(OneThread(BY_SCHEDULER, Holding(SAckTimer), REQUESTED, h.(run := 1), 0, Some(0)),
       TimerHandler, OneThread(BY_SCHEDULER, Holding(SAckTimer), ACKING, h.(run := 1), 0, Some(0)));
    Go(OneThread(BY_SCHEDULER, Holding(SAckTimer), ACKING, h.(run := 1), 0, Some(0)),
       TimerHandler, OneThread(BY_SCHEDULER, Holding(SAckTimer), ACKED, h.(run := 1), 0, Some(0)).(timerPipe := 1));
    Go(OneThread(BY_SCHEDULER, Holding(SAckTimer), ACKED, h.(run := 1), 0, Some(0)).(timerPipe := 1),
       TimerHandler, OneThread(BY_SCHEDULER, Holding(SAckTimer), PARKED, h.(run := 1), 0, Some(0)).(timerPipe := 1));
    Go(OneThread(BY_SCHEDULER, Holding(SAckTimer), PARKED, h.(run := 1), 0, Some(0)).(timerPipe := 1),
       SchedulerRuns, OneThread(BY_SCHEDULER, Holding(SWaitSuspended), PARKED, h.(run := 1), 0, Some(0)));
  }

  /** The thread takes its run semaphore and answers. */
  lemma ThreadAnswersPost(h: ThreadProc)
    requires Waits(h)
    requires Reachable(OneThread(BY_SCHEDULER, Holding(SWaitSuspended), PARKED, h.(run := 1), 0, Some(0)))
    ensures Reachable(OneThread(BY_SCHEDULER, Holding(SWaitSuspended), PARKED, Answered(h), 1, Some(0)))
  {
    SingletonUpdate();
    Go(OneThread(BY_SCHEDULER, Holding(SWaitSuspended), PARKED, h.(run := 1), 0, Some(0)),
       ThreadRuns(0), OneThread(BY_SCHEDULER, Holding(SWaitSuspended), PARKED, Woken(h), 0, Some(0)));
    Go(OneThread(BY_SCHEDULER, Holding(SWaitSuspended), PARKED, Woken(h), 0, Some(0)),
       ThreadRuns(0), OneThread(BY_SCHEDULER, Holding(SWaitSuspended), PARKED, Answered(h), 1, Some(0)));
  }

  /** The scheduler takes the answer and resumes the timer. */
  lemma SchedulerResumes(h: ThreadProc)
    requires Waits(h)
    requires Reachable(OneThread(BY_SCHEDULER, Holding(SWaitSuspended), PARKED, Answered(h), 1, Some(0)))
    ensures Reachable(OneThread(BY_SCHEDULER, Holding(SUnlock), WAKING, Answered(h), 0, Some(0)))
  {
    Go(OneThread(BY_SCHEDULER, Holding(SWaitSuspended), PARKED, Answered(h), 1, Some(0)),
       SchedulerRuns, OneThread(BY_SCHEDULER, Holding(SResumeTimer), PARKED, Answered(h), 0, Some(0)));
    Go(OneThread(BY_SCHEDULER, Holding(SResumeTimer), PARKED, Answered(h), 0, Some(0)),
       SchedulerRuns, OneThread(BY_SCHEDULER, Holding(SUnlock), WAKING, Answered(h), 0, Some(0)));
  }

  /** The scheduler lets go and the timer leaves its handler. */
  lemma SchedulerLetsGo(h: ThreadProc)
    requires Waits(h)
    requires Reachable(OneThread(BY_SCHEDULER, Holding(SUnlock), WAKING, Answered(h), 0, Some(0)))
    ensures Reachable(OneThread(FREE, Outside(SWaitYield), QUIET, Answered(h), 0, Some(0)))
  {
    Go(OneThread(BY_SCHEDULER, Holding(SUnlock), WAKING, Answered(h), 0, Some(0)),
       SchedulerRuns, OneThread(FREE, Outside(SWaitYield), WAKING, Answered(h), 0, Some(0)));
    Go(OneThread(FREE, Outside(SWaitYield), WAKING, Answered(h), 0, Some(0)),
       TimerHandler, OneThread(FREE, Outside(SWaitYield), QUIET, Answered(h), 0, Some(0)));
  }

  lemma ThreadIsDispatched(h: ThreadProc)
    requires Waits(h) && Reachable(OneThread(FREE, Outside(SLock), QUIET, h, 0, None))
    ensures Reachable(OneThread(FREE, Outside(SWaitYield), QUIET, Answered(h), 0, Some(0)))
  {
    SchedulerChooses(h);
    SchedulerPosts(h);
    SchedulerSuspendsTimer(h);
    TimerAcknowledges(h);
    ThreadAnswersPost(h);
    SchedulerResumes(h);
    SchedulerLetsGo(h);
  }

  /** The thread disables interrupts. */
  lemma ThreadDisables()
    requires Reachable(OneThread(FREE, Outside(SWaitYield), QUIET, At(Running, 0, false), 0, Some(0)))
    ensures Reachable(OneThread(BY_THREAD, Outside(SWaitYield), QUIET, At(Running, 1, true), 0, Some(0)))
  {
    SingletonUpdate();
    Go(OneThread(FREE, Outside(SWaitYield), QUIET, At(Running, 0, false), 0, Some(0)),
       CallControl(0, Disable), OneThread(FREE, Outside(SWaitYield), QUIET, At(CtlLock(Disable), 0, false), 0,
         Some(0)));
    Go(OneThread(FREE, Outside(SWaitYield), QUIET, At(CtlLock(Disable), 0, false), 0, Some(0)),
       ThreadRuns(0), OneThread(BY_THREAD, Outside(SWaitYield), QUIET, At(CtlBody(Disable), 1, false), 0, Some(0)));
    Go(OneThread(BY_THREAD, Outside(SWaitYield), QUIET, At(CtlBody(Disable), 1, false), 0, Some(0)),
       ThreadRuns(0), OneThread(BY_THREAD, Outside(SWaitYield), QUIET, At(Running, 1, true), 0, Some(0)));
  }

  /** It calls system return with the mutex held, and takes it once more. */
  lemma ThreadEntersReturn()
    requires Reachable(OneThread(BY_THREAD, Outside(SWaitYield), QUIET, At(Running, 1, true), 0, Some(0)))
    ensures Reachable(OneThread(Mutex(Some(Thread(0)), 2), Outside(SWaitYield), QUIET, At(RetBody, 2, true), 0,
      Some(0)))
  {
    SingletonUpdate();
    Go(OneThread(BY_THREAD, Outside(SWaitYield), QUIET, At(Running, 1, true), 0, Some(0)),
       CallReturn(0), OneThread(BY_THREAD, Outside(SWaitYield), QUIET, At(RetLock, 1, true), 0, Some(0)));
    Go(OneThread(BY_THREAD, Outside(SWaitYield), QUIET, At(RetLock, 1, true), 0, Some(0)),
       ThreadRuns(0), OneThread(Mutex(Some(Thread(0)), 2), Outside(SWaitYield), QUIET, At(RetBody, 2, true), 0,
         Some(0)));
  }

  /** It gives up the processor and lets go of the mutex. */
  lemma ThreadGivesWay()
    requires Reachable(OneThread(Mutex(Some(Thread(0)), 2), Outside(SWaitYield), QUIET, At(RetBody, 2, true), 0,
      Some(0)))
    ensures Reachable(OneThread(FREE, Outside(SWaitYield), QUIET, At(RetPostLock, 0, true), 0, None))
  {
    SingletonUpdate();
    Go(OneThread(Mutex(Some(Thread(0)), 2), Outside(SWaitYield), QUIET, At(RetBody, 2, true), 0, Some(0)),
       ThreadRuns(0), OneThread(FREE, Outside(SWaitYield), QUIET, At(RetDrain, 0, true), 0, None));
    Go(OneThread(FREE, Outside(SWaitYield), QUIET, At(RetDrain, 0, true), 0, None),
       ThreadRuns(0), OneThread(FREE, Outside(SWaitYield), QUIET, At(RetPostLock, 0, true), 0, None));
  }

  /** It takes the mutex and posts. */
  lemma ThreadPostsYield()
    requires Reachable(OneThread(FREE, Outside(SWaitYield), QUIET, At(RetPostLock, 0, true), 0, None))
    ensures Reachable(OneThread(BY_THREAD, Outside(SWaitYield), QUIET, At(RetPostUnlock, 1, true), 1, None))
  {
    SingletonUpdate();
    Go(OneThread(FREE, Outside(SWaitYield), QUIET, At(RetPostLock, 0, true), 0, None),
       ThreadRuns(0), OneThread(BY_THREAD, Outside(SWaitYield), QUIET, At(RetPost, 1, true), 0, None));
    Go(OneThread(BY_THREAD, Outside(SWaitYield), QUIET, At(RetPost, 1, true), 0, None),
       ThreadRuns(0), OneThread(BY_THREAD, Outside(SWaitYield), QUIET, At(RetPostUnlock, 1, true), 1, None));
  }

  /** It lets go, and the scheduler takes the post. */
  lemma SchedulerTakesYield()
    requires Reachable(OneThread(BY_THREAD, Outside(SWaitYield), QUIET, At(RetPostUnlock, 1, true), 1, None))
    ensures Reachable(OneThread(FREE, Outside(SLock), QUIET, At(RetWait, 0, true), 0, None))
  {
    SingletonUpdate();
    Go(OneThread(BY_THREAD, Outside(SWaitYield), QUIET, At(RetPostUnlock, 1, true), 1, None),
       ThreadRuns(0), OneThread(FREE, Outside(SWaitYield), QUIET, At(RetWait, 0, true), 1, None));
    Go(OneThread(FREE, Outside(SWaitYield), QUIET, At(RetWait, 0, true), 1, None),
       SchedulerRuns, OneThread(FREE, Outside(SLock), QUIET, At(RetWait, 0, true), 0, None));
  }

  /** The state in which the timer, holding the mutex, looks at the current thread. */
  function TickBegins(): State {
    OneThread(BY_TIMER, Outside(SWaitYield), QUIET, At(RetRelock, 0, true), 0, Some(0)).(tmr := TimerProc(TSaveBody,
      1, QUIET))
  }

  lemma TimerWakes()
    requires Reachable(OneThread(FREE, Outside(SWaitYield), QUIET, At(RetRelock, 0, true), 0, Some(0)))
    ensures Reachable(TickBegins())
  {
    var s1 := OneThread(FREE, Outside(SWaitYield), QUIET, At(RetRelock, 0, true), 0, Some(0));
    var s2 := s1.(tmr := TimerProc(TSaveLock, 0, QUIET));
    Go(s1, WakeTimer, s2);
    Go(s2, TimerRuns, TickBegins());
  }

  lemma InitialState()
    ensures Reachable(OneThread(FREE, Outside(SLock), QUIET, At(EntryWait, 0, false), 0, None))
  {
    var s0 := OneThread(FREE, Outside(SLock), QUIET, At(EntryWait, 0, false), 0, None);
    assert Init(s0) && Run(s0, []) == Some(s0);
  }

  lemma TickSignalsFlagged()
    ensures var s := TickBegins();
      && ValidRef(s, s.current) && ValidRef(s, s.execute) && s.current == Some(0) && s.threads[0].intDisabled
      && var r := Next(s, TimerRuns);
         r.Some? && |r.value.threads| == 1 && r.value.threads[0].sig.suspendPending
  {
  }

  lemma FlaggedThreadCanBeStopped() returns (s: State)
    ensures Reachable(s) && s.tmr.pc.TSaveBody? && s.current.Some?
    ensures s.current.value < |s.threads| && s.threads[s.current.value].intDisabled
    ensures ValidRef(s, s.execute) && Next(s, TimerRuns).Some?
    ensures s.current.value < |Next(s, TimerRuns).value.threads|
    ensures Next(s, TimerRuns).value.threads[s.current.value].sig.suspendPending
  {
    InitialState();
    ThreadIsDispatched(At(EntryWait, 0, false));
    ThreadDisables();
    ThreadEntersReturn();
    ThreadGivesWay();
    ThreadPostsYield();
    SchedulerTakesYield();
    ThreadIsDispatched(At(RetWait, 0, true));
    TimerWakes();
    s := TickBegins();
    TickSignalsFlagged();
  }
}
