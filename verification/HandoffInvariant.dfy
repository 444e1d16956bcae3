/** The inductive invariant of the handoff protocol, and the proof that every
    event keeps it. */
module HandoffInvariant {
  import opened Wrappers
  import opened HandoffModel

  // ----- phases of a suspend / resume exchange with one pthread -----

  ghost predicate SigFree(g: Sig) {
    !g.suspendPending && !g.resumePending && g.handler.Out? && !g.suspended
  }

  ghost predicate InAckedHandler(g: Sig) {
    (g.handler.Acked? || g.handler.Parked?) && g.suspended == (g.handler.Parked?)
  }

  /** Acknowledged and not resumed: the pthread makes no step of its own. */
  ghost predicate SigStopped(g: Sig) {
    InAckedHandler(g) && !g.suspendPending && !g.resumePending
  }

  /** Resumed, but still on its way out of the handler. */
  ghost predicate SigWaking(g: Sig) {
    InAckedHandler(g) && !g.suspendPending && g.resumePending
  }

  ghost predicate SigGoing(g: Sig) {
    SigFree(g) || SigWaking(g)
  }

  ghost predicate SigRequested(g: Sig) {
    g.suspendPending && ((g.handler.Out? && !g.resumePending && !g.suspended) || (InAckedHandler(g) && g.resumePending))
  }

  ghost predicate SigAcking(g: Sig) {
    !g.suspendPending && !g.resumePending && g.handler.Acking? && !g.suspended
  }

  /** Between the suspend signal and the reader taking the acknowledge byte. */
  ghost predicate SuspendPhase(g: Sig, pipe: nat) {
    (pipe == 0 && (SigRequested(g) || SigAcking(g))) || (pipe == 1 && SigStopped(g))
  }

  // ----- regions of the program counters -----

  ghost predicate SchedulerHolds(pc: SchedulerPc) {
    !pc.SLock? && !pc.SSleep? && !pc.SWaitYield?
  }

  /** From the choice of a thread until the scheduler lets go of the mutex. */
  ghost predicate Dispatching(pc: SchedulerPc) {
    SchedulerHolds(pc) && !pc.STest?
  }

  /** The run semaphore of the chosen thread is posted and its answer not yet taken. */
  ghost predicate AwaitsAnswer(pc: SchedulerPc) {
    pc.SBranch? || pc.SWaitWaiting? || pc.SSuspendTimer? || pc.SAckTimer? || pc.SWaitSuspended?
  }

  ghost predicate InIsr(pc: TimerPc) {
    pc.TTickLock? || pc.TTick? || pc.TRestoreLock? || pc.TRestoreBody?
  }

  ghost predicate WaitingPc(pc: TimerPc) {
    pc.TPostSched? || pc.TChoose? || pc.TWaitIsr? || pc.TRelock? || pc.TDrainIsr? || pc.TClear?
  }

  /** After the timer preempted the current thread and before it posted for it. */
  ghost predicate TimerYields(pc: TimerPc) {
    pc.TDrainSched? || pc.TSetWaiting? || pc.TPostSched?
  }

  /** Asleep, or past the point of context restore where a tick looks at the
      execute pointer and gives up the processor. */
  ghost predicate AfterTick(pc: TimerPc) {
    pc.TSleep? || TimerYields(pc) || pc.TChoose? || AfterChoice(pc)
  }

  ghost predicate TimerIdle(pc: TimerPc) {
    pc.TSleep? || pc.TSaveLock?
  }

  /** A thread that has given up the processor and not yet posted for it. */
  ghost predicate Yielding(pc: ThreadPc) {
    pc.RetDrain? || pc.RetPostLock? || pc.RetPost?
  }

  ghost predicate AtRunWait(pc: ThreadPc) {
    pc.EntryWait? || pc.RetWait?
  }

  ghost predicate AtAnswer(pc: ThreadPc) {
    pc.EntryPost? || pc.RetRepost?
  }

  /** The handoff tail of a thread that is not current. */
  ghost predicate InTail(pc: ThreadPc) {
    AtRunWait(pc) || Yielding(pc) || pc.RetPostUnlock?
  }

  ghost predicate OnCpu(pc: ThreadPc) {
    pc.Running? || pc.CtlLock? || pc.CtlBody? || pc.RetLock? || pc.RetBody? || pc.RetRelock? || pc.RetCheck?
  }

  // ----- the invariant -----

  ghost predicate LocksMatchPc(h: ThreadProc) {
    if h.pc.Running? || h.pc.CtlLock? || h.pc.RetLock? then h.locks > 0 <==> h.intDisabled
    else if h.pc.CtlBody? || h.pc.RetBody? then h.locks > 0
    else if h.pc.RetPost? || h.pc.RetPostUnlock? || h.pc.RetCheck? then h.locks == 1
    else if h.pc.EntryWait? || h.pc.EntryPost? then h.locks == 0 && !h.intDisabled
    else !h.pc.Exited? && h.locks == 0
  }

  ghost predicate TimerLocksMatchPc(pc: TimerPc, locks: nat) {
    match pc
    case TSleep | TSaveLock | TTickLock | TWaitIsr | TRelock => locks == 0
    case TSaveBody | TSaveAck | TSaveMark => locks == 1
    case TRestoreLock => true
    case _ => locks > 0
  }

  ghost function LocksOf(m: Mutex, p: Proc): nat {
    if Owns(m, p) then m.depth else 0
  }

  ghost predicate MutexInv(s: State) {
    && (s.mutex.owner.Some? <==> s.mutex.depth > 0)
    && s.sch.locks == LocksOf(s.mutex, Scheduler)
    && s.sch.locks == (if SchedulerHolds(s.sch.pc) then 1 else 0)
    && s.tmr.locks == LocksOf(s.mutex, Timer)
    && TimerLocksMatchPc(s.tmr.pc, s.tmr.locks)
    && (s.mutex.owner.Some? && s.mutex.owner.value.Thread? ==>
          && s.mutex.owner.value.id < |s.threads|
          && (s.current.None? || IsCurrent(s, s.mutex.owner.value.id)))
  }

  ghost predicate TimerInv(s: State) {
    && s.systemState == (if InIsr(s.tmr.pc) then 1 else 0)
    && s.timerWaiting == WaitingPc(s.tmr.pc)
    && (s.isr > 0 ==> s.tmr.pc.TWaitIsr? || s.tmr.pc.TRelock? || s.tmr.pc.TDrainIsr?)
    && (TimerYields(s.tmr.pc) ==> s.sch.pc.SWaitYield? && s.current.None? && s.sem == 0)
    && (s.tmr.pc.TSaveAck? || s.tmr.pc.TSaveMark? ==> s.current.Some?)
    && (!s.tmr.pc.TSaveAck? ==> s.otherPipe == 0)
    && (!s.tmr.sig.handler.Out? ==> TimerIdle(s.tmr.pc))
    && (if s.sch.pc.SAckTimer? then SuspendPhase(s.tmr.sig, s.timerPipe)
        else if s.sch.pc.SWaitSuspended? || s.sch.pc.SResumeTimer? then SigStopped(s.tmr.sig) && s.timerPipe == 0
        else SigGoing(s.tmr.sig) && s.timerPipe == 0)
  }

  ghost predicate SchedulerInv(s: State) {
    && ValidRef(s, s.current) && ValidRef(s, s.execute)
    && (Dispatching(s.sch.pc) ==> s.systemState == 0)
    && (s.sch.pc.SDispatch? ==> s.execute.Some?)
    && (s.current.Some? ==> s.sch.pc.SWaitYield? || (Dispatching(s.sch.pc) && !s.sch.pc.SDispatch?))
    && (s.current.None? ==> !Dispatching(s.sch.pc) || s.sch.pc.SDispatch?)
    && s.sem <= 1
    && (s.sem == 1 ==> AwaitsAnswer(s.sch.pc) || (s.sch.pc.SWaitYield? && s.current.None?))
    && (s.sch.pc.SWaitWaiting? || s.sch.pc.SPostIsr? ==> s.timerWaiting)
    && (s.sch.pc.SSuspendTimer? || s.sch.pc.SAckTimer? || s.sch.pc.SWaitSuspended? || s.sch.pc.SResumeTimer?
        ==> TimerIdle(s.tmr.pc))
  }

  // ----- what the state expects of one thread -----

  /** How far the timer has got with stopping the current thread. */
  datatype Phase = Undisturbed | Suspending(pipe: nat) | Stopped | Interrupted

  /** NotCurrent(true) is the window in which somebody has given up the processor
      and the scheduler does not know it yet. Chosen and Posted lead a thread
      that waits on its run semaphore to Dispatched, Restarted one that a tick
      had stopped. */
  datatype Role =
    | NotCurrent(window: bool)
    | Chosen
    | Posted(answered: bool)
    | Restarted
    | Dispatched(phase: Phase)

  ghost predicate YieldWindow(s: State) {
    s.sch.pc.SWaitYield? && s.current.None? && s.sem == 0 && !TimerYields(s.tmr.pc)
  }

  ghost function PhaseOf(s: State): Phase {
    if s.tmr.pc.TSaveAck? then Suspending(s.otherPipe)
    else if s.tmr.pc.TSaveMark? then Stopped
    else if InIsr(s.tmr.pc) then Interrupted
    else Undisturbed
  }

  ghost function RoleOf(s: State, t: Tid): Role {
    if !IsCurrent(s, t) then NotCurrent(YieldWindow(s))
    else if s.sch.pc.SDrainRun? || s.sch.pc.SPostRun? then Chosen
    else if AwaitsAnswer(s.sch.pc) then Posted(s.sem == 1)
    else if s.sch.pc.SResume? then Restarted
    else Dispatched(PhaseOf(s))
  }

  ghost predicate PhaseInv(h: ThreadProc, p: Phase) {
    match p
    case Undisturbed => SigGoing(h.sig)
    case Suspending(pipe) => SuspendPhase(h.sig, pipe)
    case Stopped => SigStopped(h.sig)
    case Interrupted => SigStopped(h.sig) && h.suspension
  }

  ghost predicate RoleInv(h: ThreadProc, r: Role) {
    match r
    case NotCurrent(window) =>
      && h.run == 0
      && (if h.suspension then SigStopped(h.sig) && OnCpu(h.pc)
          else SigFree(h.sig) && InTail(h.pc) && (Yielding(h.pc) ==> window))
    case Chosen => !h.suspension && SigFree(h.sig) && AtRunWait(h.pc) && h.run == 0
    case Posted(answered) =>
      && !h.suspension && SigFree(h.sig)
      && (if answered then OnCpu(h.pc) && h.run == 0
          else (AtRunWait(h.pc) && h.run == 1) || (AtAnswer(h.pc) && h.run == 0))
    case Restarted => h.suspension && SigStopped(h.sig) && OnCpu(h.pc) && h.run == 0
    case Dispatched(p) => OnCpu(h.pc) && h.run == 0 && PhaseInv(h, p)
  }

  ghost predicate ThreadInv(s: State, t: Tid)
    requires t < |s.threads|
  {
    var h := s.threads[t];
    && h.locks == LocksOf(s.mutex, Thread(t))
    && LocksMatchPc(h)
    && (!h.sig.handler.Out? ==> h.locks == 0)
    && RoleInv(h, RoleOf(s, t))
  }

  ghost predicate ThreadInvAfter(s: State, r: Option<State>, t: Tid) {
    r.Some? ==> |r.value.threads| == |s.threads| && t < |s.threads| && ThreadInv(r.value, t)
  }

  ghost predicate OneYielder(s: State) {
    forall t, u | 0 <= t < |s.threads| && 0 <= u < |s.threads| ::
      Yielding(s.threads[t].pc) && Yielding(s.threads[u].pc) ==> t == u
  }

  ghost predicate GlobalInv(s: State) {
    MutexInv(s) && TimerInv(s) && SchedulerInv(s)
  }

  ghost predicate Inv(s: State) {
    && GlobalInv(s)
    && (forall t :: 0 <= t < |s.threads| ==> ThreadInv(s, t))
    && OneYielder(s)
  }

  lemma InitEstablishesInv(s: State)
    requires Init(s)
    ensures Inv(s)
  {
  }

  // ----- one step, seen from one thread -----

  /** The invariant of the state as a whole and of thread `m`. */
  ghost predicate View(s: State, m: Tid) {
    GlobalInv(s) && m < |s.threads| && ThreadInv(s, m)
  }

  /** The thread a scheduler or timer step is about, if there is one. */
  ghost function Mover(s: State): Option<Tid> {
    if s.current.Some? then s.current else s.execute
  }

  /** A step that leaves thread `u` and its role alone, or that opens the window
      or closes it while `u` is not yielding. */
  ghost predicate Framed(s: State, s1: State, u: Tid)
    requires u < |s.threads| && u < |s1.threads|
  {
    && s1.threads[u] == s.threads[u]
    && LocksOf(s1.mutex, Thread(u)) == LocksOf(s.mutex, Thread(u))
    && (|| RoleOf(s1, u) == RoleOf(s, u)
        || (RoleOf(s, u).NotCurrent? && RoleOf(s1, u).NotCurrent?
            && (RoleOf(s1, u).window || !Yielding(s.threads[u].pc))))
  }

  lemma FramedKeepsThread(s: State, s1: State, u: Tid)
    requires u < |s.threads| && u < |s1.threads|
    requires ThreadInv(s, u) && Framed(s, s1, u)
    ensures ThreadInv(s1, u)
  {
  }

  // ----- the scheduler keeps it -----

  lemma SchedulerPicksGlobal(s: State)
    requires GlobalInv(s) && (s.sch.pc.SLock? || s.sch.pc.STest? || s.sch.pc.SSleep? || s.sch.pc.SDispatch?)
    ensures SchedulerStep(s).Some? ==> GlobalInv(SchedulerStep(s).value)
  {
  }

  lemma SchedulerRestartsGlobal(s: State)
    requires GlobalInv(s) && (s.sch.pc.SResume? || s.sch.pc.SDrainRun?)
    requires s.sch.pc.SResume?
    ensures SchedulerStep(s).Some? ==> GlobalInv(SchedulerStep(s).value)
  {
  }

  lemma SchedulerDrainsGlobal(s: State)
    requires GlobalInv(s) && (s.sch.pc.SResume? || s.sch.pc.SDrainRun?)
    requires s.sch.pc.SDrainRun?
    ensures SchedulerStep(s).Some? ==> GlobalInv(SchedulerStep(s).value)
  {
  }

  lemma SchedulerResumesGlobal(s: State)
    requires GlobalInv(s) && (s.sch.pc.SResume? || s.sch.pc.SDrainRun?)
    ensures SchedulerStep(s).Some? ==> GlobalInv(SchedulerStep(s).value)
  {
    if s.sch.pc.SResume? {
      SchedulerRestartsGlobal(s);
    } else {
      SchedulerDrainsGlobal(s);
    }
  }

  lemma SchedulerPostsGlobal(s: State)
    requires GlobalInv(s) && (s.sch.pc.SPostRun? || s.sch.pc.SBranch?)
    ensures SchedulerStep(s).Some? ==> GlobalInv(SchedulerStep(s).value)
  {
  }

  lemma SchedulerMeetsTimerGlobal(s: State)
    requires GlobalInv(s) && (s.sch.pc.SWaitWaiting? || s.sch.pc.SPostIsr? || s.sch.pc.SUnlock? || s.sch.pc.SWaitYield?)
    ensures SchedulerStep(s).Some? ==> GlobalInv(SchedulerStep(s).value)
  {
  }

  lemma SchedulerStopsTimerGlobal(s: State)
    requires GlobalInv(s) && (s.sch.pc.SSuspendTimer? || s.sch.pc.SAckTimer? || s.sch.pc.SWaitSuspended?
      || s.sch.pc.SResumeTimer?)
    ensures SchedulerStep(s).Some? ==> GlobalInv(SchedulerStep(s).value)
  {
  }

  lemma SchedulerChoosesThread(s: State)
    requires Mover(s).Some? && View(s, Mover(s).value) && (s.sch.pc.SDispatch? || s.sch.pc.SResume?)
    ensures ThreadInvAfter(s, SchedulerStep(s), Mover(s).value)
  {
  }

  lemma SchedulerPostsThread(s: State)
    requires Mover(s).Some? && View(s, Mover(s).value) && (s.sch.pc.SDrainRun? || s.sch.pc.SPostRun?)
    ensures ThreadInvAfter(s, SchedulerStep(s), Mover(s).value)
  {
  }

  lemma SchedulerAnswersThread(s: State)
    requires Mover(s).Some? && View(s, Mover(s).value) && (s.sch.pc.SWaitWaiting? || s.sch.pc.SWaitSuspended?)
    ensures ThreadInvAfter(s, SchedulerStep(s), Mover(s).value)
  {
  }

  /** The steps that change the thread they are about. */
  ghost predicate SchedulerMoves(s: State) {
    s.sch.pc.SDispatch? || s.sch.pc.SResume? || s.sch.pc.SDrainRun? || s.sch.pc.SPostRun?
      || s.sch.pc.SWaitWaiting? || s.sch.pc.SWaitSuspended?
  }

  lemma SchedulerKeepsPcs(s: State, u: Tid)
    requires GlobalInv(s) && SchedulerStep(s).Some? && u < |s.threads|
    ensures |SchedulerStep(s).value.threads| == |s.threads|
    ensures SchedulerStep(s).value.threads[u].pc == s.threads[u].pc
  {
  }

  lemma SchedulerFramesChoice(s: State, u: Tid)
    requires GlobalInv(s) && SchedulerStep(s).Some? && u < |s.threads| && u < |SchedulerStep(s).value.threads|
    requires Picking(s.sch.pc)
    ensures !(SchedulerMoves(s) && Mover(s) == Some(u)) ==> Framed(s, SchedulerStep(s).value, u)
  {
  }

  lemma SchedulerFramesRendezvous(s: State, u: Tid)
    requires GlobalInv(s) && SchedulerStep(s).Some? && u < |s.threads| && u < |SchedulerStep(s).value.threads|
    requires Meeting(s.sch.pc)
    ensures !(SchedulerMoves(s) && Mover(s) == Some(u)) ==> Framed(s, SchedulerStep(s).value, u)
  {
  }

  lemma SchedulerFrames(s: State, u: Tid)
    requires GlobalInv(s) && SchedulerStep(s).Some? && u < |s.threads| && u < |SchedulerStep(s).value.threads|
    ensures !(SchedulerMoves(s) && Mover(s) == Some(u)) ==> Framed(s, SchedulerStep(s).value, u)
  {
    match s.sch.pc
    case SLock | STest | SSleep | SDispatch | SResume | SDrainRun | SPostRun | SBranch => SchedulerFramesChoice(s, u);
    case _ => SchedulerFramesRendezvous(s, u);
  }

  lemma SchedulerKeepsGlobal(s: State)
    requires GlobalInv(s) && SchedulerStep(s).Some? && (Mover(s).Some? ==> View(s, Mover(s).value))
    ensures GlobalInv(SchedulerStep(s).value)
  {
    match s.sch.pc
    case SLock | STest | SSleep | SDispatch => SchedulerPicksGlobal(s);
    case SResume | SDrainRun => SchedulerResumesGlobal(s);
    case SPostRun | SBranch => SchedulerPostsGlobal(s);
    case SWaitWaiting | SPostIsr | SUnlock | SWaitYield => SchedulerMeetsTimerGlobal(s);
    case SSuspendTimer | SAckTimer | SWaitSuspended | SResumeTimer => SchedulerStopsTimerGlobal(s);
  }

  lemma SchedulerKeepsThread(s: State, u: Tid)
    requires View(s, u) && SchedulerStep(s).Some?
    ensures |SchedulerStep(s).value.threads| == |s.threads| && ThreadInv(SchedulerStep(s).value, u)
    ensures SchedulerStep(s).value.threads[u].pc == s.threads[u].pc
  {
    SchedulerKeepsPcs(s, u);
    SchedulerFrames(s, u);
    if SchedulerMoves(s) && Mover(s) == Some(u) {
      if s.sch.pc.SDispatch? || s.sch.pc.SResume? {
        SchedulerChoosesThread(s);
      } else if s.sch.pc.SDrainRun? || s.sch.pc.SPostRun? {
        SchedulerPostsThread(s);
      } else {
        SchedulerAnswersThread(s);
      }
    } else {
      FramedKeepsThread(s, SchedulerStep(s).value, u);
    }
  }

  lemma SchedulerKeepsInv(s: State)
    requires Inv(s) && SchedulerStep(s).Some?
    ensures Inv(SchedulerStep(s).value)
  {
    var s1 := SchedulerStep(s).value;
    SchedulerKeepsGlobal(s);
    SchedulerKeepsRefs(s);
    forall u | 0 <= u < |s.threads| ensures ThreadInv(s1, u) && s1.threads[u].pc == s.threads[u].pc {
      SchedulerKeepsThread(s, u);
    }
  }

  // ----- the timer keeps it -----

  lemma TimerStartsSaveGlobal(s: State)
    requires GlobalInv(s) && (s.tmr.pc.TSleep? || s.tmr.pc.TSaveLock? || s.tmr.pc.TSaveBody? || s.tmr.pc.TSaveMark?)
    requires s.tmr.pc.TSleep? || s.tmr.pc.TSaveLock?
    ensures TimerStep(s).Some? ==> GlobalInv(TimerStep(s).value)
  {
  }

  lemma TimerSignalsThreadGlobal(s: State)
    requires GlobalInv(s) && (s.tmr.pc.TSleep? || s.tmr.pc.TSaveLock? || s.tmr.pc.TSaveBody? || s.tmr.pc.TSaveMark?)
    requires s.tmr.pc.TSaveBody? || s.tmr.pc.TSaveMark?
    requires s.tmr.pc.TSaveBody?
    requires s.current.Some?
    ensures TimerStep(s).Some? ==> GlobalInv(TimerStep(s).value)
  {
  }

  lemma TimerSkipsSignalGlobal(s: State)
    requires GlobalInv(s) && (s.tmr.pc.TSleep? || s.tmr.pc.TSaveLock? || s.tmr.pc.TSaveBody? || s.tmr.pc.TSaveMark?)
    requires s.tmr.pc.TSaveBody? || s.tmr.pc.TSaveMark?
    requires s.tmr.pc.TSaveBody?
    requires s.current.None?
    ensures TimerStep(s).Some? ==> GlobalInv(TimerStep(s).value)
  {
  }

  lemma TimerSignalsGlobal(s: State)
    requires GlobalInv(s) && (s.tmr.pc.TSleep? || s.tmr.pc.TSaveLock? || s.tmr.pc.TSaveBody? || s.tmr.pc.TSaveMark?)
    requires s.tmr.pc.TSaveBody? || s.tmr.pc.TSaveMark?
    requires s.tmr.pc.TSaveBody?
    ensures TimerStep(s).Some? ==> GlobalInv(TimerStep(s).value)
  {
    if s.current.Some? {
      TimerSignalsThreadGlobal(s);
    } else {
      TimerSkipsSignalGlobal(s);
    }
  }

  lemma TimerMarksGlobal(s: State)
    requires GlobalInv(s) && (s.tmr.pc.TSleep? || s.tmr.pc.TSaveLock? || s.tmr.pc.TSaveBody? || s.tmr.pc.TSaveMark?)
    requires s.tmr.pc.TSaveBody? || s.tmr.pc.TSaveMark?
    requires s.tmr.pc.TSaveMark?
    ensures TimerStep(s).Some? ==> GlobalInv(TimerStep(s).value)
  {
  }

  lemma TimerSavesThreadGlobal(s: State)
    requires GlobalInv(s) && (s.tmr.pc.TSleep? || s.tmr.pc.TSaveLock? || s.tmr.pc.TSaveBody? || s.tmr.pc.TSaveMark?)
    requires s.tmr.pc.TSaveBody? || s.tmr.pc.TSaveMark?
    ensures TimerStep(s).Some? ==> GlobalInv(TimerStep(s).value)
  {
    if s.tmr.pc.TSaveBody? {
      TimerSignalsGlobal(s);
    } else {
      TimerMarksGlobal(s);
    }
  }

  lemma TimerSavesGlobal(s: State)
    requires GlobalInv(s) && (s.tmr.pc.TSleep? || s.tmr.pc.TSaveLock? || s.tmr.pc.TSaveBody? || s.tmr.pc.TSaveMark?)
    ensures TimerStep(s).Some? ==> GlobalInv(TimerStep(s).value)
  {
    if s.tmr.pc.TSleep? || s.tmr.pc.TSaveLock? {
      TimerStartsSaveGlobal(s);
    } else {
      TimerSavesThreadGlobal(s);
    }
  }

  lemma TimerAckGlobal(s: State)
    requires GlobalInv(s) && (s.tmr.pc.TSaveAck?)
    requires Mover(s).Some? ==> View(s, Mover(s).value)
    ensures TimerStep(s).Some? ==> GlobalInv(TimerStep(s).value)
  {
  }

  lemma TimerTicksGlobal(s: State)
    requires GlobalInv(s) && (s.tmr.pc.TTickLock? || s.tmr.pc.TTick? || s.tmr.pc.TRestoreLock?)
    ensures TimerStep(s).Some? ==> GlobalInv(TimerStep(s).value)
  {
  }

  lemma TimerPreemptsGlobal(s: State)
    requires GlobalInv(s) && (s.tmr.pc.TRestoreBody?)
    requires s.current.Some? && Preempts(s)
    ensures TimerStep(s).Some? ==> GlobalInv(TimerStep(s).value)
  {
  }

  lemma TimerReturnsGlobal(s: State)
    requires GlobalInv(s) && (s.tmr.pc.TRestoreBody?)
    requires !(s.current.Some? && Preempts(s))
    ensures TimerStep(s).Some? ==> GlobalInv(TimerStep(s).value)
  {
  }

  lemma TimerRestoresGlobal(s: State)
    requires GlobalInv(s) && (s.tmr.pc.TRestoreBody?)
    ensures TimerStep(s).Some? ==> GlobalInv(TimerStep(s).value)
  {
    if s.current.Some? && Preempts(s) {
      TimerPreemptsGlobal(s);
    } else {
      TimerReturnsGlobal(s);
    }
  }

  lemma TimerYieldsGlobal(s: State)
    requires GlobalInv(s) && (s.tmr.pc.TDrainSched? || s.tmr.pc.TSetWaiting? || s.tmr.pc.TPostSched?)
    ensures TimerStep(s).Some? ==> GlobalInv(TimerStep(s).value)
  {
  }

  lemma TimerGoesToWaitGlobal(s: State)
    requires GlobalInv(s) && (s.tmr.pc.TChoose?)
    requires s.execute.Some? && !s.threads[s.execute.value].suspension
    ensures TimerStep(s).Some? ==> GlobalInv(TimerStep(s).value)
  {
  }

  lemma TimerSkipsWaitGlobal(s: State)
    requires GlobalInv(s) && (s.tmr.pc.TChoose?)
    requires !(s.execute.Some? && !s.threads[s.execute.value].suspension)
    ensures TimerStep(s).Some? ==> GlobalInv(TimerStep(s).value)
  {
  }

  lemma TimerChoosesGlobal(s: State)
    requires GlobalInv(s) && (s.tmr.pc.TChoose?)
    ensures TimerStep(s).Some? ==> GlobalInv(TimerStep(s).value)
  {
    if s.execute.Some? && !s.threads[s.execute.value].suspension {
      TimerGoesToWaitGlobal(s);
    } else {
      TimerSkipsWaitGlobal(s);
    }
  }

  lemma TimerAwaitsGlobal(s: State)
    requires GlobalInv(s) && (s.tmr.pc.TWaitIsr? || s.tmr.pc.TRelock?)
    requires s.tmr.pc.TWaitIsr?
    ensures TimerStep(s).Some? ==> GlobalInv(TimerStep(s).value)
  {
  }

  lemma TimerRelocksGlobal(s: State)
    requires GlobalInv(s) && (s.tmr.pc.TWaitIsr? || s.tmr.pc.TRelock?)
    requires s.tmr.pc.TRelock?
    ensures TimerStep(s).Some? ==> GlobalInv(TimerStep(s).value)
  {
  }

  lemma TimerWaitsGlobal(s: State)
    requires GlobalInv(s) && (s.tmr.pc.TWaitIsr? || s.tmr.pc.TRelock?)
    ensures TimerStep(s).Some? ==> GlobalInv(TimerStep(s).value)
  {
    if s.tmr.pc.TWaitIsr? {
      TimerAwaitsGlobal(s);
    } else {
      TimerRelocksGlobal(s);
    }
  }

  lemma TimerDrainsGlobal(s: State)
    requires GlobalInv(s) && (s.tmr.pc.TDrainIsr?)
    ensures TimerStep(s).Some? ==> GlobalInv(TimerStep(s).value)
  {
  }

  lemma TimerLeavesGlobal(s: State)
    requires GlobalInv(s) && (s.tmr.pc.TClear? || s.tmr.pc.TUnlock?)
    ensures TimerStep(s).Some? ==> GlobalInv(TimerStep(s).value)
  {
  }

  lemma TimerStopsThread(s: State)
    requires Mover(s).Some? && View(s, Mover(s).value) && s.tmr.pc.TSaveBody?
    requires s.current.Some?
    ensures TimerStep(s).Some? && |TimerStep(s).value.threads| == |s.threads|
      && ThreadInv(TimerStep(s).value, Mover(s).value)
  {
    var t := s.current.value;
    assert RoleOf(s, t) == Dispatched(Undisturbed) by { assert s.sch.pc.SWaitYield?; }
    assert SigRequested(s.threads[t].sig.(suspendPending := true));
    var s1 := TimerStep(s).value;
    assert s1.tmr.pc.TSaveAck? && s1.threads[t] == s.threads[t].(sig := s.threads[t].sig.(suspendPending := true));
  }

  lemma TimerAcksThread(s: State)
    requires Mover(s).Some? && View(s, Mover(s).value) && (s.tmr.pc.TSaveAck? || s.tmr.pc.TSaveMark?)
    requires s.current.Some?
    requires s.tmr.pc.TSaveAck?
    ensures ThreadInvAfter(s, TimerStep(s), Mover(s).value)
  {
  }

  lemma TimerFlagsThread(s: State)
    requires Mover(s).Some? && View(s, Mover(s).value) && (s.tmr.pc.TSaveAck? || s.tmr.pc.TSaveMark?)
    requires s.current.Some?
    requires s.tmr.pc.TSaveMark?
    ensures ThreadInvAfter(s, TimerStep(s), Mover(s).value)
  {
  }

  lemma TimerMarksThread(s: State)
    requires Mover(s).Some? && View(s, Mover(s).value) && (s.tmr.pc.TSaveAck? || s.tmr.pc.TSaveMark?)
    requires s.current.Some?
    ensures ThreadInvAfter(s, TimerStep(s), Mover(s).value)
  {
    if s.tmr.pc.TSaveAck? {
      TimerAcksThread(s);
    } else {
      TimerFlagsThread(s);
    }
  }

  lemma TimerPreemptsThread(s: State)
    requires Mover(s).Some? && View(s, Mover(s).value) && (s.tmr.pc.TRestoreBody?)
    requires s.current.Some?
    requires s.current.Some? && Preempts(s)
    ensures ThreadInvAfter(s, TimerStep(s), Mover(s).value)
  {
    var t := s.current.value;
    assert RoleOf(s, t) == Dispatched(Interrupted);
  }

  lemma TimerReturnsThread(s: State)
    requires Mover(s).Some? && View(s, Mover(s).value) && (s.tmr.pc.TRestoreBody?)
    requires s.current.Some?
    requires !(s.current.Some? && Preempts(s))
    ensures ThreadInvAfter(s, TimerStep(s), Mover(s).value)
  {
    var t := s.current.value;
    var g := s.threads[t].sig.(resumePending := true);
    assert RoleOf(s, t) == Dispatched(Interrupted);
    assert TimerStep(s) == Some(TimerGoto(SetSig(s.(systemState := 0), t, g), TUnlock));
    assert SigWaking(g);
  }

  lemma TimerRestoresThread(s: State)
    requires Mover(s).Some? && View(s, Mover(s).value) && (s.tmr.pc.TRestoreBody?)
    requires s.current.Some?
    ensures ThreadInvAfter(s, TimerStep(s), Mover(s).value)
  {
    if s.current.Some? && Preempts(s) {
      TimerPreemptsThread(s);
    } else {
      TimerReturnsThread(s);
    }
  }

  /** The steps that change the thread they are about. */
  ghost predicate TimerMoves(s: State) {
    s.current.Some? && (s.tmr.pc.TSaveBody? || s.tmr.pc.TSaveAck? || s.tmr.pc.TSaveMark? || s.tmr.pc.TRestoreBody?)
  }

  lemma TimerKeepsPcs(s: State, u: Tid)
    requires GlobalInv(s) && TimerStep(s).Some? && u < |s.threads|
    ensures |TimerStep(s).value.threads| == |s.threads|
    ensures TimerStep(s).value.threads[u].pc == s.threads[u].pc
  {
  }

  lemma TimerFramesEntry(s: State, u: Tid)
    requires GlobalInv(s) && TimerStep(s).Some? && u < |s.threads| && u < |TimerStep(s).value.threads|
    requires s.tmr.pc.TSleep? || s.tmr.pc.TSaveLock? || s.tmr.pc.TSaveBody? || s.tmr.pc.TSaveAck?
      || s.tmr.pc.TSaveMark? || s.tmr.pc.TTickLock? || s.tmr.pc.TTick?
    ensures !(TimerMoves(s) && Mover(s) == Some(u)) ==> Framed(s, TimerStep(s).value, u)
  {
  }

  lemma TimerFramesRestore(s: State, u: Tid)
    requires GlobalInv(s) && TimerStep(s).Some? && u < |s.threads| && u < |TimerStep(s).value.threads|
    requires s.tmr.pc.TRestoreLock? || s.tmr.pc.TRestoreBody? || s.tmr.pc.TDrainSched? || s.tmr.pc.TSetWaiting?
      || s.tmr.pc.TPostSched?
    ensures !(TimerMoves(s) && Mover(s) == Some(u)) ==> Framed(s, TimerStep(s).value, u)
  {
  }

  lemma TimerFramesChoice(s: State, u: Tid)
    requires GlobalInv(s) && TimerStep(s).Some? && u < |s.threads| && u < |TimerStep(s).value.threads|
    requires s.tmr.pc.TChoose? || AfterChoice(s.tmr.pc)
    requires s.tmr.pc.TChoose? || s.tmr.pc.TWaitIsr? || s.tmr.pc.TRelock?
    ensures !(TimerMoves(s) && Mover(s) == Some(u)) ==> Framed(s, TimerStep(s).value, u)
  {
  }

  lemma TimerFramesEnd(s: State, u: Tid)
    requires GlobalInv(s) && TimerStep(s).Some? && u < |s.threads| && u < |TimerStep(s).value.threads|
    requires s.tmr.pc.TChoose? || AfterChoice(s.tmr.pc)
    requires s.tmr.pc.TDrainIsr? || s.tmr.pc.TClear? || s.tmr.pc.TUnlock?
    ensures !(TimerMoves(s) && Mover(s) == Some(u)) ==> Framed(s, TimerStep(s).value, u)
  {
  }

  lemma TimerFramesWait(s: State, u: Tid)
    requires GlobalInv(s) && TimerStep(s).Some? && u < |s.threads| && u < |TimerStep(s).value.threads|
    requires s.tmr.pc.TChoose? || AfterChoice(s.tmr.pc)
    ensures !(TimerMoves(s) && Mover(s) == Some(u)) ==> Framed(s, TimerStep(s).value, u)
  {
    if s.tmr.pc.TChoose? || s.tmr.pc.TWaitIsr? || s.tmr.pc.TRelock? {
      TimerFramesChoice(s, u);
    } else {
      TimerFramesEnd(s, u);
    }
  }

  lemma TimerFrames(s: State, u: Tid)
    requires GlobalInv(s) && TimerStep(s).Some? && u < |s.threads| && u < |TimerStep(s).value.threads|
    ensures !(TimerMoves(s) && Mover(s) == Some(u)) ==> Framed(s, TimerStep(s).value, u)
  {
    match s.tmr.pc
    case TSleep | TSaveLock | TSaveBody | TSaveAck | TSaveMark | TTickLock | TTick => TimerFramesEntry(s, u);
    case TRestoreLock | TRestoreBody | TDrainSched | TSetWaiting | TPostSched => TimerFramesRestore(s, u);
    case TChoose | TWaitIsr | TRelock | TDrainIsr | TClear | TUnlock => TimerFramesWait(s, u);
  }

  lemma TimerKeepsGlobal(s: State)
    requires GlobalInv(s) && TimerStep(s).Some? && (Mover(s).Some? ==> View(s, Mover(s).value))
    ensures GlobalInv(TimerStep(s).value)
  {
    match s.tmr.pc
    case TSleep | TSaveLock | TSaveBody | TSaveMark => TimerSavesGlobal(s);
    case TSaveAck => TimerAckGlobal(s);
    case TTickLock | TTick | TRestoreLock => TimerTicksGlobal(s);
    case TRestoreBody => TimerRestoresGlobal(s);
    case TDrainSched | TSetWaiting | TPostSched => TimerYieldsGlobal(s);
    case TChoose => TimerChoosesGlobal(s);
    case TWaitIsr | TRelock => TimerWaitsGlobal(s);
    case TDrainIsr => TimerDrainsGlobal(s);
    case TClear | TUnlock => TimerLeavesGlobal(s);
  }

  lemma TimerKeepsThread(s: State, u: Tid)
    requires View(s, u) && TimerStep(s).Some?
    ensures |TimerStep(s).value.threads| == |s.threads| && ThreadInv(TimerStep(s).value, u)
    ensures TimerStep(s).value.threads[u].pc == s.threads[u].pc
  {
    TimerKeepsPcs(s, u);
    TimerFrames(s, u);
    if TimerMoves(s) && Mover(s) == Some(u) {
      if s.tmr.pc.TSaveBody? {
        TimerStopsThread(s);
      } else if s.tmr.pc.TSaveAck? || s.tmr.pc.TSaveMark? {
        TimerMarksThread(s);
      } else {
        TimerRestoresThread(s);
      }
    } else {
      FramedKeepsThread(s, TimerStep(s).value, u);
    }
  }

  lemma TimerKeepsInv(s: State)
    requires Inv(s) && TimerStep(s).Some?
    ensures Inv(TimerStep(s).value)
  {
    var s1 := TimerStep(s).value;
    TimerKeepsGlobal(s);
    TimerKeepsRefs(s);
    forall u | 0 <= u < |s.threads| ensures ThreadInv(s1, u) && s1.threads[u].pc == s.threads[u].pc {
      TimerKeepsThread(s, u);
    }
  }

  // ----- a thread keeps it -----

  lemma ThreadWakesFirstGlobal(s: State, t: Tid, s1: State)
    requires View(s, t) && s.threads[t].sig.handler.Out? && EntryStep(s, t) == Some(s1)
    requires s.threads[t].pc.EntryWait?
    ensures GlobalInv(s1)
  {
  }

  lemma ThreadWakesAgainGlobal(s: State, t: Tid, s1: State)
    requires View(s, t) && s.threads[t].sig.handler.Out? && ReenterStep(s, t) == Some(s1)
    requires s.threads[t].pc.RetWait?
    ensures GlobalInv(s1)
  {
  }

  lemma ThreadAnswersFirstGlobal(s: State, t: Tid, s1: State)
    requires View(s, t) && s.threads[t].sig.handler.Out? && EntryStep(s, t) == Some(s1)
    requires s.threads[t].pc.EntryPost?
    ensures GlobalInv(s1)
  {
  }

  lemma ThreadAnswersAgainGlobal(s: State, t: Tid, s1: State)
    requires View(s, t) && s.threads[t].sig.handler.Out? && ReenterStep(s, t) == Some(s1)
    requires s.threads[t].pc.RetRepost?
    ensures GlobalInv(s1)
  {
  }

  lemma ThreadEntersControlGlobal(s: State, t: Tid, s1: State)
    requires View(s, t) && s.threads[t].sig.handler.Out? && ControlStep(s, t) == Some(s1)
    requires s.threads[t].pc.CtlLock?
    ensures GlobalInv(s1)
  {
  }

  lemma ThreadDisablesGlobal(s: State, t: Tid, s1: State)
    requires View(s, t) && s.threads[t].sig.handler.Out? && ControlStep(s, t) == Some(s1)
    requires s.threads[t].pc.CtlBody? && s.threads[t].pc.posture.Disable?
    ensures GlobalInv(s1)
  {
  }

  /** Interrupt control that enables frees the mutex, however often it was taken. */
  lemma EnableFrees(s: State, t: Tid, s1: State)
    requires View(s, t) && s.threads[t].sig.handler.Out? && ControlStep(s, t) == Some(s1)
    requires s.threads[t].pc.CtlBody? && s.threads[t].pc.posture.Enable?
    ensures IsCurrent(s, t) && s.systemState == 0 && s.mutex == Mutex(Some(Thread(t)), s.threads[t].locks)
    ensures var h := s.threads[t].(pc := Running, locks := 0, intDisabled := false);
      s1 == SetThread(s, t, h).(mutex := Mutex(None, 0))
  {
    assert IsCurrent(s, t) && s.systemState == 0;
  }

  lemma ThreadEnablesGlobal(s: State, t: Tid, s1: State)
    requires View(s, t) && s.threads[t].sig.handler.Out? && ControlStep(s, t) == Some(s1)
    requires s.threads[t].pc.CtlBody? && s.threads[t].pc.posture.Enable?
    ensures GlobalInv(s1)
  {
    EnableFrees(s, t, s1);
  }

  lemma ThreadControlsGlobal(s: State, t: Tid, s1: State)
    requires View(s, t) && s.threads[t].sig.handler.Out? && ControlStep(s, t) == Some(s1) && s.threads[t].pc.CtlBody?
    ensures GlobalInv(s1)
  {
    if s.threads[t].pc.posture.Disable? {
      ThreadDisablesGlobal(s, t, s1);
    } else {
      ThreadEnablesGlobal(s, t, s1);
    }
  }

  lemma ThreadEntersReturnGlobal(s: State, t: Tid, s1: State)
    requires View(s, t) && s.threads[t].sig.handler.Out? && YieldStep(s, t) == Some(s1)
    requires s.threads[t].pc.RetLock?
    ensures GlobalInv(s1)
  {
  }

  lemma ThreadGivesUpGlobal(s: State, t: Tid, s1: State)
    requires View(s, t) && s.threads[t].sig.handler.Out? && YieldStep(s, t) == Some(s1) && s.threads[t].pc.RetBody?
    ensures GlobalInv(s1)
  {
    assert IsCurrent(s, t);
  }

  lemma ThreadDrainsGlobal(s: State, t: Tid, s1: State)
    requires View(s, t) && s.threads[t].sig.handler.Out? && YieldStep(s, t) == Some(s1)
    requires s.threads[t].pc.RetDrain?
    ensures GlobalInv(s1)
  {
    assert YieldWindow(s);
    assert s1 == ThreadGoto(s, t, RetPostLock);
  }

  lemma ThreadLocksToPostGlobal(s: State, t: Tid, s1: State)
    requires View(s, t) && s.threads[t].sig.handler.Out? && YieldStep(s, t) == Some(s1)
    requires s.threads[t].pc.RetPostLock?
    ensures GlobalInv(s1)
  {
  }

  lemma ThreadPostsGlobal(s: State, t: Tid, s1: State)
    requires View(s, t) && s.threads[t].sig.handler.Out? && YieldStep(s, t) == Some(s1)
    requires s.threads[t].pc.RetPost? || s.threads[t].pc.RetPostUnlock?
    ensures GlobalInv(s1)
  {
  }

  lemma ThreadRelocksGlobal(s: State, t: Tid, s1: State)
    requires View(s, t) && s.threads[t].sig.handler.Out? && ReenterStep(s, t) == Some(s1)
    requires s.threads[t].pc.RetRelock?
    ensures GlobalInv(s1)
  {
  }

  lemma ThreadReturnsGlobal(s: State, t: Tid, s1: State)
    requires View(s, t) && s.threads[t].sig.handler.Out? && ReenterStep(s, t) == Some(s1)
    requires s.threads[t].pc.RetCheck?
    ensures GlobalInv(s1)
  {
  }

  lemma ThreadWakesFirstItself(s: State, t: Tid, s1: State)
    requires View(s, t) && s.threads[t].sig.handler.Out? && EntryStep(s, t) == Some(s1)
    requires s.threads[t].pc.EntryWait?
    ensures |s1.threads| == |s.threads| && ThreadInv(s1, t)
  {
  }

  lemma ThreadWakesAgainItself(s: State, t: Tid, s1: State)
    requires View(s, t) && s.threads[t].sig.handler.Out? && ReenterStep(s, t) == Some(s1)
    requires s.threads[t].pc.RetWait?
    ensures |s1.threads| == |s.threads| && ThreadInv(s1, t)
  {
  }

  lemma ThreadAnswersFirstItself(s: State, t: Tid, s1: State)
    requires View(s, t) && s.threads[t].sig.handler.Out? && EntryStep(s, t) == Some(s1)
    requires s.threads[t].pc.EntryPost?
    ensures |s1.threads| == |s.threads| && ThreadInv(s1, t)
  {
  }

  lemma ThreadAnswersAgainItself(s: State, t: Tid, s1: State)
    requires View(s, t) && s.threads[t].sig.handler.Out? && ReenterStep(s, t) == Some(s1)
    requires s.threads[t].pc.RetRepost?
    ensures |s1.threads| == |s.threads| && ThreadInv(s1, t)
  {
  }

  lemma ThreadEntersControlItself(s: State, t: Tid, s1: State)
    requires View(s, t) && s.threads[t].sig.handler.Out? && ControlStep(s, t) == Some(s1) && s.threads[t].pc.CtlLock?
    ensures |s1.threads| == |s.threads| && ThreadInv(s1, t)
  {
    assert IsCurrent(s, t);
  }

  lemma ThreadDisablesItself(s: State, t: Tid, s1: State)
    requires View(s, t) && s.threads[t].sig.handler.Out? && ControlStep(s, t) == Some(s1)
    requires s.threads[t].pc.CtlBody? && s.threads[t].pc.posture.Disable?
    ensures |s1.threads| == |s.threads| && ThreadInv(s1, t)
  {
  }

  lemma ThreadEnablesItself(s: State, t: Tid, s1: State)
    requires View(s, t) && s.threads[t].sig.handler.Out? && ControlStep(s, t) == Some(s1)
    requires s.threads[t].pc.CtlBody? && s.threads[t].pc.posture.Enable?
    ensures |s1.threads| == |s.threads| && ThreadInv(s1, t)
  {
    EnableFrees(s, t, s1);
  }

  lemma ThreadControlsItself(s: State, t: Tid, s1: State)
    requires View(s, t) && s.threads[t].sig.handler.Out? && ControlStep(s, t) == Some(s1) && s.threads[t].pc.CtlBody?
    ensures |s1.threads| == |s.threads| && ThreadInv(s1, t)
  {
    if s.threads[t].pc.posture.Disable? {
      ThreadDisablesItself(s, t, s1);
    } else {
      ThreadEnablesItself(s, t, s1);
    }
  }

  lemma ThreadEntersReturnItself(s: State, t: Tid, s1: State)
    requires View(s, t) && s.threads[t].sig.handler.Out? && YieldStep(s, t) == Some(s1)
    requires s.threads[t].pc.RetLock?
    ensures |s1.threads| == |s.threads| && ThreadInv(s1, t)
  {
  }

  lemma ThreadGivesUpItself(s: State, t: Tid, s1: State)
    requires View(s, t) && s.threads[t].sig.handler.Out? && YieldStep(s, t) == Some(s1) && s.threads[t].pc.RetBody?
    ensures |s1.threads| == |s.threads| && ThreadInv(s1, t)
  {
    assert IsCurrent(s, t);
  }

  lemma ThreadDrainsItself(s: State, t: Tid, s1: State)
    requires View(s, t) && s.threads[t].sig.handler.Out? && YieldStep(s, t) == Some(s1)
    requires s.threads[t].pc.RetDrain?
    ensures |s1.threads| == |s.threads| && ThreadInv(s1, t)
  {
  }

  lemma ThreadLocksToPostItself(s: State, t: Tid, s1: State)
    requires View(s, t) && s.threads[t].sig.handler.Out? && YieldStep(s, t) == Some(s1)
    requires s.threads[t].pc.RetPostLock?
    ensures |s1.threads| == |s.threads| && ThreadInv(s1, t)
  {
  }

  lemma ThreadPostsItself(s: State, t: Tid, s1: State)
    requires View(s, t) && s.threads[t].sig.handler.Out? && YieldStep(s, t) == Some(s1)
    requires s.threads[t].pc.RetPost? || s.threads[t].pc.RetPostUnlock?
    ensures |s1.threads| == |s.threads| && ThreadInv(s1, t)
  {
  }

  lemma ThreadRelocksItself(s: State, t: Tid, s1: State)
    requires View(s, t) && s.threads[t].sig.handler.Out? && ReenterStep(s, t) == Some(s1)
    requires s.threads[t].pc.RetRelock?
    ensures |s1.threads| == |s.threads| && ThreadInv(s1, t)
  {
  }

  lemma ThreadReturnsItself(s: State, t: Tid, s1: State)
    requires View(s, t) && s.threads[t].sig.handler.Out? && ReenterStep(s, t) == Some(s1)
    requires s.threads[t].pc.RetCheck?
    ensures |s1.threads| == |s.threads| && ThreadInv(s1, t)
  {
  }

  lemma ThreadKeepsItself(s: State, t: Tid)
    requires View(s, t) && ThreadStep(s, t).Some?
    ensures View(ThreadStep(s, t).value, t)
  {
    var s1 := ThreadStep(s, t).value;
    match s.threads[t].pc
    case EntryWait => ThreadWakesFirstGlobal(s, t, s1); ThreadWakesFirstItself(s, t, s1);
    case RetWait => ThreadWakesAgainGlobal(s, t, s1); ThreadWakesAgainItself(s, t, s1);
    case EntryPost => ThreadAnswersFirstGlobal(s, t, s1); ThreadAnswersFirstItself(s, t, s1);
    case RetRepost => ThreadAnswersAgainGlobal(s, t, s1); ThreadAnswersAgainItself(s, t, s1);
    case CtlLock(_) => ThreadEntersControlGlobal(s, t, s1); ThreadEntersControlItself(s, t, s1);
    case CtlBody(_) => ThreadControlsGlobal(s, t, s1); ThreadControlsItself(s, t, s1);
    case RetLock => ThreadEntersReturnGlobal(s, t, s1); ThreadEntersReturnItself(s, t, s1);
    case RetBody => ThreadGivesUpGlobal(s, t, s1); ThreadGivesUpItself(s, t, s1);
    case RetDrain => ThreadDrainsGlobal(s, t, s1); ThreadDrainsItself(s, t, s1);
    case RetPostLock => ThreadLocksToPostGlobal(s, t, s1); ThreadLocksToPostItself(s, t, s1);
    case RetPost | RetPostUnlock => ThreadPostsGlobal(s, t, s1); ThreadPostsItself(s, t, s1);
    case RetRelock => ThreadRelocksGlobal(s, t, s1); ThreadRelocksItself(s, t, s1);
    case RetCheck => ThreadReturnsGlobal(s, t, s1); ThreadReturnsItself(s, t, s1);
    case Running | Exited =>
  }

  lemma ThreadFramesWake(s: State, t: Tid, u: Tid)
    requires View(s, t) && ThreadStep(s, t).Some? && u < |s.threads| && u != t
    requires Yielding(s.threads[t].pc) ==> !Yielding(s.threads[u].pc)
    requires s.threads[t].pc.EntryWait? || s.threads[t].pc.RetWait? || s.threads[t].pc.EntryPost?
      || s.threads[t].pc.RetRepost?
    ensures |ThreadStep(s, t).value.threads| == |s.threads| && Framed(s, ThreadStep(s, t).value, u)
  {
  }

  lemma ThreadFramesEntry(s: State, t: Tid, u: Tid)
    requires View(s, t) && ThreadStep(s, t).Some? && u < |s.threads| && u != t
    requires Yielding(s.threads[t].pc) ==> !Yielding(s.threads[u].pc)
    requires s.threads[t].pc.CtlLock? || s.threads[t].pc.CtlBody? || s.threads[t].pc.RetLock?
    ensures |ThreadStep(s, t).value.threads| == |s.threads| && Framed(s, ThreadStep(s, t).value, u)
  {
  }

  lemma ThreadFramesYield(s: State, t: Tid, u: Tid)
    requires View(s, t) && ThreadStep(s, t).Some? && u < |s.threads| && u != t
    requires Yielding(s.threads[t].pc) ==> !Yielding(s.threads[u].pc)
    requires s.threads[t].pc.RetBody? || s.threads[t].pc.RetDrain? || s.threads[t].pc.RetPostLock?
    ensures |ThreadStep(s, t).value.threads| == |s.threads| && Framed(s, ThreadStep(s, t).value, u)
  {
  }

  lemma ThreadFramesReentry(s: State, t: Tid, u: Tid)
    requires View(s, t) && ThreadStep(s, t).Some? && u < |s.threads| && u != t
    requires Yielding(s.threads[t].pc) ==> !Yielding(s.threads[u].pc)
    requires s.threads[t].pc.RetPost? || s.threads[t].pc.RetPostUnlock? || s.threads[t].pc.RetRelock?
      || s.threads[t].pc.RetCheck?
    ensures |ThreadStep(s, t).value.threads| == |s.threads| && Framed(s, ThreadStep(s, t).value, u)
  {
  }

  /** A thread that posts closes the window: it was the only one yielding. */
  lemma ThreadFrames(s: State, t: Tid, u: Tid)
    requires View(s, t) && ThreadStep(s, t).Some? && u < |s.threads| && u != t
    requires Yielding(s.threads[t].pc) ==> !Yielding(s.threads[u].pc)
    ensures |ThreadStep(s, t).value.threads| == |s.threads| && Framed(s, ThreadStep(s, t).value, u)
  {
    match s.threads[t].pc
    case EntryWait | RetWait | EntryPost | RetRepost => ThreadFramesWake(s, t, u);
    case CtlLock(_) | CtlBody(_) | RetLock => ThreadFramesEntry(s, t, u);
    case RetBody | RetDrain | RetPostLock => ThreadFramesYield(s, t, u);
    case RetPost | RetPostUnlock | RetRelock | RetCheck => ThreadFramesReentry(s, t, u);
    case Running | Exited =>
  }

  /** Only the current thread starts to yield. */
  lemma ThreadYieldsAsCurrent(s: State, t: Tid)
    requires View(s, t) && ThreadStep(s, t).Some? && |ThreadStep(s, t).value.threads| == |s.threads|
    requires Yielding(ThreadStep(s, t).value.threads[t].pc)
    ensures Yielding(s.threads[t].pc) || IsCurrent(s, t)
  {
  }

  lemma NotCurrentNotYielding(s: State, u: Tid)
    requires GlobalInv(s) && u < |s.threads| && ThreadInv(s, u) && s.current.Some?
    ensures !Yielding(s.threads[u].pc)
  {
  }

  lemma ThreadKeepsInv(s: State, t: Tid)
    requires Inv(s) && t < |s.threads| && ThreadStep(s, t).Some?
    ensures Inv(ThreadStep(s, t).value)
  {
    var s1 := ThreadStep(s, t).value;
    ThreadKeepsRefs(s, t);
    ThreadKeepsItself(s, t);
    forall u | 0 <= u < |s.threads| && u != t ensures ThreadInv(s1, u) && s1.threads[u] == s.threads[u] {
      ThreadFrames(s, t, u);
      FramedKeepsThread(s, s1, u);
    }
    if Yielding(s1.threads[t].pc) {
      ThreadYieldsAsCurrent(s, t);
      if s.current.Some? {
        forall u | 0 <= u < |s.threads| ensures !Yielding(s.threads[u].pc) { NotCurrentNotYielding(s, u); }
      }
    }
    ThreadKeepsOneYielder(s, s1, t);
  }

  lemma ThreadKeepsOneYielder(s: State, s1: State, t: Tid)
    requires |s1.threads| == |s.threads| && t < |s.threads| && OneYielder(s)
    requires forall u | 0 <= u < |s.threads| && u != t :: s1.threads[u] == s.threads[u]
    requires Yielding(s1.threads[t].pc) && !Yielding(s.threads[t].pc)
      ==> forall u | 0 <= u < |s.threads| :: !Yielding(s.threads[u].pc)
    ensures OneYielder(s1)
  {
  }

  // ----- the handlers and the environment keep it -----

  /** The thread an event is about. */
  ghost function Subject(e: Event): Option<Tid> {
    match e
    case ThreadRuns(t) => Some(t)
    case ThreadHandler(t) => Some(t)
    case CallControl(t, _) => Some(t)
    case CallReturn(t) => Some(t)
    case ThreadKernel(t, _, _) => Some(t)
    case _ => None
  }

  /** One step of the suspend handler takes each phase to the next. */
  lemma HandlerAdvancesPhase(g: Sig, pipe: nat)
    requires HandlerStep(g).Some?
    ensures var (g1, n) := HandlerStep(g).value;
      && !SigFree(g)
      && (SigStopped(g) ==> SigStopped(g1) && n == 0)
      && (SigGoing(g) ==> SigGoing(g1) && n == 0)
      && (SuspendPhase(g, pipe) ==> SuspendPhase(g1, pipe + n))
  {
  }

  lemma TimerHandlerKeepsGlobal(s: State)
    requires GlobalInv(s)
    ensures Next(s, TimerHandler).Some? ==> GlobalInv(Next(s, TimerHandler).value)
  {
  }

  lemma ThreadAcksGlobal(s: State, t: Tid)
    requires View(s, t) && s.threads[t].sig.handler.Acking?
    ensures Next(s, ThreadHandler(t)).Some? ==> GlobalInv(Next(s, ThreadHandler(t)).value)
  {
    assert s.tmr.pc.TSaveAck?;
  }

  lemma ThreadHandlerKeepsGlobal(s: State, t: Tid)
    requires View(s, t)
    ensures Next(s, ThreadHandler(t)).Some? ==> GlobalInv(Next(s, ThreadHandler(t)).value)
  {
    if s.threads[t].sig.handler.Acking? {
      ThreadAcksGlobal(s, t);
    } else if HandlerStep(s.threads[t].sig).Some? {
      var g := HandlerStep(s.threads[t].sig).value.0;
      SignalKeepsGlobal(s, t, g);
      assert Next(s, ThreadHandler(t)) == Some(SetSig(s, t, g));
    }
  }

  /** The signal state of a thread is no concern of the state as a whole. */
  lemma SignalKeepsGlobal(s: State, t: Tid, g: Sig)
    requires View(s, t)
    ensures GlobalInv(SetSig(s, t, g))
  {
  }

  lemma ThreadHandlerKeepsItself(s: State, t: Tid)
    requires View(s, t) && Next(s, ThreadHandler(t)).Some?
    ensures |Next(s, ThreadHandler(t)).value.threads| == |s.threads|
    ensures ThreadInv(Next(s, ThreadHandler(t)).value, t)
  {
    var (g, n) := HandlerStep(s.threads[t].sig).value;
    var s1 := SetSig(s, t, g).(otherPipe := s.otherPipe + n);
    HandlerAdvancesPhase(s.threads[t].sig, s.otherPipe);
    HandlerKeepsRole(s, s1, t, g, n);
  }

  lemma HandlerKeepsRole(s: State, s1: State, t: Tid, g: Sig, n: nat)
    requires View(s, t) && HandlerStep(s.threads[t].sig) == Some((g, n))
    requires s1 == SetSig(s, t, g).(otherPipe := s.otherPipe + n)
    requires !SigFree(s.threads[t].sig)
    requires SigStopped(s.threads[t].sig) ==> SigStopped(g) && n == 0
    requires SigGoing(s.threads[t].sig) ==> SigGoing(g) && n == 0
    requires SuspendPhase(s.threads[t].sig, s.otherPipe) ==> SuspendPhase(g, s.otherPipe + n)
    ensures ThreadInv(s1, t)
  {
  }

  lemma HostKeepsGlobal(s: State, e: Event)
    requires GlobalInv(s) && (e.WakeScheduler? || e.WakeTimer? || e.TimerKernel? || e.TimerNested?)
    ensures Next(s, e).Some? ==> GlobalInv(Next(s, e).value)
  {
  }

  lemma CallKeepsGlobal(s: State, t: Tid, e: Event)
    requires View(s, t) && (e == CallReturn(t) || (e.CallControl? && e.t == t))
    ensures Next(s, e).Some? ==> GlobalInv(Next(s, e).value)
  {
  }

  lemma CallKeepsItself(s: State, t: Tid, e: Event)
    requires View(s, t) && (e == CallReturn(t) || (e.CallControl? && e.t == t)) && Next(s, e).Some?
    ensures |Next(s, e).value.threads| == |s.threads| && ThreadInv(Next(s, e).value, t)
  {
    assert OwnCode(s, t);
    assert RoleOf(Next(s, e).value, t) == RoleOf(s, t);
  }

  lemma KernelKeepsItself(s: State, t: Tid, e: Event)
    requires View(s, t) && e.ThreadKernel? && e.t == t
    ensures Next(s, e).Some? ==> View(Next(s, e).value, t)
  {
  }

  lemma CallFrames(s: State, e: Event, u: Tid)
    requires GlobalInv(s) && u < |s.threads|
    requires Subject(e).Some? ==> View(s, Subject(e).value)
    requires !e.SchedulerRuns? && !e.TimerRuns? && !e.ThreadRuns? && Next(s, e).Some?
    requires e.CallControl? || e.CallReturn? || e.ThreadKernel?
    ensures |Next(s, e).value.threads| == |s.threads|
    ensures Yielding(Next(s, e).value.threads[u].pc) ==> Yielding(s.threads[u].pc)
    ensures Subject(e) != Some(u) ==> Framed(s, Next(s, e).value, u)
  {
  }

  lemma HandlerFrames(s: State, e: Event, u: Tid)
    requires GlobalInv(s) && u < |s.threads|
    requires Subject(e).Some? ==> View(s, Subject(e).value)
    requires !e.SchedulerRuns? && !e.TimerRuns? && !e.ThreadRuns? && Next(s, e).Some?
    requires e.ThreadHandler? || e.TimerHandler?
    ensures |Next(s, e).value.threads| == |s.threads|
    ensures Yielding(Next(s, e).value.threads[u].pc) ==> Yielding(s.threads[u].pc)
    ensures Subject(e) != Some(u) ==> Framed(s, Next(s, e).value, u)
  {
  }

  lemma HostFrames(s: State, e: Event, u: Tid)
    requires GlobalInv(s) && u < |s.threads|
    requires Subject(e).Some? ==> View(s, Subject(e).value)
    requires !e.SchedulerRuns? && !e.TimerRuns? && !e.ThreadRuns? && Next(s, e).Some?
    requires !e.CallControl? && !e.CallReturn? && !e.ThreadKernel? && !e.ThreadHandler? && !e.TimerHandler?
    ensures |Next(s, e).value.threads| == |s.threads|
    ensures Yielding(Next(s, e).value.threads[u].pc) ==> Yielding(s.threads[u].pc)
    ensures Subject(e) != Some(u) ==> Framed(s, Next(s, e).value, u)
  {
  }

  lemma OtherEventFrames(s: State, e: Event, u: Tid)
    requires GlobalInv(s) && u < |s.threads|
    requires Subject(e).Some? ==> View(s, Subject(e).value)
    requires !e.SchedulerRuns? && !e.TimerRuns? && !e.ThreadRuns? && Next(s, e).Some?
    ensures |Next(s, e).value.threads| == |s.threads|
    ensures Yielding(Next(s, e).value.threads[u].pc) ==> Yielding(s.threads[u].pc)
    ensures Subject(e) != Some(u) ==> Framed(s, Next(s, e).value, u)
  {
    if e.CallControl? || e.CallReturn? || e.ThreadKernel? {
      CallFrames(s, e, u);
    } else if e.ThreadHandler? || e.TimerHandler? {
      HandlerFrames(s, e, u);
    } else {
      HostFrames(s, e, u);
    }
  }

  lemma OtherEventKeepsOther(s: State, e: Event, u: Tid)
    requires GlobalInv(s) && u < |s.threads| && ThreadInv(s, u)
    requires Subject(e).Some? ==> View(s, Subject(e).value)
    requires !e.SchedulerRuns? && !e.TimerRuns? && !e.ThreadRuns? && Next(s, e).Some?
    ensures |Next(s, e).value.threads| == |s.threads|
    ensures Yielding(Next(s, e).value.threads[u].pc) ==> Yielding(s.threads[u].pc)
    ensures Subject(e) != Some(u) ==> ThreadInv(Next(s, e).value, u)
  {
    OtherEventFrames(s, e, u);
    if Subject(e) != Some(u) { FramedKeepsThread(s, Next(s, e).value, u); }
  }

  lemma OtherEventKeepsSubject(s: State, e: Event)
    requires Inv(s) && !e.SchedulerRuns? && !e.TimerRuns? && !e.ThreadRuns? && Next(s, e).Some?
    ensures |Next(s, e).value.threads| == |s.threads| && GlobalInv(Next(s, e).value)
    ensures Subject(e).Some? ==> View(s, Subject(e).value) && ThreadInv(Next(s, e).value, Subject(e).value)
  {
    NextKeepsRefs(s, e);
    match e {
      case TimerHandler => TimerHandlerKeepsGlobal(s);
      case ThreadHandler(t) => ThreadHandlerKeepsGlobal(s, t); ThreadHandlerKeepsItself(s, t);
      case CallControl(t, _) => CallKeepsGlobal(s, t, e); CallKeepsItself(s, t, e);
      case CallReturn(t) => CallKeepsGlobal(s, t, e); CallKeepsItself(s, t, e);
      case ThreadKernel(t, _, _) => KernelKeepsItself(s, t, e);
      case _ => HostKeepsGlobal(s, e);
    }
  }

  lemma OtherEventKeepsInv(s: State, e: Event)
    requires Inv(s) && !e.SchedulerRuns? && !e.TimerRuns? && !e.ThreadRuns? && Next(s, e).Some?
    ensures Inv(Next(s, e).value)
  {
    var s1 := Next(s, e).value;
    OtherEventKeepsSubject(s, e);
    forall u | 0 <= u < |s.threads|
      ensures ThreadInv(s1, u) && (Yielding(s1.threads[u].pc) ==> Yielding(s.threads[u].pc))
    {
      OtherEventKeepsOther(s, e, u);
    }
    YieldersRemain(s, s1);
  }

  lemma YieldersRemain(s: State, s1: State)
    requires OneYielder(s) && |s1.threads| == |s.threads|
    requires forall u | 0 <= u < |s.threads| :: Yielding(s1.threads[u].pc) ==> Yielding(s.threads[u].pc)
    ensures OneYielder(s1)
  {
  }

  // ----- every event keeps it -----

  lemma NextKeepsInv(s: State, e: Event)
    requires Inv(s) && Next(s, e).Some?
    ensures Inv(Next(s, e).value)
  {
    match e
    case SchedulerRuns => SchedulerKeepsInv(s);
    case TimerRuns => TimerKeepsInv(s);
    case ThreadRuns(t) => ThreadKeepsInv(s, t);
    case _ => OtherEventKeepsInv(s, e);
  }

  lemma {:induction false} RunKeepsInv(s: State, es: seq<Event>)
    requires Inv(s) && Run(s, es).Some?
    ensures Inv(Run(s, es).value)
    decreases |es|
  {
    if es == [] {
    } else {
      NextKeepsInv(s, es[0]);
      RunKeepsInv(Next(s, es[0]).value, es[1..]);
    }
  }

  /** The invariant holds in every reachable state. */
  lemma ReachableInv(s: State)
    requires Reachable(s)
    ensures Inv(s)
  {
    var s0: State, es: seq<Event> :| Init(s0) && Run(s0, es) == Some(s);
    InitEstablishesInv(s0);
    RunKeepsInv(s0, es);
  }
}
