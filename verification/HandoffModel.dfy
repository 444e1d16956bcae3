/** The ThreadX POSIX-host handoff protocol as a system of communicating steps.

  One scheduler pthread, one timer ("interrupt") pthread and any number of
  ThreadX pthreads share a recursive mutex, a scheduler semaphore, an interrupt
  semaphore and one run semaphore per thread. A process is a program counter
  plus its thread-local data; a step is what it does between two points at
  which another process can interfere. A step function answers None when the
  process is blocked.

  The ThreadX core is an environment: while it holds the mutex, the running
  thread or the timer inside a tick may set the execute pointer and the
  preemption-disable count to anything. */
module HandoffModel {
  import opened InterruptPosture
  import opened Wrappers

  type Tid = nat

  datatype Proc = Scheduler | Timer | Thread(id: Tid)

  // ----- the recursive mutex and the hand-kept lock counts -----

  datatype Mutex = Mutex(owner: Option<Proc>, depth: nat)

  predicate Owns(m: Mutex, p: Proc) {
    m.owner.Some? &&
    match p
    case Scheduler => m.owner.value.Scheduler?
    case Timer => m.owner.value.Timer?
    case Thread(t) => m.owner.value.Thread? && m.owner.value.id == t
  }

  predicate CanLock(m: Mutex, p: Proc) {
    m.owner.None? || Owns(m, p)
  }

  function Lock(m: Mutex, p: Proc): Mutex {
    Mutex(Some(p), m.depth + 1)
  }

  /** `n` successive unlocks. */
  function Unlock(m: Mutex, n: nat): Mutex {
    if n < m.depth then Mutex(m.owner, m.depth - n) else Mutex(None, 0)
  }

  // ----- signal-based suspension -----

  datatype Handler = Out | Acking | Acked | Parked

  /** Signal state of one pthread. The resume signal stays blocked, hence
      pending, until sigsuspend unblocks it; every signal is blocked inside the
      suspend handler. */
  datatype Sig = Sig(suspendPending: bool, resumePending: bool, handler: Handler, suspended: bool)

  const QUIET := Sig(false, false, Out, false)

  /** One step of the suspend handler: the new signal state and the number of
      acknowledge bytes written. */
  function HandlerStep(g: Sig): Option<(Sig, nat)> {
    match g.handler
    case Out =>
      if !g.suspendPending then None
      else if g.suspended then Some((g.(suspendPending := false), 0))
      else Some((g.(suspendPending := false, handler := Acking), 0))
    case Acking => Some((g.(handler := Acked), 1))
    case Acked => Some((g.(handler := Parked, suspended := true), 0))
    case Parked =>
      if !g.resumePending then None
      else Some((g.(resumePending := false, handler := Out, suspended := false), 0))
  }

  // ----- processes -----

  datatype SchedulerPc =
    | SLock | STest | SSleep | SDispatch | SResume | SDrainRun | SPostRun | SBranch
    | SWaitWaiting | SPostIsr
    | SSuspendTimer | SAckTimer | SWaitSuspended | SResumeTimer
    | SUnlock | SWaitYield

  /** From the choice of a thread to its start. */
  predicate Picking(pc: SchedulerPc) {
    pc.SLock? || pc.STest? || pc.SSleep? || pc.SDispatch? || pc.SResume? || pc.SDrainRun? || pc.SPostRun? || pc.SBranch?
  }

  /** The rendezvous with thread and timer, and the wait for a yield. */
  predicate Meeting(pc: SchedulerPc) {
    !Picking(pc)
  }

  datatype SchedulerProc = SchedulerProc(pc: SchedulerPc, locks: nat)

  datatype TimerPc =
    | TSleep | TSaveLock | TSaveBody | TSaveAck | TSaveMark
    | TTickLock | TTick
    | TRestoreLock | TRestoreBody | TDrainSched | TSetWaiting | TPostSched | TChoose
    | TWaitIsr | TRelock | TDrainIsr | TClear | TUnlock

  /** Save, tick, and the lock that restore takes. */
  predicate BeforeRestore(pc: TimerPc) {
    pc.TSleep? || pc.TSaveLock? || pc.TSaveBody? || pc.TSaveAck? || pc.TSaveMark? || pc.TTickLock? || pc.TTick?
      || pc.TRestoreLock?
  }

  /** Restore, up to its look at the execute pointer. */
  predicate GivingUp(pc: TimerPc) {
    pc.TRestoreBody? || pc.TDrainSched? || pc.TSetWaiting? || pc.TPostSched? || pc.TChoose?
  }

  /** The wait for the handoff, and the end of restore. */
  predicate AfterChoice(pc: TimerPc) {
    pc.TWaitIsr? || pc.TRelock? || pc.TDrainIsr? || pc.TClear? || pc.TUnlock?
  }

  datatype TimerProc = TimerProc(pc: TimerPc, locks: nat, sig: Sig)

  datatype ThreadPc =
    | EntryWait | EntryPost
    | Running
    | CtlLock(posture: Posture) | CtlBody(posture: Posture)
    | RetLock | RetBody | RetDrain | RetPostLock | RetPost | RetPostUnlock
    | RetWait | RetRepost | RetRelock | RetCheck
    | Exited

  datatype ThreadProc = ThreadProc(
    pc: ThreadPc,
    locks: nat,
    sig: Sig,
    run: nat,            // tx_thread_posix_run_semaphore
    suspension: bool,    // tx_thread_posix_suspension_type
    intDisabled: bool)   // tx_thread_posix_int_disabled_flag

  datatype State = State(
    mutex: Mutex,
    sch: SchedulerProc,
    tmr: TimerProc,
    threads: seq<ThreadProc>,
    sem: nat,              // _tx_posix_semaphore
    isr: nat,              // _tx_posix_isr_semaphore
    timerWaiting: bool,
    systemState: nat,
    current: Option<Tid>,
    execute: Option<Tid>,
    preemptDisable: nat,
    timerPipe: nat,        // unread acknowledge bytes
    otherPipe: nat)

  predicate ValidRef(s: State, t: Option<Tid>) {
    t.Some? ==> t.value < |s.threads|
  }

  predicate IsCurrent(s: State, t: Tid) {
    s.current.Some? && s.current.value == t
  }

  function SetThread(s: State, t: Tid, h: ThreadProc): State
    requires t < |s.threads|
  {
    s.(threads := s.threads[t := h])
  }

  function SetSig(s: State, t: Tid, g: Sig): State
    requires t < |s.threads|
  {
    SetThread(s, t, s.threads[t].(sig := g))
  }

  // ----- the scheduler -----

  function SchedulerGoto(s: State, pc: SchedulerPc): State {
    s.(sch := s.sch.(pc := pc))
  }

  function SchedulerUnlock(s: State, pc: SchedulerPc): State {
    s.(mutex := Unlock(s.mutex, 1), sch := SchedulerProc(pc, if s.sch.locks > 0 then s.sch.locks - 1 else 0))
  }

  /** The next step of `_tx_thread_schedule`. SSleep is its nanosleep, left only
      by the WakeScheduler event. */
  function SchedulerStep(s: State): Option<State>
    requires ValidRef(s, s.current) && ValidRef(s, s.execute)
  {
    match s.sch.pc
    case SLock =>
      if CanLock(s.mutex, Scheduler)
      then Some(s.(mutex := Lock(s.mutex, Scheduler), sch := SchedulerProc(STest, s.sch.locks + 1)))
      else None
    case STest =>
      if s.execute.Some? && s.systemState == 0 then Some(SchedulerGoto(s, SDispatch))
      else Some(SchedulerUnlock(s, SSleep))
    case SSleep => None
    case SDispatch =>
      if s.execute.None? then None
      else
        var s1 := s.(current := s.execute);
        Some(SchedulerGoto(s1, if s.threads[s.execute.value].suspension then SResume else SDrainRun))
    case SResume =>
      if s.current.None? then None
      else
        var t := s.current.value;
        Some(SchedulerGoto(SetSig(s, t, s.threads[t].sig.(resumePending := true)), SUnlock))
    case SDrainRun =>
      if s.current.None? then None
      else
        var t := s.current.value;
        if s.threads[t].run > 0 then Some(SetThread(s, t, s.threads[t].(run := s.threads[t].run - 1)))
        else Some(SchedulerGoto(s, SPostRun))
    case SPostRun =>
      if s.current.None? then None
      else
        var t := s.current.value;
        Some(SchedulerGoto(SetThread(s, t, s.threads[t].(run := s.threads[t].run + 1)), SBranch))
    case SBranch =>
      Some(SchedulerGoto(s, if s.timerWaiting then SWaitWaiting else SSuspendTimer))
    case SWaitWaiting =>
      if s.sem > 0 then Some(SchedulerGoto(s.(sem := s.sem - 1), SPostIsr)) else None
    case SPostIsr =>
      Some(SchedulerGoto(s.(isr := s.isr + 1), SUnlock))
    case SSuspendTimer =>
      Some(SchedulerGoto(s.(tmr := s.tmr.(sig := s.tmr.sig.(suspendPending := true))), SAckTimer))
    case SAckTimer =>
      if s.timerPipe > 0 then Some(SchedulerGoto(s.(timerPipe := s.timerPipe - 1), SWaitSuspended)) else None
    case SWaitSuspended =>
      if s.sem > 0 then Some(SchedulerGoto(s.(sem := s.sem - 1), SResumeTimer)) else None
    case SResumeTimer =>
      Some(SchedulerGoto(s.(tmr := s.tmr.(sig := s.tmr.sig.(resumePending := true))), SUnlock))
    case SUnlock => Some(SchedulerUnlock(s, SWaitYield))
    case SWaitYield =>
      if s.sem > 0 then Some(SchedulerGoto(s.(sem := s.sem - 1), SLock)) else None
  }

  // ----- the timer -----

  function TimerGoto(s: State, pc: TimerPc): State {
    s.(tmr := s.tmr.(pc := pc))
  }

  function TimerLock(s: State, pc: TimerPc): Option<State> {
    if CanLock(s.mutex, Timer)
    then Some(s.(mutex := Lock(s.mutex, Timer), tmr := s.tmr.(pc := pc, locks := s.tmr.locks + 1)))
    else None
  }

  function TimerUnlock(s: State, pc: TimerPc): State {
    s.(mutex := Unlock(s.mutex, 1),
       tmr := s.tmr.(pc := pc, locks := if s.tmr.locks > 0 then s.tmr.locks - 1 else 0))
  }

  function TimerRecursiveUnlock(s: State, pc: TimerPc): State {
    s.(mutex := Unlock(s.mutex, s.tmr.locks), tmr := s.tmr.(pc := pc, locks := 0))
  }

  predicate Preempts(s: State) {
    s.preemptDisable == 0 && s.current != s.execute
  }

  /** The next step of the timer: context save, tick, context restore. TSleep is
      its nanosleep, left only by the WakeTimer event. */
  function TimerStep(s: State): Option<State>
    requires ValidRef(s, s.current) && ValidRef(s, s.execute)
  {
    if !s.tmr.sig.handler.Out? then None
    else match s.tmr.pc
    case TSleep => None
    case TSaveLock => TimerLock(s, TSaveBody)
    case TSaveBody =>
      if s.current.Some? && s.systemState == 0 then
        var t := s.current.value;
        Some(TimerGoto(SetSig(s, t, s.threads[t].sig.(suspendPending := true)), TSaveAck))
      else Some(TimerUnlock(s.(systemState := s.systemState + 1), TTickLock))
    case TSaveAck =>
      if s.otherPipe > 0 then Some(TimerGoto(s.(otherPipe := s.otherPipe - 1), TSaveMark)) else None
    case TSaveMark =>
      if s.current.None? then None
      else
        var t := s.current.value;
        var s1 := SetThread(s, t, s.threads[t].(suspension := true));
        Some(TimerUnlock(s1.(systemState := s1.systemState + 1), TTickLock))
    case TTickLock => TimerLock(s, TTick)
    case TTick => Some(TimerUnlock(s, TRestoreLock))
    case TRestoreLock => TimerLock(s, TRestoreBody)
    case TRestoreBody =>
      var s1 := s.(systemState := if s.systemState > 0 then s.systemState - 1 else 0);
      if s1.systemState == 0 && s.current.Some? then
        var t := s.current.value;
        if Preempts(s1)
        then Some(TimerGoto(SetThread(s1, t, s.threads[t].(suspension := true)).(current := None), TDrainSched))
        else Some(TimerGoto(SetSig(s1, t, s.threads[t].sig.(resumePending := true)), TUnlock))
      else Some(TimerGoto(s1, TUnlock))
    case TDrainSched =>
      if s.sem > 0 then Some(s.(sem := s.sem - 1)) else Some(TimerGoto(s, TSetWaiting))
    case TSetWaiting => Some(TimerGoto(s.(timerWaiting := true), TPostSched))
    case TPostSched => Some(TimerGoto(s.(sem := s.sem + 1), TChoose))
    case TChoose =>
      if s.execute.Some? && !s.threads[s.execute.value].suspension
      then Some(TimerRecursiveUnlock(s, TWaitIsr))
      else Some(TimerGoto(s, TClear))
    case TWaitIsr =>
      if s.isr > 0 then Some(TimerGoto(s.(isr := s.isr - 1), TRelock)) else None
    case TRelock => TimerLock(s, TDrainIsr)
    case TDrainIsr =>
      if s.isr > 0 then Some(s.(isr := s.isr - 1)) else Some(TimerGoto(s, TClear))
    case TClear => Some(TimerGoto(s.(timerWaiting := false), TUnlock))
    case TUnlock => Some(TimerRecursiveUnlock(s, TSleep))
  }

  // ----- a ThreadX thread -----

  function ThreadGoto(s: State, t: Tid, pc: ThreadPc): State
    requires t < |s.threads|
  {
    SetThread(s, t, s.threads[t].(pc := pc))
  }

  function ThreadLock(s: State, t: Tid, pc: ThreadPc): Option<State>
    requires t < |s.threads|
  {
    if CanLock(s.mutex, Thread(t))
    then
      var h := s.threads[t].(pc := pc, locks := s.threads[t].locks + 1);
      Some(SetThread(s, t, h).(mutex := Lock(s.mutex, Thread(t))))
    else None
  }

  function ThreadRecursiveUnlock(s: State, t: Tid, pc: ThreadPc): State
    requires t < |s.threads|
  {
    SetThread(s, t, s.threads[t].(pc := pc, locks := 0)).(mutex := Unlock(s.mutex, s.threads[t].locks))
  }

  /** `_tx_thread_interrupt_control` after it has the mutex. */
  function ControlBody(s: State, t: Tid, posture: Posture): State
    requires t < |s.threads| && ValidRef(s, s.current)
  {
    if !IsCurrent(s, t) then ThreadRecursiveUnlock(s, t, Exited)
    else if s.systemState != 0 then
      if posture.Enable? then ThreadRecursiveUnlock(s, t, Running) else ThreadGoto(s, t, Running)
    else
      var s1 := SetThread(s, t, s.threads[t].(intDisabled := posture.Disable?));
      if posture.Enable? then ThreadRecursiveUnlock(s1, t, Running) else ThreadGoto(s1, t, Running)
  }

  /** `_tx_posix_thread_entry`. */
  function EntryStep(s: State, t: Tid): Option<State>
    requires t < |s.threads|
  {
    var h := s.threads[t];
    match h.pc
    case EntryWait =>
      if h.run > 0 then Some(SetThread(s, t, h.(run := h.run - 1, pc := EntryPost))) else None
    case EntryPost => Some(ThreadGoto(s.(sem := s.sem + 1), t, Running))
    case _ => None
  }

  /** `_tx_thread_interrupt_control`. */
  function ControlStep(s: State, t: Tid): Option<State>
    requires ValidRef(s, s.current) && t < |s.threads|
  {
    match s.threads[t].pc
    case CtlLock(posture) => ThreadLock(s, t, CtlBody(posture))
    case CtlBody(posture) => Some(ControlBody(s, t, posture))
    case _ => None
  }

  /** `_tx_thread_system_return` up to the post that gives up the processor. */
  function YieldStep(s: State, t: Tid): Option<State>
    requires t < |s.threads|
  {
    var h := s.threads[t];
    match h.pc
    case RetLock => ThreadLock(s, t, RetBody)
    case RetBody =>
      if !IsCurrent(s, t) then Some(ThreadRecursiveUnlock(s, t, Exited))
      else
        var s1 := SetThread(s, t, h.(suspension := false)).(current := None);
        Some(ThreadRecursiveUnlock(s1, t, RetDrain))
    case RetDrain =>
      if s.sem > 0 then Some(s.(sem := s.sem - 1)) else Some(ThreadGoto(s, t, RetPostLock))
    case RetPostLock => ThreadLock(s, t, RetPost)
    case RetPost => Some(ThreadGoto(s.(sem := s.sem + 1), t, RetPostUnlock))
    case RetPostUnlock =>
      var h1 := h.(pc := RetWait, locks := if h.locks > 0 then h.locks - 1 else 0);
      Some(SetThread(s, t, h1).(mutex := Unlock(s.mutex, 1)))
    case _ => None
  }

  /** `_tx_thread_system_return` from its wait for the run semaphore on. */
  function ReenterStep(s: State, t: Tid): Option<State>
    requires t < |s.threads|
  {
    var h := s.threads[t];
    match h.pc
    case RetWait =>
      if h.run > 0 then Some(SetThread(s, t, h.(run := h.run - 1, pc := RetRepost))) else None
    case RetRepost => Some(ThreadGoto(s.(sem := s.sem + 1), t, RetRelock))
    case RetRelock => ThreadLock(s, t, RetCheck)
    case RetCheck =>
      if !IsCurrent(s, t) then Some(ThreadRecursiveUnlock(s, t, Exited))
      else if !h.intDisabled then Some(ThreadRecursiveUnlock(s, t, Running))
      else Some(ThreadGoto(s, t, Running))
    case _ => None
  }

  /** The next step of thread `t` in the port. In Running the thread executes its
      own code; the calls it makes from there are events. */
  function ThreadStep(s: State, t: Tid): Option<State>
    requires ValidRef(s, s.current) && t < |s.threads|
  {
    if !s.threads[t].sig.handler.Out? then None
    else match s.threads[t].pc
    case EntryWait | EntryPost => EntryStep(s, t)
    case CtlLock(_) | CtlBody(_) => ControlStep(s, t)
    case Running | Exited => None
    case RetWait | RetRepost | RetRelock | RetCheck => ReenterStep(s, t)
    case _ => YieldStep(s, t)
  }

  // ----- events and runs -----

  datatype Event =
    | SchedulerRuns
    | TimerRuns
    | ThreadRuns(t: Tid)
    | TimerHandler
    | ThreadHandler(t: Tid)
    // environment: the host clock, the application and the ThreadX core
    | WakeScheduler
    | WakeTimer
    | CallControl(t: Tid, posture: Posture)
    | CallReturn(t: Tid)
    | ThreadKernel(t: Tid, execute: Option<Tid>, preemptDisable: nat)
    | TimerKernel(execute: Option<Tid>, preemptDisable: nat)
    | TimerNested

  /** The steps of the protocol itself, as against the events of its environment. */
  predicate Internal(e: Event) {
    e.SchedulerRuns? || e.TimerRuns? || e.ThreadRuns? || e.TimerHandler? || e.ThreadHandler?
  }

  /** Thread `t` executes its own code: it is neither inside the port nor inside
      a signal handler. */
  predicate OwnCode(s: State, t: Tid) {
    t < |s.threads| && s.threads[t].pc.Running? && s.threads[t].sig.handler.Out?
  }

  function Next(s: State, e: Event): Option<State>
    requires ValidRef(s, s.current) && ValidRef(s, s.execute)
  {
    match e
    case SchedulerRuns => SchedulerStep(s)
    case TimerRuns => TimerStep(s)
    case ThreadRuns(t) => if t < |s.threads| then ThreadStep(s, t) else None
    case TimerHandler =>
      (match HandlerStep(s.tmr.sig)
       case None => None
       case Some((g, n)) => Some(s.(tmr := s.tmr.(sig := g), timerPipe := s.timerPipe + n)))
    case ThreadHandler(t) =>
      if t >= |s.threads| then None
      else (match HandlerStep(s.threads[t].sig)
            case None => None
            case Some((g, n)) => Some(SetSig(s, t, g).(otherPipe := s.otherPipe + n)))
    case WakeScheduler => if s.sch.pc.SSleep? then Some(SchedulerGoto(s, SLock)) else None
    case WakeTimer => if s.tmr.pc.TSleep? && s.tmr.sig.handler.Out? then Some(TimerGoto(s, TSaveLock)) else None
    case CallControl(t, posture) => if OwnCode(s, t) then Some(ThreadGoto(s, t, CtlLock(posture))) else None
    case CallReturn(t) => if OwnCode(s, t) then Some(ThreadGoto(s, t, RetLock)) else None
    case ThreadKernel(t, x, n) =>
      if OwnCode(s, t) && s.threads[t].locks > 0 && ValidRef(s, x)
      then Some(s.(execute := x, preemptDisable := n)) else None
    case TimerKernel(x, n) =>
      if s.tmr.pc.TTick? && ValidRef(s, x) then Some(s.(execute := x, preemptDisable := n)) else None
    case TimerNested =>
      // TX_DISABLE, or the TX_RESTORE that matches it, inside the tick
      if s.tmr.pc.TTick? then TimerLock(s, TTick) else None
  }

  /** Before the scheduler and the timer start: every thread is in its entry
      function, nothing is posted, and the core has chosen any thread or none. */
  predicate Init(s: State) {
    && s.mutex == Mutex(None, 0)
    && s.sch == SchedulerProc(SLock, 0)
    && s.tmr == TimerProc(TSleep, 0, QUIET)
    && (forall t :: 0 <= t < |s.threads| ==> s.threads[t] == ThreadProc(EntryWait, 0, QUIET, 0, false, false))
    && s.sem == 0 && s.isr == 0 && !s.timerWaiting && s.systemState == 0
    && s.current == None && ValidRef(s, s.execute)
    && s.timerPipe == 0 && s.otherPipe == 0
  }

  /** The state after the events `es`, or None when one of them is not enabled. */
  function Run(s: State, es: seq<Event>): (r: Option<State>)
    requires ValidRef(s, s.current) && ValidRef(s, s.execute)
    ensures r.Some? ==> ValidRef(r.value, r.value.current) && ValidRef(r.value, r.value.execute)
    decreases |es|
  {
    if es == [] then Some(s)
    else
      match Next(s, es[0])
      case None => None
      case Some(s1) => NextKeepsRefs(s, es[0]); Run(s1, es[1..])
  }

  predicate SameRefs(s: State, r: Option<State>) {
    r.Some? ==>
      && |r.value.threads| == |s.threads|
      && ValidRef(r.value, r.value.current) && ValidRef(r.value, r.value.execute)
  }

  lemma SchedulerKeepsRefs(s: State)
    requires ValidRef(s, s.current) && ValidRef(s, s.execute)
    ensures SameRefs(s, SchedulerStep(s))
  {
  }

  lemma TimerKeepsRefsInTick(s: State)
    requires ValidRef(s, s.current) && ValidRef(s, s.execute)
    requires BeforeRestore(s.tmr.pc)
    ensures SameRefs(s, TimerStep(s))
  {
  }

  lemma TimerKeepsRefsAfter(s: State)
    requires ValidRef(s, s.current) && ValidRef(s, s.execute)
    requires !BeforeRestore(s.tmr.pc)
    ensures SameRefs(s, TimerStep(s))
  {
  }

  lemma TimerKeepsRefs(s: State)
    requires ValidRef(s, s.current) && ValidRef(s, s.execute)
    ensures SameRefs(s, TimerStep(s))
  {
    if BeforeRestore(s.tmr.pc) {
      TimerKeepsRefsInTick(s);
    } else {
      TimerKeepsRefsAfter(s);
    }
  }

  lemma ThreadKeepsRefs(s: State, t: Tid)
    requires ValidRef(s, s.current) && ValidRef(s, s.execute) && t < |s.threads|
    ensures SameRefs(s, ThreadStep(s, t))
  {
    if ThreadStep(s, t).Some? { ThreadLeavesRest(s, t, ThreadStep(s, t).value); }
  }

  /** A thread writes only the mutex, the scheduler semaphore, the current pointer
      (which it can only clear) and its own data. */
  predicate OnlyOwn(s: State, s1: State, t: Tid) {
    && |s1.threads| == |s.threads|
    && s1.sch == s.sch && s1.tmr == s.tmr && s1.isr == s.isr && s1.timerWaiting == s.timerWaiting
    && s1.systemState == s.systemState && s1.execute == s.execute && s1.preemptDisable == s.preemptDisable
    && s1.timerPipe == s.timerPipe && s1.otherPipe == s.otherPipe
    && (s1.current == s.current || s1.current.None?)
    && t < |s.threads| && s1.threads == s.threads[t := s1.threads[t]]
  }

  lemma ControlLeavesRest(s: State, t: Tid, s1: State)
    requires ValidRef(s, s.current) && t < |s.threads| && ControlStep(s, t) == Some(s1)
    ensures OnlyOwn(s, s1, t)
  {
  }

  lemma YieldLeavesRest(s: State, t: Tid, s1: State)
    requires t < |s.threads| && YieldStep(s, t) == Some(s1)
    ensures OnlyOwn(s, s1, t)
  {
  }

  lemma ReenterLeavesRest(s: State, t: Tid, s1: State)
    requires t < |s.threads| && ReenterStep(s, t) == Some(s1)
    ensures OnlyOwn(s, s1, t)
  {
  }

  lemma ThreadLeavesRest(s: State, t: Tid, s1: State)
    requires ValidRef(s, s.current) && t < |s.threads| && ThreadStep(s, t) == Some(s1)
    ensures OnlyOwn(s, s1, t)
  {
    match s.threads[t].pc
    case EntryWait | EntryPost =>
    case CtlLock(_) | CtlBody(_) => ControlLeavesRest(s, t, s1);
    case RetWait | RetRepost | RetRelock | RetCheck => ReenterLeavesRest(s, t, s1);
    case _ => YieldLeavesRest(s, t, s1);
  }

  lemma NextKeepsRefs(s: State, e: Event)
    requires ValidRef(s, s.current) && ValidRef(s, s.execute)
    ensures SameRefs(s, Next(s, e))
  {
    match e
    case SchedulerRuns => SchedulerKeepsRefs(s);
    case TimerRuns => TimerKeepsRefs(s);
    case ThreadRuns(t) => if t < |s.threads| { ThreadKeepsRefs(s, t); }
    case _ =>
  }

  ghost predicate Reachable(s: State) {
    exists s0: State, es: seq<Event> {:trigger Run(s0, es)} :: Init(s0) && Run(s0, es) == Some(s)
  }
}
