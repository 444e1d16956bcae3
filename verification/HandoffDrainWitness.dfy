/** A run in which the drain of the interrupt semaphore finds a post. Between passing
    its wait and taking the mutex again, the timer can be overtaken by a thread that
    yields and is dispatched anew, for which the scheduler posts once more. What that
    drain discards is counted by HandoffSafety.RunConservesIsr. */
module HandoffDrainWitness {
  import opened HandoffModel
  import opened HandoffWitness
  import opened Wrappers

  /** One more event, if it is enabled. */
  function Then(r: Option<State>, e: Event): Option<State> {
    if r.None? || !ValidRef(r.value, r.value.current) || !ValidRef(r.value, r.value.execute) then None
    else Next(r.value, e)
  }

  lemma Go2(s: State, e: Event, f: Event, s1: State)
    requires Reachable(s) && Then(Then(Some(s), e), f) == Some(s1)
    ensures Reachable(s1)
  {
    Go(s, e, Then(Some(s), e).value);
    Go(Then(Some(s), e).value, f, s1);
  }

  lemma Go3(s: State, e: Event, f: Event, g: Event, s1: State)
    requires Reachable(s) && Then(Then(Then(Some(s), e), f), g) == Some(s1)
    ensures Reachable(s1)
  {
    var r := Then(Then(Some(s), e), f);
    Go2(s, e, f, r.value);
    Go(r.value, g, s1);
  }

  /** A thread with interrupts enabled. */
  function Of(pc: ThreadPc, locks: nat, sig: Sig, run: nat, suspension: bool): ThreadProc {
    ThreadProc(pc, locks, sig, run, suspension, false)
  }

  /** Two threads; the core has chosen thread 0. */
  function Start(): State {
    State(FREE, SchedulerProc(SLock, 0), TimerProc(TSleep, 0, QUIET),
      [Of(EntryWait, 0, QUIET, 0, false), Of(EntryWait, 0, QUIET, 0, false)],
      0, 0, false, 0, None, Some(0), 0, 0, 0)
  }

  /** The scheduler chooses thread 0. */
  function FirstIsChosen(): State {
    State(BY_SCHEDULER, SchedulerProc(SDrainRun, 1), TimerProc(TSleep, 0, QUIET),
      [Of(EntryWait, 0, QUIET, 0, false), Of(EntryWait, 0, QUIET, 0, false)],
      0, 0, false, 0, Some(0), Some(0), 0, 0, 0)
  }

  lemma ToFirstIsChosen()
    requires Reachable(Start())
    ensures Reachable(FirstIsChosen())
  {
    TwoUpdates();
    Go3(Start(), SchedulerRuns, SchedulerRuns, SchedulerRuns, FirstIsChosen());
  }

  /** It posts its run semaphore and turns to the timer. */
  function FirstIsPosted(): State {
    State(BY_SCHEDULER, SchedulerProc(SSuspendTimer, 1), TimerProc(TSleep, 0, QUIET),
      [Of(EntryWait, 0, QUIET, 1, false), Of(EntryWait, 0, QUIET, 0, false)],
      0, 0, false, 0, Some(0), Some(0), 0, 0, 0)
  }

  lemma ToFirstIsPosted()
    requires Reachable(FirstIsChosen())
    ensures Reachable(FirstIsPosted())
  {
    TwoUpdates();
    Go3(FirstIsChosen(), SchedulerRuns, SchedulerRuns, SchedulerRuns, FirstIsPosted());
  }

  /** It asks the timer to stop. */
  function TimerIsAsked(): State {
    State(BY_SCHEDULER, SchedulerProc(SAckTimer, 1), TimerProc(TSleep, 0, REQUESTED),
      [Of(EntryWait, 0, QUIET, 1, false), Of(EntryWait, 0, QUIET, 0, false)],
      0, 0, false, 0, Some(0), Some(0), 0, 0, 0)
  }

  lemma ToTimerIsAsked()
    requires Reachable(FirstIsPosted())
    ensures Reachable(TimerIsAsked())
  {
    TwoUpdates();
    Go(FirstIsPosted(), SchedulerRuns, TimerIsAsked());
  }

  /** The timer enters its handler. */
  function TimerEntersHandler(): State {
    State(BY_SCHEDULER, SchedulerProc(SAckTimer, 1), TimerProc(TSleep, 0, ACKING),
      [Of(EntryWait, 0, QUIET, 1, false), Of(EntryWait, 0, QUIET, 0, false)],
      0, 0, false, 0, Some(0), Some(0), 0, 0, 0)
  }

  lemma ToTimerEntersHandler()
    requires Reachable(TimerIsAsked())
    ensures Reachable(TimerEntersHandler())
  {
    TwoUpdates();
    Go(TimerIsAsked(), TimerHandler, TimerEntersHandler());
  }

  /** The timer acknowledges. */
  function TimerAcknowledged(): State {
    State(BY_SCHEDULER, SchedulerProc(SAckTimer, 1), TimerProc(TSleep, 0, ACKED),
      [Of(EntryWait, 0, QUIET, 1, false), Of(EntryWait, 0, QUIET, 0, false)],
      0, 0, false, 0, Some(0), Some(0), 0, 1, 0)
  }

  lemma ToTimerAcknowledged()
    requires Reachable(TimerEntersHandler())
    ensures Reachable(TimerAcknowledged())
  {
    TwoUpdates();
    Go(TimerEntersHandler(), TimerHandler, TimerAcknowledged());
  }

  /** It parks. */
  function TimerIsParked(): State {
    State(BY_SCHEDULER, SchedulerProc(SAckTimer, 1), TimerProc(TSleep, 0, PARKED),
      [Of(EntryWait, 0, QUIET, 1, false), Of(EntryWait, 0, QUIET, 0, false)],
      0, 0, false, 0, Some(0), Some(0), 0, 1, 0)
  }

  lemma ToTimerIsParked()
    requires Reachable(TimerAcknowledged())
    ensures Reachable(TimerIsParked())
  {
    TwoUpdates();
    Go(TimerAcknowledged(), TimerHandler, TimerIsParked());
  }

  /** The scheduler reads the acknowledge byte. */
  function ParkingIsRead(): State {
    State(BY_SCHEDULER, SchedulerProc(SWaitSuspended, 1), TimerProc(TSleep, 0, PARKED),
      [Of(EntryWait, 0, QUIET, 1, false), Of(EntryWait, 0, QUIET, 0, false)],
      0, 0, false, 0, Some(0), Some(0), 0, 0, 0)
  }

  lemma ToParkingIsRead()
    requires Reachable(TimerIsParked())
    ensures Reachable(ParkingIsRead())
  {
    TwoUpdates();
    Go(TimerIsParked(), SchedulerRuns, ParkingIsRead());
  }

  /** Thread 0 starts and answers; the scheduler takes the answer. */
  function FirstAnswers(): State {
    State(BY_SCHEDULER, SchedulerProc(SResumeTimer, 1), TimerProc(TSleep, 0, PARKED),
      [Of(Running, 0, QUIET, 0, false), Of(EntryWait, 0, QUIET, 0, false)],
      0, 0, false, 0, Some(0), Some(0), 0, 0, 0)
  }

  lemma ToFirstAnswers()
    requires Reachable(ParkingIsRead())
    ensures Reachable(FirstAnswers())
  {
    TwoUpdates();
    Go3(ParkingIsRead(), ThreadRuns(0), ThreadRuns(0), SchedulerRuns, FirstAnswers());
  }

  /** The scheduler resumes the timer and lets go. */
  function FirstIsReleased(): State {
    State(FREE, SchedulerProc(SWaitYield, 0), TimerProc(TSleep, 0, WAKING),
      [Of(Running, 0, QUIET, 0, false), Of(EntryWait, 0, QUIET, 0, false)],
      0, 0, false, 0, Some(0), Some(0), 0, 0, 0)
  }

  lemma ToFirstIsReleased()
    requires Reachable(FirstAnswers())
    ensures Reachable(FirstIsReleased())
  {
    TwoUpdates();
    Go2(FirstAnswers(), SchedulerRuns, SchedulerRuns, FirstIsReleased());
  }

  /** The timer leaves its handler. */
  function FirstRuns(): State {
    State(FREE, SchedulerProc(SWaitYield, 0), TimerProc(TSleep, 0, QUIET),
      [Of(Running, 0, QUIET, 0, false), Of(EntryWait, 0, QUIET, 0, false)],
      0, 0, false, 0, Some(0), Some(0), 0, 0, 0)
  }

  lemma ToFirstRuns()
    requires Reachable(FirstIsReleased())
    ensures Reachable(FirstRuns())
  {
    TwoUpdates();
    Go(FirstIsReleased(), TimerHandler, FirstRuns());
  }

  /** The timer wakes and asks thread 0 to stop. */
  function TickBegins(): State {
    State(BY_TIMER, SchedulerProc(SWaitYield, 0), TimerProc(TSaveAck, 1, QUIET),
      [Of(Running, 0, REQUESTED, 0, false), Of(EntryWait, 0, QUIET, 0, false)],
      0, 0, false, 0, Some(0), Some(0), 0, 0, 0)
  }

  lemma ToTickBegins()
    requires Reachable(FirstRuns())
    ensures Reachable(TickBegins())
  {
    TwoUpdates();
    Go3(FirstRuns(), WakeTimer, TimerRuns, TimerRuns, TickBegins());
  }

  /** Thread 0 acknowledges and parks. */
  function FirstStops(): State {
    State(BY_TIMER, SchedulerProc(SWaitYield, 0), TimerProc(TSaveAck, 1, QUIET),
      [Of(Running, 0, PARKED, 0, false), Of(EntryWait, 0, QUIET, 0, false)],
      0, 0, false, 0, Some(0), Some(0), 0, 0, 1)
  }

  lemma ToFirstStops()
    requires Reachable(TickBegins())
    ensures Reachable(FirstStops())
  {
    TwoUpdates();
    Go3(TickBegins(), ThreadHandler(0), ThreadHandler(0), ThreadHandler(0), FirstStops());
  }

  /** The timer marks it as suspended. */
  function FirstIsMarked(): State {
    State(FREE, SchedulerProc(SWaitYield, 0), TimerProc(TTickLock, 0, QUIET),
      [Of(Running, 0, PARKED, 0, true), Of(EntryWait, 0, QUIET, 0, false)],
      0, 0, false, 1, Some(0), Some(0), 0, 0, 0)
  }

  lemma ToFirstIsMarked()
    requires Reachable(FirstStops())
    ensures Reachable(FirstIsMarked())
  {
    TwoUpdates();
    Go2(FirstStops(), TimerRuns, TimerRuns, FirstIsMarked());
  }

  /** In the tick the core chooses thread 1. */
  function CoreChoosesSecond(): State {
    State(FREE, SchedulerProc(SWaitYield, 0), TimerProc(TRestoreLock, 0, QUIET),
      [Of(Running, 0, PARKED, 0, true), Of(EntryWait, 0, QUIET, 0, false)],
      0, 0, false, 1, Some(0), Some(1), 0, 0, 0)
  }

  lemma ToCoreChoosesSecond()
    requires Reachable(FirstIsMarked())
    ensures Reachable(CoreChoosesSecond())
  {
    TwoUpdates();
    Go3(FirstIsMarked(), TimerRuns, TimerKernel(Some(1), 0), TimerRuns, CoreChoosesSecond());
  }

  /** Thread 0 is preempted. */
  function FirstIsPreempted(): State {
    State(BY_TIMER, SchedulerProc(SWaitYield, 0), TimerProc(TSetWaiting, 1, QUIET),
      [Of(Running, 0, PARKED, 0, true), Of(EntryWait, 0, QUIET, 0, false)],
      0, 0, false, 0, None, Some(1), 0, 0, 0)
  }

  lemma ToFirstIsPreempted()
    requires Reachable(CoreChoosesSecond())
    ensures Reachable(FirstIsPreempted())
  {
    TwoUpdates();
    Go3(CoreChoosesSecond(), TimerRuns, TimerRuns, TimerRuns, FirstIsPreempted());
  }

  /** The timer raises its flag, posts, and goes to wait. */
  function TimerPosts(): State {
    State(FREE, SchedulerProc(SWaitYield, 0), TimerProc(TWaitIsr, 0, QUIET),
      [Of(Running, 0, PARKED, 0, true), Of(EntryWait, 0, QUIET, 0, false)],
      1, 0, true, 0, None, Some(1), 0, 0, 0)
  }

  lemma ToTimerPosts()
    requires Reachable(FirstIsPreempted())
    ensures Reachable(TimerPosts())
  {
    TwoUpdates();
    Go3(FirstIsPreempted(), TimerRuns, TimerRuns, TimerRuns, TimerPosts());
  }

  /** The scheduler takes the post and chooses thread 1. */
  function SecondIsChosen(): State {
    State(BY_SCHEDULER, SchedulerProc(SDispatch, 1), TimerProc(TWaitIsr, 0, QUIET),
      [Of(Running, 0, PARKED, 0, true), Of(EntryWait, 0, QUIET, 0, false)],
      0, 0, true, 0, None, Some(1), 0, 0, 0)
  }

  lemma ToSecondIsChosen()
    requires Reachable(TimerPosts())
    ensures Reachable(SecondIsChosen())
  {
    TwoUpdates();
    Go3(TimerPosts(), SchedulerRuns, SchedulerRuns, SchedulerRuns, SecondIsChosen());
  }

  /** It posts the run semaphore of thread 1. */
  function SecondIsPosted(): State {
    State(BY_SCHEDULER, SchedulerProc(SBranch, 1), TimerProc(TWaitIsr, 0, QUIET),
      [Of(Running, 0, PARKED, 0, true), Of(EntryWait, 0, QUIET, 1, false)],
      0, 0, true, 0, Some(1), Some(1), 0, 0, 0)
  }

  lemma ToSecondIsPosted()
    requires Reachable(SecondIsChosen())
    ensures Reachable(SecondIsPosted())
  {
    TwoUpdates();
    Go3(SecondIsChosen(), SchedulerRuns, SchedulerRuns, SchedulerRuns, SecondIsPosted());
  }

  /** It meets the waiting flag; thread 1 starts and answers. */
  function SecondAnswers(): State {
    State(BY_SCHEDULER, SchedulerProc(SWaitWaiting, 1), TimerProc(TWaitIsr, 0, QUIET),
      [Of(Running, 0, PARKED, 0, true), Of(Running, 0, QUIET, 0, false)],
      1, 0, true, 0, Some(1), Some(1), 0, 0, 0)
  }

  lemma ToSecondAnswers()
    requires Reachable(SecondIsPosted())
    ensures Reachable(SecondAnswers())
  {
    TwoUpdates();
    Go3(SecondIsPosted(), SchedulerRuns, ThreadRuns(1), ThreadRuns(1), SecondAnswers());
  }

  /** The scheduler takes the answer and posts the interrupt semaphore. */
  function HandoffCompleted(): State {
    State(FREE, SchedulerProc(SWaitYield, 0), TimerProc(TWaitIsr, 0, QUIET),
      [Of(Running, 0, PARKED, 0, true), Of(Running, 0, QUIET, 0, false)],
      0, 1, true, 0, Some(1), Some(1), 0, 0, 0)
  }

  lemma ToHandoffCompleted()
    requires Reachable(SecondAnswers())
    ensures Reachable(HandoffCompleted())
  {
    TwoUpdates();
    Go3(SecondAnswers(), SchedulerRuns, SchedulerRuns, SchedulerRuns, HandoffCompleted());
  }

  /** The timer passes its wait, and does not get to the mutex yet. */
  function TimerPassesWait(): State {
    State(FREE, SchedulerProc(SWaitYield, 0), TimerProc(TRelock, 0, QUIET),
      [Of(Running, 0, PARKED, 0, true), Of(Running, 0, QUIET, 0, false)],
      0, 0, true, 0, Some(1), Some(1), 0, 0, 0)
  }

  lemma ToTimerPassesWait()
    requires Reachable(HandoffCompleted())
    ensures Reachable(TimerPassesWait())
  {
    TwoUpdates();
    Go(HandoffCompleted(), TimerRuns, TimerPassesWait());
  }

  /** Thread 1 yields at once. */
  function SecondReturns(): State {
    State(FREE, SchedulerProc(SWaitYield, 0), TimerProc(TRelock, 0, QUIET),
      [Of(Running, 0, PARKED, 0, true), Of(RetDrain, 0, QUIET, 0, false)],
      0, 0, true, 0, None, Some(1), 0, 0, 0)
  }

  lemma ToSecondReturns()
    requires Reachable(TimerPassesWait())
    ensures Reachable(SecondReturns())
  {
    TwoUpdates();
    Go3(TimerPassesWait(), CallReturn(1), ThreadRuns(1), ThreadRuns(1), SecondReturns());
  }

  /** It posts for it. */
  function SecondPostsYield(): State {
    State(Mutex(Some(Thread(1)), 1), SchedulerProc(SWaitYield, 0), TimerProc(TRelock, 0, QUIET),
      [Of(Running, 0, PARKED, 0, true), Of(RetPostUnlock, 1, QUIET, 0, false)],
      1, 0, true, 0, None, Some(1), 0, 0, 0)
  }

  lemma ToSecondPostsYield()
    requires Reachable(SecondReturns())
    ensures Reachable(SecondPostsYield())
  {
    TwoUpdates();
    Go3(SecondReturns(), ThreadRuns(1), ThreadRuns(1), ThreadRuns(1), SecondPostsYield());
  }

  /** Thread 1 waits; the scheduler takes the post and chooses it again. */
  function SecondIsChosenAgain(): State {
    State(BY_SCHEDULER, SchedulerProc(STest, 1), TimerProc(TRelock, 0, QUIET),
      [Of(Running, 0, PARKED, 0, true), Of(RetWait, 0, QUIET, 0, false)],
      0, 0, true, 0, None, Some(1), 0, 0, 0)
  }

  lemma ToSecondIsChosenAgain()
    requires Reachable(SecondPostsYield())
    ensures Reachable(SecondIsChosenAgain())
  {
    TwoUpdates();
    Go3(SecondPostsYield(), ThreadRuns(1), SchedulerRuns, SchedulerRuns, SecondIsChosenAgain());
  }

  /** It dispatches it a second time. */
  function SecondIsDispatchedAgain(): State {
    State(BY_SCHEDULER, SchedulerProc(SPostRun, 1), TimerProc(TRelock, 0, QUIET),
      [Of(Running, 0, PARKED, 0, true), Of(RetWait, 0, QUIET, 0, false)],
      0, 0, true, 0, Some(1), Some(1), 0, 0, 0)
  }

  lemma ToSecondIsDispatchedAgain()
    requires Reachable(SecondIsChosenAgain())
    ensures Reachable(SecondIsDispatchedAgain())
  {
    TwoUpdates();
    Go3(SecondIsChosenAgain(), SchedulerRuns, SchedulerRuns, SchedulerRuns, SecondIsDispatchedAgain());
  }

  /** It posts its run semaphore and meets the waiting flag. */
  function SecondIsPostedAgain(): State {
    State(BY_SCHEDULER, SchedulerProc(SWaitWaiting, 1), TimerProc(TRelock, 0, QUIET),
      [Of(Running, 0, PARKED, 0, true), Of(RetWait, 0, QUIET, 1, false)],
      0, 0, true, 0, Some(1), Some(1), 0, 0, 0)
  }

  lemma ToSecondIsPostedAgain()
    requires Reachable(SecondIsDispatchedAgain())
    ensures Reachable(SecondIsPostedAgain())
  {
    TwoUpdates();
    Go2(SecondIsDispatchedAgain(), SchedulerRuns, SchedulerRuns, SecondIsPostedAgain());
  }

  /** Thread 1 answers again. */
  function SecondAnswersAgain(): State {
    State(BY_SCHEDULER, SchedulerProc(SWaitWaiting, 1), TimerProc(TRelock, 0, QUIET),
      [Of(Running, 0, PARKED, 0, true), Of(RetRelock, 0, QUIET, 0, false)],
      1, 0, true, 0, Some(1), Some(1), 0, 0, 0)
  }

  lemma ToSecondAnswersAgain()
    requires Reachable(SecondIsPostedAgain())
    ensures Reachable(SecondAnswersAgain())
  {
    TwoUpdates();
    Go2(SecondIsPostedAgain(), ThreadRuns(1), ThreadRuns(1), SecondAnswersAgain());
  }

  /** The scheduler posts the interrupt semaphore again and lets go. */
  function PostedAgain(): State {
    State(FREE, SchedulerProc(SWaitYield, 0), TimerProc(TRelock, 0, QUIET),
      [Of(Running, 0, PARKED, 0, true), Of(RetRelock, 0, QUIET, 0, false)],
      0, 1, true, 0, Some(1), Some(1), 0, 0, 0)
  }

  lemma ToPostedAgain()
    requires Reachable(SecondAnswersAgain())
    ensures Reachable(PostedAgain())
  {
    TwoUpdates();
    Go3(SecondAnswersAgain(), SchedulerRuns, SchedulerRuns, SchedulerRuns, PostedAgain());
  }

  lemma TwoUpdates()
    ensures forall a: ThreadProc, b: ThreadProc, c: ThreadProc {:trigger [a, b][0 := c]} :: [a, b][0 := c] == [c, b]
    ensures forall a: ThreadProc, b: ThreadProc, c: ThreadProc {:trigger [a, b][1 := c]} :: [a, b][1 := c] == [a, c]
  {
  }

  /** Thread 0 is dispatched. */
  lemma FirstIsDispatched()
    requires Reachable(Start())
    ensures Reachable(FirstRuns())
  {
    ToFirstIsChosen();
    ToFirstIsPosted();
    ToTimerIsAsked();
    ToTimerEntersHandler();
    ToTimerAcknowledged();
    ToTimerIsParked();
    ToParkingIsRead();
    ToFirstAnswers();
    ToFirstIsReleased();
    ToFirstRuns();
  }

  /** A tick preempts it for thread 1. */
  lemma TickPreempts()
    requires Reachable(FirstRuns())
    ensures Reachable(TimerPosts())
  {
    ToTickBegins();
    ToFirstStops();
    ToFirstIsMarked();
    ToCoreChoosesSecond();
    ToFirstIsPreempted();
    ToTimerPosts();
  }

  /** The timer waits until thread 1 has been dispatched. */
  lemma SecondIsDispatched()
    requires Reachable(TimerPosts())
    ensures Reachable(TimerPassesWait())
  {
    ToSecondIsChosen();
    ToSecondIsPosted();
    ToSecondAnswers();
    ToHandoffCompleted();
    ToTimerPassesWait();
  }

  /** Before it has the mutex, thread 1 yields and is dispatched again. */
  lemma SecondOvertakes()
    requires Reachable(TimerPassesWait())
    ensures Reachable(PostedAgain())
  {
    ToSecondReturns();
    ToSecondPostsYield();
    ToSecondIsChosenAgain();
    ToSecondIsDispatchedAgain();
    ToSecondIsPostedAgain();
    ToSecondAnswersAgain();
    ToPostedAgain();
  }

  /** Only now does the timer take the mutex: the semaphore it drains holds a post. */
  function TimerDrains(): State {
    State(BY_TIMER, SchedulerProc(SWaitYield, 0), TimerProc(TDrainIsr, 1, QUIET),
      [Of(Running, 0, PARKED, 0, true), Of(RetRelock, 0, QUIET, 0, false)],
      0, 1, true, 0, Some(1), Some(1), 0, 0, 0)
  }

  lemma StartIsReachable()
    ensures Reachable(Start())
  {
    assert Init(Start()) && Run(Start(), []) == Some(Start());
  }

  lemma ToTimerDrains()
    requires Reachable(PostedAgain())
    ensures Reachable(TimerDrains())
  {
    Go(PostedAgain(), TimerRuns, TimerDrains());
  }

  lemma IsrDrainCanFindPost() returns (s: State)
    ensures Reachable(s) && s.tmr.pc.TDrainIsr? && s.isr > 0
  {
    StartIsReachable();
    FirstIsDispatched();
    TickPreempts();
    SecondIsDispatched();
    SecondOvertakes();
    ToTimerDrains();
    s := TimerDrains();
  }
}
