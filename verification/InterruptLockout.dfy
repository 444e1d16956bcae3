/** Interrupt lockout on the POSIX host: disable and restore through a recursive
    mutex whose depth is counted by hand, on behalf of one pthread. */
module InterruptLockout {
  import opened InterruptPosture

  /** The recursion depth of the mutex as this pthread holds it, the hand-kept
      count beside it, and what interrupt control reads and writes. */
  datatype Cpu = Cpu(
    depth: nat,
    count: nat,
    systemState: nat,
    current: bool,        // there is a current thread
    globalFlag: bool,     // _tx_posix_global_int_disabled_flag
    threadFlag: bool)     // tx_thread_posix_int_disabled_flag of the current thread

  function Lock(c: Cpu): Cpu {
    c.(depth := c.depth + 1, count := c.count + 1)
  }

  function Unlock(c: Cpu): Cpu
    requires c.depth > 0 && c.count > 0
  {
    c.(depth := c.depth - 1, count := c.count - 1)
  }

  /** As many unlocks as the hand-kept count says. */
  function UnlockAll(c: Cpu): Cpu
    requires c.count <= c.depth
  {
    c.(depth := c.depth - c.count, count := 0)
  }

  function SetFlag(c: Cpu, disabled: bool): Cpu {
    if c.systemState > 0 then c.(globalFlag := disabled)
    else if c.current then c.(threadFlag := disabled)
    else c
  }

  /** `_tx_thread_interrupt_control`: the new state and the old posture. */
  function Control(c: Cpu, posture: Posture): (Cpu, Posture)
    requires c.count <= c.depth
  {
    var c1 := Lock(c);
    var was := if c1.count == 1 then Enable else Disable;
    if c1.systemState == 0 && !c1.current then (c1, was)
    else if posture == Enable then (UnlockAll(SetFlag(c1, false)), was)
    else (SetFlag(c1, true), was)
  }

  // ----- properly nested disable / restore -----

  /** Section(body, rest): disable, run `body`, restore the posture that disable
      returned, go on with `rest`. */
  datatype Calls = Done | Section(body: Calls, rest: Calls)

  function Sections(calls: Calls): nat {
    match calls
    case Done => 0
    case Section(body, rest) => 1 + Sections(body) + Sections(rest)
  }

  predicate InStep(c: Cpu) {
    c.depth == c.count && (c.systemState > 0 || c.current)
  }

  function Exec(c: Cpu, calls: Calls): (r: Cpu)
    requires InStep(c)
    ensures InStep(r)
    decreases calls
  {
    match calls
    case Done => c
    case Section(body, rest) =>
      var (c1, was) := Control(c, Disable);
      var c2 := Exec(c1, body);
      Exec(Control(c2, was).0, rest)
  }

  /** The postures the disable calls return, in call order. */
  function Returned(c: Cpu, calls: Calls): seq<Posture>
    requires InStep(c)
    decreases calls
  {
    match calls
    case Done => []
    case Section(body, rest) =>
      var (c1, was) := Control(c, Disable);
      [was] + Returned(c1, body) + Returned(Control(Exec(c1, body), was).0, rest)
  }

  /** Enable for the sections at nesting depth 0, Disable for all others. */
  function ByNesting(outermost: bool, calls: Calls): seq<Posture> {
    match calls
    case Done => []
    case Section(body, rest) =>
      [if outermost then Enable else Disable] + ByNesting(false, body) + ByNesting(outermost, rest)
  }

  /** The mutex is held in every state the calls go through. */
  predicate AlwaysHeld(c: Cpu, calls: Calls)
    requires InStep(c)
    decreases calls
  {
    c.depth > 0 &&
    match calls
    case Done => true
    case Section(body, rest) =>
      var (c1, was) := Control(c, Disable);
      AlwaysHeld(c1, body) && AlwaysHeld(Control(Exec(c1, body), was).0, rest)
  }

  /** Within each outermost section the mutex is held in every state. */
  predicate HeldInside(c: Cpu, calls: Calls)
    requires InStep(c)
    decreases calls
  {
    match calls
    case Done => true
    case Section(body, rest) =>
      var (c1, was) := Control(c, Disable);
      AlwaysHeld(c1, body) && HeldInside(Control(Exec(c1, body), was).0, rest)
  }

  /** The posture flag that calls in this state write, and the one they leave alone:
      the global flag inside a tick, else that of the current thread. */
  predicate OwnFlag(c: Cpu) {
    if c.systemState > 0 then c.globalFlag else c.threadFlag
  }

  predicate OtherFlag(c: Cpu) {
    if c.systemState > 0 then c.threadFlag else c.globalFlag
  }

  /** Calls change nothing but the lock count, the depth and their own flag: a tick does
      not touch the flag of the thread it interrupts. */
  ghost predicate SameButLocks(c: Cpu, c1: Cpu) {
    c1.systemState == c.systemState && c1.current == c.current && OtherFlag(c1) == OtherFlag(c)
  }

  /** The flag says "disabled" in every state the calls go through. */
  predicate AlwaysFlagged(c: Cpu, calls: Calls)
    requires InStep(c)
    decreases calls
  {
    OwnFlag(c) &&
    match calls
    case Done => true
    case Section(body, rest) =>
      var (c1, was) := Control(c, Disable);
      AlwaysFlagged(c1, body) && AlwaysFlagged(Control(Exec(c1, body), was).0, rest)
  }

  /** It does all through every section, nested ones included. */
  predicate FlaggedInside(c: Cpu, calls: Calls)
    requires InStep(c)
    decreases calls
  {
    match calls
    case Done => true
    case Section(body, rest) =>
      var (c1, was) := Control(c, Disable);
      AlwaysFlagged(c1, body) && FlaggedInside(Control(Exec(c1, body), was).0, rest)
  }

  /** Inside a section nothing clears the flag. */
  lemma {:induction false} InnerCallsKeepFlag(c: Cpu, calls: Calls)
    requires InStep(c) && c.count > 0 && OwnFlag(c)
    ensures AlwaysFlagged(c, calls) && OwnFlag(Exec(c, calls))
    decreases calls
  {
    match calls
    case Done =>
    case Section(body, rest) =>
      var (c1, was) := Control(c, Disable);
      InnerCallsOnlyAdd(c1, body);
      InnerCallsKeepFlag(c1, body);
      InnerCallsKeepFlag(Control(Exec(c1, body), was).0, rest);
  }

  /** All through every section the flag is set, for every tree of calls and whether or
      not the mutex is held around it. */
  lemma {:induction false} SectionsAreFlagged(c: Cpu, calls: Calls)
    requires InStep(c)
    ensures FlaggedInside(c, calls)
    decreases calls
  {
    match calls
    case Done =>
    case Section(body, rest) =>
      var (c1, was) := Control(c, Disable);
      InnerCallsKeepFlag(c1, body);
      SectionsAreFlagged(Control(Exec(c1, body), was).0, rest);
  }

  /** Inside a section, disable and restore only ever add to the count, two for
      each section, and every disable reports that interrupts were disabled. */
  lemma {:induction false} InnerCallsOnlyAdd(c: Cpu, calls: Calls)
    requires InStep(c) && c.count > 0
    ensures Exec(c, calls).count == c.count + 2 * Sections(calls)
    ensures SameButLocks(c, Exec(c, calls))
    ensures AlwaysHeld(c, calls)
    ensures Returned(c, calls) == ByNesting(false, calls)
    decreases calls
  {
    match calls
    case Done =>
    case Section(body, rest) =>
      var (c1, was) := Control(c, Disable);
      InnerCallsOnlyAdd(c1, body);
      InnerCallsOnlyAdd(Control(Exec(c1, body), was).0, rest);
  }

  lemma DisableTakesLock(c: Cpu)
    requires InStep(c)
    ensures var (c1, was) := Control(c, Disable);
      InStep(c1) && c1.count == c.count + 1 && SameButLocks(c, c1) && (was == Enable <==> c.count == 0)
  {
  }

  lemma EnableGivesBack(c: Cpu)
    requires InStep(c)
    ensures var c1 := Control(c, Enable).0;
      c1.count == 0 && c1.depth == 0 && SameButLocks(c, c1) && !OwnFlag(c1)
  {
  }

  /** One outermost section: it is told Enable, and its restore undoes everything. */
  lemma OutermostSection(c: Cpu, body: Calls)
    requires InStep(c) && c.count == 0
    ensures var (c1, was) := Control(c, Disable);
      && was == Enable && AlwaysHeld(c1, body) && Returned(c1, body) == ByNesting(false, body)
      && var c2 := Control(Exec(c1, body), was).0;
         c2.count == 0 && c2.depth == 0 && SameButLocks(c, c2) && !OwnFlag(c2)
  {
    var c1 := Control(c, Disable).0;
    DisableTakesLock(c);
    InnerCallsOnlyAdd(c1, body);
    EnableGivesBack(Exec(c1, body));
  }

  /** Started with interrupts enabled, every properly nested tree of calls returns
      Enable exactly to its outermost disable calls, holds the mutex throughout
      each outermost section, and ends with the mutex free and interrupts enabled. */
  lemma {:induction false} NestedLockout(c: Cpu, calls: Calls)
    requires InStep(c) && c.count == 0
    ensures Exec(c, calls).count == 0 && Exec(c, calls).depth == 0
    ensures SameButLocks(c, Exec(c, calls))
    ensures Returned(c, calls) == ByNesting(true, calls)
    ensures HeldInside(c, calls)
    ensures calls.Section? ==>
      if c.systemState > 0 then !Exec(c, calls).globalFlag else !Exec(c, calls).threadFlag
    decreases calls
  {
    match calls
    case Done =>
    case Section(body, rest) =>
      var (c1, was) := Control(c, Disable);
      OutermostSection(c, body);
      NestedLockout(Control(Exec(c1, body), was).0, rest);
  }

  // ----- a complete tick -----

  /** The mutex operations of `_tx_timer_interrupt` around its expiration
      processing. */
  function TimerInterrupt(c: Cpu, calls: Calls): (r: Cpu)
    requires InStep(c) && c.systemState > 0
    ensures InStep(r) && SameButLocks(c, r)
    ensures r.count == c.count + 2 * Sections(calls)
  {
    InnerCallsOnlyAdd(Lock(c), calls);
    Unlock(Exec(Lock(c), calls))
  }

  /** How `_tx_thread_context_restore` ends: it finds nobody to preempt, or it
      preempts, and then it waits for the handoff or not. */
  datatype Ending = Resumes | Preempts(waits: bool)

  /** The state in which it waits for the handoff. */
  function AtWait(c: Cpu): Cpu
    requires c.count <= c.depth && c.systemState > 0
  {
    UnlockAll(Lock(c).(systemState := c.systemState - 1, current := false))
  }

  /** Its mutex operations. */
  function ContextRestore(c: Cpu, ending: Ending): (r: Cpu)
    requires c.count <= c.depth && c.systemState > 0
    ensures r.count == 0 && r.depth == c.depth - c.count && r.systemState == c.systemState - 1
    ensures r.threadFlag == c.threadFlag && r.globalFlag == c.globalFlag
    ensures r.current <==> c.current && ending.Resumes?
  {
    var c1 := Lock(c).(systemState := c.systemState - 1);
    match ending
    case Resumes => UnlockAll(c1)
    case Preempts(waits) =>
      if waits then UnlockAll(Lock(AtWait(c))) else UnlockAll(c1.(current := false))
  }

  predicate MutexLetGo(c: Cpu) {
    c.depth == 0 && c.count == 0
  }

  lemma RestoreReleases(c: Cpu, ending: Ending)
    requires InStep(c) && c.systemState == 1
    ensures MutexLetGo(ContextRestore(c, ending)) && ContextRestore(c, ending).systemState == 0
    ensures MutexLetGo(AtWait(c))
  {
  }

  lemma SomeSection(calls: Calls)
    ensures Sections(calls) > 0 <==> calls.Section?
  {
  }

  /** Whatever expiration processing nests and however the tick ends, it ends with
      the timer's count at 0. Between its two halves the timer keeps the mutex
      exactly when something was nested, although it has called unlock. Where it
      waits for the handoff it has let the mutex go. */
  lemma CompleteTick(c: Cpu, calls: Calls, ending: Ending)
    requires c.depth == 0 && c.count == 0 && c.systemState == 1
    ensures TimerInterrupt(c, calls).depth > 0 <==> calls.Section?
    ensures TimerInterrupt(c, calls).systemState == 1
    ensures var r := ContextRestore(TimerInterrupt(c, calls), ending); MutexLetGo(r) && r.systemState == 0
    ensures MutexLetGo(AtWait(TimerInterrupt(c, calls)))
    ensures ContextRestore(TimerInterrupt(c, calls), ending).threadFlag == c.threadFlag
  {
    SomeSection(calls);
    RestoreReleases(TimerInterrupt(c, calls), ending);
  }

  /** Nothing nested in a tick is told that interrupts are enabled. */
  lemma TickReportsDisabled(c: Cpu, calls: Calls)
    requires InStep(c) && c.systemState > 0
    ensures Returned(Lock(c), calls) == ByNesting(false, calls) && AlwaysHeld(Lock(c), calls)
  {
    InnerCallsOnlyAdd(Lock(c), calls);
  }

  // ----- the code itself -----

  class Port {
    var depth: nat
    var count: nat
    var systemState: nat
    var current: bool
    var globalFlag: bool
    var threadFlag: bool

    function State(): Cpu
      reads this
    {
      Cpu(depth, count, systemState, current, globalFlag, threadFlag)
    }

    constructor (systemState: nat, current: bool)
      ensures State() == Cpu(0, 0, systemState, current, false, false)
    {
      depth, count := 0, 0;
      this.systemState, this.current := systemState, current;
      globalFlag, threadFlag := false, false;
    }

    method MutexLock()
      modifies this
      ensures State() == Lock(old(State()))
    {
      depth := depth + 1;
      count := count + 1;
    }

    method MutexUnlock()
      requires depth > 0 && count > 0
      modifies this
      ensures State() == Unlock(old(State()))
    {
      count := count - 1;
      depth := depth - 1;
    }

    method MutexRecursiveUnlock()
      requires count <= depth
      modifies this
      ensures State() == UnlockAll(old(State()))
    {
      var rc := count;
      while rc > 0
        invariant rc == count <= depth
        invariant depth - count == old(depth) - old(count)
        invariant State() == old(State()).(depth := depth, count := count)
      {
        count := count - 1;
        depth := depth - 1;
        rc := rc - 1;
      }
    }

    method InterruptControl(newPosture: Posture) returns (oldPosture: Posture)
      requires count <= depth
      modifies this
      ensures (State(), oldPosture) == Control(old(State()), newPosture)
      ensures oldPosture == Enable <==> old(count) == 0
      ensures if newPosture == Enable && (systemState > 0 || current)
        then count == 0 && depth == old(depth) - old(count)
        else count == old(count) + 1 && depth == old(depth) + 1
      ensures systemState == old(systemState) && current == old(current)
      ensures globalFlag == (if systemState > 0 then newPosture == Disable else old(globalFlag))
      ensures threadFlag == (if systemState == 0 && current then newPosture == Disable else old(threadFlag))
    {
      MutexLock();
      oldPosture := if count == 1 then Enable else Disable;
      if systemState > 0 {
        if newPosture == Enable {
          globalFlag := false;
          MutexRecursiveUnlock();
        } else {
          globalFlag := true;
        }
      } else if current {
        if newPosture == Enable {
          threadFlag := false;
          MutexRecursiveUnlock();
        } else {
          threadFlag := true;
        }
      }
    }

    /** Any properly nested client code. */
    method Client(calls: Calls)
      requires InStep(State())
      modifies this
      ensures State() == Exec(old(State()), calls)
      decreases calls
    {
      match calls
      case Done =>
      case Section(body, rest) =>
        var posture := InterruptControl(Disable);
        Client(body);
        var _ := InterruptControl(posture);
        Client(rest);
    }

    /** `_tx_timer_interrupt`. */
    method TickBody(calls: Calls)
      requires InStep(State()) && systemState > 0
      modifies this
      ensures State() == TimerInterrupt(old(State()), calls)
    {
      InnerCallsOnlyAdd(Lock(State()), calls);
      MutexLock();
      Client(calls);
      MutexUnlock();
    }

    /** `_tx_thread_context_restore`; the wait for the handoff is where it lets go
        of the mutex in between. */
    method Restore(ending: Ending)
      requires count <= depth && systemState > 0
      modifies this
      ensures State() == ContextRestore(old(State()), ending)
      ensures count == 0 && systemState == old(systemState) - 1 && threadFlag == old(threadFlag)
      ensures current <==> old(current) && ending.Resumes?
    {
      MutexLock();
      systemState := systemState - 1;
      if ending.Preempts? {
        current := false;
        if ending.waits {
          MutexRecursiveUnlock();
          MutexLock();
        }
      }
      MutexRecursiveUnlock();
    }

    /** A complete tick always ends with the lock count at 0. */
    method Tick(calls: Calls, ending: Ending)
      requires depth == 0 && count == 0 && systemState == 1
      modifies this
      ensures count == 0 && depth == 0 && systemState == 0 && threadFlag == old(threadFlag)
      ensures current <==> old(current) && ending.Resumes?
    {
      TickBody(calls);
      assert InStep(State()) && systemState == 1;
      Restore(ending);
    }
  }
}
