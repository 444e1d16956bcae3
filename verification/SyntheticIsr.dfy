/** Synthetic interrupt context on Cortex-M: the handler runs inline, behind
    masked interrupts, and each RTOS service it calls is bracketed so that the
    preemption it causes is delivered only after the handler. */
module SyntheticIsr {
  import opened Wrappers

  type Tid = nat

  datatype Core = Core(
    current: Tid,
    execute: Tid,
    systemState: nat,
    preemptDisable: nat,
    primask: bool,        // interrupts masked
    active: bool,         // tm_benchmark_interrupt_active
    pending: bool)        // tm_threadx_benchmark_preemption_pending

  /** `tm_threadx_benchmark_isr_enter`: the new state and the saved mask. */
  function Enter(c: Core): (Core, bool) {
    (c.(primask := true, systemState := c.systemState + 1, preemptDisable := c.preemptDisable + 1), c.primask)
  }

  /** `tm_threadx_benchmark_isr_exit`. */
  function Exit(c: Core, saved: bool): Core
    requires c.systemState > 0 && c.preemptDisable > 0
  {
    var c1 := c.(systemState := c.systemState - 1, preemptDisable := c.preemptDisable - 1);
    var c2 := if c1.current != c1.execute && c1.preemptDisable == 0 then c1.(pending := true) else c1;
    c2.(primask := saved)
  }

  /** The thread that the core chose is switched in and out again: when the caller
      runs once more it is the thread to execute. */
  function SwitchAndReturn(c: Core, pending: bool): Core {
    c.(execute := c.current, pending := pending)
  }

  predicate ToDeliver(c: Core) {
    c.current != c.execute && c.preemptDisable == 0 && c.systemState == 0
  }

  // ----- the call as a process among interrupts and other threads -----

  /** A service is what it makes of the execute pointer. */
  datatype Pc =
    | Entry | Masked
    | Handler(calls: seq<Tid>)
    | Entered(calls: seq<Tid>, saved: bool)
    | Served(calls: seq<Tid>, saved: bool)
    | Cleared | Unmasked | Taken | Returned

  datatype State = State(pc: Pc, core: Core, seen: bool)

  datatype Event = Runs | Interrupt(execute: Tid, pending: bool)

  function Step(s: State, handler: seq<Tid>): Option<State> {
    var c := s.core;
    match s.pc
    case Entry => Some(s.(pc := Masked, core := c.(primask := true)))
    case Masked => Some(s.(pc := Handler(handler), core := c.(active := true)))
    case Handler(calls) =>
      if calls == [] then Some(s.(pc := Cleared, core := c.(active := false)))
      else Some(s.(pc := Entered(calls, Enter(c).1), core := Enter(c).0))
    case Entered(calls, saved) =>
      if calls == [] then None else Some(s.(pc := Served(calls[1..], saved), core := c.(execute := calls[0])))
    case Served(calls, saved) =>
      if c.systemState == 0 || c.preemptDisable == 0 then None
      else Some(s.(pc := Handler(calls), core := Exit(c, saved)))
    case Cleared => Some(s.(pc := Unmasked, core := c.(primask := false)))
    case Unmasked =>
      if !c.pending then Some(s.(pc := Returned)) else Some(s.(pc := Taken, core := c.(pending := false)))
    case Taken => Some(s.(pc := Returned, core := if ToDeliver(c) then SwitchAndReturn(c, c.pending) else c))
    case Returned => None
  }

  /** A real interrupt, when it is not masked, may choose another thread. Unless
      preemption is disabled that thread, and any number of others, run before the
      caller does; `seen` records that they could see the active flag, and what
      they leave in the pending flag is arbitrary. */
  function Next(s: State, e: Event, handler: seq<Tid>): Option<State> {
    match e
    case Runs => Step(s, handler)
    case Interrupt(x, pending) =>
      if s.core.primask then None
      else if s.core.preemptDisable > 0 then Some(s.(core := s.core.(execute := x)))
      else Some(s.(core := SwitchAndReturn(s.core, pending), seen := s.seen || s.core.active))
  }

  /** A thread calls tm_cause_interrupt_sync with interrupts enabled. */
  ghost predicate Init(s: State) {
    s.pc.Entry? && !s.core.primask && !s.core.active && !s.seen
    && (s.core.preemptDisable == 0 ==> s.core.current == s.core.execute)
  }

  /** The counts on entry, plus the bracket the call is in. */
  predicate Bracketed(pc: Pc) {
    pc.Entered? || pc.Served?
  }

  ghost predicate Inv(s: State, c0: Core) {
    && !s.seen && s.core.current == c0.current
    && (s.core.active ==> s.core.primask)
    && s.core.active == (s.pc.Handler? || Bracketed(s.pc))
    && s.core.primask == (s.pc.Masked? || s.pc.Cleared? || s.core.active)
    && (Bracketed(s.pc) ==> s.pc.saved)
    && (s.pc.Entered? ==> s.pc.calls != [])
    && s.core.systemState == c0.systemState + (if Bracketed(s.pc) then 1 else 0)
    && s.core.preemptDisable == c0.preemptDisable + (if Bracketed(s.pc) then 1 else 0)
    && (c0.preemptDisable == 0 && !s.pc.Served? && !s.pc.Taken? && !s.pc.Returned?
        ==> s.core.current == s.core.execute || s.core.pending)
    && (c0.preemptDisable == 0 && c0.systemState == 0 && s.pc.Returned? ==> s.core.current == s.core.execute)
  }

  lemma NextKeepsInv(s: State, e: Event, handler: seq<Tid>, c0: Core)
    requires Inv(s, c0) && Next(s, e, handler).Some?
    ensures Inv(Next(s, e, handler).value, c0)
  {
  }

  ghost predicate Reaches(s: State, es: seq<Event>, handler: seq<Tid>, s1: State)
    decreases |es|
  {
    if es == [] then s1 == s
    else Next(s, es[0], handler).Some? && Reaches(Next(s, es[0], handler).value, es[1..], handler, s1)
  }

  lemma {:induction false} RunKeepsInv(s: State, es: seq<Event>, handler: seq<Tid>, s1: State, c0: Core)
    requires Inv(s, c0) && Reaches(s, es, handler, s1)
    ensures Inv(s1, c0)
    decreases |es|
  {
    if es == [] {
    } else {
      NextKeepsInv(s, es[0], handler, c0);
      RunKeepsInv(Next(s, es[0], handler).value, es[1..], handler, s1, c0);
    }
  }

  /** Whatever interrupts arrive, no other thread ever sees the active flag, for it
      is set only behind the mask. */
  lemma FlagIsNeverSeen(s0: State, es: seq<Event>, handler: seq<Tid>, s: State)
    requires Init(s0) && Reaches(s0, es, handler, s)
    ensures !s.seen && (s.core.active ==> s.core.primask)
  {
    RunKeepsInv(s0, es, handler, s, s0.core);
  }

  /** When the call returns, the counts are what they were, interrupts are enabled,
      and no preemption is left undelivered unless preemption was disabled, or an
      interrupt was in progress, when it was made. */
  lemma CallDelivers(s0: State, es: seq<Event>, handler: seq<Tid>, s: State)
    requires Init(s0) && Reaches(s0, es, handler, s) && s.pc.Returned?
    ensures s.core.systemState == s0.core.systemState && s.core.preemptDisable == s0.core.preemptDisable
    ensures !s.core.primask && !s.core.active
    ensures s0.core.preemptDisable == 0 && s0.core.systemState == 0 ==> s.core.execute == s.core.current
  {
    RunKeepsInv(s0, es, handler, s, s0.core);
  }

  /** The call never gets stuck before it returns. */
  lemma CallProceeds(s0: State, es: seq<Event>, handler: seq<Tid>, s: State)
    requires Init(s0) && Reaches(s0, es, handler, s) && !s.pc.Returned?
    ensures Step(s, handler).Some?
  {
    RunKeepsInv(s0, es, handler, s, s0.core);
  }

  /** A real interrupt can come now and let another thread see the active flag. */
  ghost predicate FlagCanBeSeen(s: State, handler: seq<Tid>) {
    exists x: Tid, pending: bool ::
      var r := Next(s, Interrupt(x, pending), handler); r.Some? && r.value.seen
  }

  /** Why the exit restores the mask it saved. Take any state, in any run, in which a
      service called by the handler is about to leave its bracket, and an exit that
      leaves the interrupt mask at `mask`: another thread can then see the active flag
      if and only if `mask` is clear and preemption was enabled when the call was made.
      The code's exit leaves the mask set. */
  lemma FlagSeenIffUnmasked(s0: State, es: seq<Event>, handler: seq<Tid>, s: State, mask: bool)
    requires Init(s0) && Reaches(s0, es, handler, s) && s.pc.Served?
    ensures s.core.systemState > 0 && s.core.preemptDisable > 0
    ensures Step(s, handler) == Some(s.(pc := Handler(s.pc.calls), core := Exit(s.core, true)))
    ensures FlagCanBeSeen(s.(pc := Handler(s.pc.calls), core := Exit(s.core, mask)), handler)
      <==> !mask && s0.core.preemptDisable == 0
  {
    RunKeepsInv(s0, es, handler, s, s0.core);
    var s1 := s.(pc := Handler(s.pc.calls), core := Exit(s.core, mask));
    if !mask && s0.core.preemptDisable == 0 {
      var r := Next(s1, Interrupt(0, false), handler);
      assert r.Some? && r.value.seen;
    }
  }

  // ----- the code itself, without interference -----

  /** One bracketed service. */
  function Service(c: Core, x: Tid): Core {
    Exit(Enter(c).0.(execute := x), Enter(c).1)
  }

  function Services(c: Core, calls: seq<Tid>): Core
    decreases |calls|
  {
    if calls == [] then c else Services(Service(c, calls[0]), calls[1..])
  }

  function SyncComplete(c: Core): Core {
    if !c.pending then c
    else
      var c1 := c.(pending := false);
      if ToDeliver(c1) then SwitchAndReturn(c1, false) else c1
  }

  function SyncCall(c: Core, handler: seq<Tid>): Core {
    SyncComplete(Services(c.(primask := true, active := true), handler).(active := false, primask := false))
  }

  /** A handler changes nothing but the execute pointer and the pending flag, and
      the last preemption it caused is on record. */
  lemma {:induction false} ServicesOnlyRecord(c: Core, calls: seq<Tid>)
    ensures var r := Services(c, calls);
      && r == c.(execute := r.execute, pending := r.pending)
      && r.execute == (if calls == [] then c.execute else calls[|calls| - 1])
      && (c.pending ==> r.pending)
      && (calls != [] && c.preemptDisable == 0 && r.execute != c.current ==> r.pending)
    decreases |calls|
  {
    if calls == [] {
    } else {
      ServicesOnlyRecord(Service(c, calls[0]), calls[1..]);
      assert |calls| > 1 ==> calls[1..][|calls| - 2] == calls[|calls| - 1];
    }
  }

  /** The thread that the core wants after the handler's services. */
  function LastChoice(c: Core, handler: seq<Tid>): Tid {
    if handler == [] then c.execute else handler[|handler| - 1]
  }

  /** What the caller finds after an uninterrupted call, whatever it called it with:
      interrupts enabled, the flag clear, nothing pending, the counts as before, the same
      thread; and a thread that the core chose has run, unless nothing asked for a
      preemption or something holds it back. */
  lemma SyncCallDelivers(c: Core, handler: seq<Tid>)
    ensures var r := SyncCall(c, handler);
      && !r.primask && !r.active && !r.pending && r.current == c.current
      && r.systemState == c.systemState && r.preemptDisable == c.preemptDisable
      && r.execute == if c.preemptDisable == 0 && c.systemState == 0 && (c.pending || handler != [])
                      then c.current else LastChoice(c, handler)
  {
    ServicesOnlyRecord(c.(primask := true, active := true), handler);
  }

  // ----- the process, left alone, is the code -----

  ghost predicate AllRuns(es: seq<Event>) {
    forall i :: 0 <= i < |es| ==> es[i].Runs?
  }

  lemma {:induction false} ReachesConcat(s: State, es: seq<Event>, fs: seq<Event>, handler: seq<Tid>, s1: State,
    s2: State)
    requires Reaches(s, es, handler, s1) && Reaches(s1, fs, handler, s2)
    ensures Reaches(s, es + fs, handler, s2)
    decreases |es|
  {
    if es == [] {
      assert es + fs == fs;
    } else {
      assert (es + fs)[1..] == es[1..] + fs;
      ReachesConcat(Next(s, es[0], handler).value, es[1..], fs, handler, s1, s2);
    }
  }

  lemma StepReaches(s: State, handler: seq<Tid>, s1: State)
    requires Step(s, handler) == Some(s1)
    ensures Reaches(s, [Runs], handler, s1)
  {
    assert [Runs][1..] == [];
  }

  lemma OneService(s: State, handler: seq<Tid>, s1: State)
    requires s.pc.Handler? && s.pc.calls != []
    requires s1 == s.(pc := Handler(s.pc.calls[1..]), core := Service(s.core, s.pc.calls[0]))
    ensures Reaches(s, [Runs, Runs, Runs], handler, s1)
  {
    var calls, saved := s.pc.calls, Enter(s.core).1;
    var a := s.(pc := Entered(calls, saved), core := Enter(s.core).0);
    var b := s.(pc := Served(calls[1..], saved), core := Enter(s.core).0.(execute := calls[0]));
    StepReaches(s, handler, a);
    StepReaches(a, handler, b);
    StepReaches(b, handler, s1);
    ReachesConcat(s, [Runs], [Runs], handler, a, b);
    ReachesConcat(s, [Runs] + [Runs], [Runs], handler, b, s1);
    assert [Runs] + [Runs] + [Runs] == [Runs, Runs, Runs];
  }

  lemma {:induction false} HandlerRuns(s: State, handler: seq<Tid>) returns (es: seq<Event>)
    requires s.pc.Handler?
    ensures AllRuns(es)
    ensures Reaches(s, es, handler, s.(pc := Handler([]), core := Services(s.core, s.pc.calls)))
    decreases |s.pc.calls|
  {
    if s.pc.calls == [] {
      es := [];
    } else {
      var s1 := s.(pc := Handler(s.pc.calls[1..]), core := Service(s.core, s.pc.calls[0]));
      OneService(s, handler, s1);
      var rest := HandlerRuns(s1, handler);
      ReachesConcat(s, [Runs, Runs, Runs], rest, handler, s1,
        s.(pc := Handler([]), core := Services(s.core, s.pc.calls)));
      es := [Runs, Runs, Runs] + rest;
    }
  }

  /** From the end of the handler to the return of the call. */
  lemma HandlerReturns(s: State, handler: seq<Tid>) returns (es: seq<Event>)
    requires s.pc == Handler([])
    ensures AllRuns(es)
    ensures Reaches(s, es, handler,
      s.(pc := Returned, core := SyncComplete(s.core.(active := false, primask := false))))
  {
    var a := s.(pc := Cleared, core := s.core.(active := false));
    var b := s.(pc := Unmasked, core := s.core.(active := false, primask := false));
    var last := s.(pc := Returned, core := SyncComplete(b.core));
    StepReaches(s, handler, a);
    StepReaches(a, handler, b);
    ReachesConcat(s, [Runs], [Runs], handler, a, b);
    if b.core.pending {
      var d := b.(pc := Taken, core := b.core.(pending := false));
      StepReaches(b, handler, d);
      StepReaches(d, handler, last);
      ReachesConcat(b, [Runs], [Runs], handler, d, last);
      es := [Runs] + [Runs] + ([Runs] + [Runs]);
    } else {
      StepReaches(b, handler, last);
      es := [Runs] + [Runs] + [Runs];
    }
    ReachesConcat(s, [Runs] + [Runs], es[2..], handler, b, last);
    assert es == [Runs] + [Runs] + es[2..];
  }

  /** Left alone, the process that the interrupts interrupt runs from its entry to its
      return and does there exactly what the code does. */
  lemma UninterruptedCallReturns(s: State, handler: seq<Tid>) returns (es: seq<Event>)
    requires s.pc.Entry?
    ensures AllRuns(es)
    ensures Reaches(s, es, handler, s.(pc := Returned, core := SyncCall(s.core, handler)))
  {
    var a := s.(pc := Masked, core := s.core.(primask := true));
    var b := s.(pc := Handler(handler), core := s.core.(primask := true, active := true));
    var d := s.(pc := Handler([]), core := Services(b.core, handler));
    var last := s.(pc := Returned, core := SyncCall(s.core, handler));
    StepReaches(s, handler, a);
    StepReaches(a, handler, b);
    ReachesConcat(s, [Runs], [Runs], handler, a, b);
    var fs := HandlerRuns(b, handler);
    var gs := HandlerReturns(d, handler);
    ReachesConcat(b, fs, gs, handler, d, last);
    ReachesConcat(s, [Runs] + [Runs], fs + gs, handler, b, last);
    es := [Runs] + [Runs] + (fs + gs);
  }

  class Port {
    var current: Tid
    var execute: Tid
    var systemState: nat
    var preemptDisable: nat
    var primask: bool
    var active: bool
    var pending: bool

    function View(): Core
      reads this
    {
      Core(current, execute, systemState, preemptDisable, primask, active, pending)
    }

    method IsrEnter() returns (saved: bool)
      modifies this
      ensures (View(), saved) == Enter(old(View()))
    {
      saved := primask;
      primask := true;
      systemState := systemState + 1;
      preemptDisable := preemptDisable + 1;
    }

    method IsrExit(saved: bool)
      requires systemState > 0 && preemptDisable > 0
      modifies this
      ensures View() == Exit(old(View()), saved)
    {
      preemptDisable := preemptDisable - 1;
      systemState := systemState - 1;
      if current != execute && preemptDisable == 0 {
        pending := true;
      }
      primask := saved;
    }

    /** tm_thread_resume or tm_semaphore_put from the handler, after which the core
        wants thread `x` to run. */
    method BracketedService(x: Tid)
      modifies this
      ensures systemState == old(systemState) && preemptDisable == old(preemptDisable)
      ensures primask == old(primask) && active == old(active) && current == old(current)
      ensures execute == x
      ensures pending <==> old(pending) || (x != current && preemptDisable == 0)
      ensures View() == Service(old(View()), x)
    {
      var saved := IsrEnter();
      execute := x;
      IsrExit(saved);
    }

    method BenchmarkSyncComplete()
      modifies this
      ensures !pending && current == old(current) && systemState == old(systemState)
      ensures preemptDisable == old(preemptDisable) && primask == old(primask) && active == old(active)
      ensures execute == if old(pending) && preemptDisable == 0 && systemState == 0 then current else old(execute)
      ensures View() == SyncComplete(old(View()))
    {
      if !pending { return; }
      pending := false;
      if current != execute && preemptDisable == 0 && systemState == 0 {
        // _tx_thread_system_return: other threads run, then this one again
        execute := current;
      }
    }

    method CauseInterruptSync(handler: seq<Tid>)
      modifies this
      ensures !primask && !active && !pending && current == old(current)
      ensures systemState == old(systemState) && preemptDisable == old(preemptDisable)
      ensures execute == if preemptDisable == 0 && systemState == 0 && (old(pending) || handler != [])
                         then current else LastChoice(old(View()), handler)
      ensures View() == SyncCall(old(View()), handler)
    {
      SyncCallDelivers(View(), handler);
      primask := true;
      active := true;
      ghost var c := View();
      var i := 0;
      while i < |handler|
        invariant 0 <= i <= |handler|
        invariant Services(View(), handler[i..]) == Services(c, handler)
      {
        BracketedService(handler[i]);
        assert handler[i..][1..] == handler[i + 1..];
        i := i + 1;
      }
      active := false;
      primask := false;
      BenchmarkSyncComplete();
    }
  }
}
