/** The two interrupt benchmarks, under strict priority and the contract of the
    trap: the handler runs before the call that caused it returns. */
module InterruptPreemptionTest {
  import opened Wrappers
  import opened Tolerance

  /** Thread 1 causes the interrupt, sits under the handler, and then counts. */
  datatype LowPc = Cause | HandlerLoad | HandlerStore | HandlerResume | Load | Store

  datatype HighPc = HighLoad | HighStore | HighSuspend

  /** counters and done hold c0, c1 and the handler's count, in this order. */
  datatype State = State(
    low: LowPc, high: HighPc, highReady: bool,
    lowRegister: nat, highRegister: nat, handlerRegister: nat,
    counters: seq<nat>, done: seq<nat>,
    reporter: Reporter, complained: bool)

  datatype Event = MachineRuns | ReporterRuns | ReporterWakes

  predicate InHandler(s: State) {
    s.low.HandlerLoad? || s.low.HandlerStore? || s.low.HandlerResume?
  }

  function Count(s: State, k: nat, register: nat, m: nat): State
    requires |s.counters| == 3 && |s.done| == 3 && k < 3 && m > 0
  {
    s.(counters := s.counters[k := (register + 1) % m], done := s.done[k := s.done[k] + 1])
  }

  /** Above the threads, the handler; above thread 1, thread 0 when it is ready. */
  function MachineStep(s: State, m: nat): State
    requires |s.counters| == 3 && |s.done| == 3 && m > 0
  {
    if s.highReady && !InHandler(s) then
      match s.high
      case HighLoad => s.(highRegister := s.counters[0], high := HighStore)
      case HighStore => Count(s, 0, s.highRegister, m).(high := HighSuspend)
      case HighSuspend => s.(highReady := false, high := HighLoad)
    else
      match s.low
      case Cause => s.(low := HandlerLoad)
      case HandlerLoad => s.(handlerRegister := s.counters[2], low := HandlerStore)
      case HandlerStore => Count(s, 2, s.handlerRegister, m).(low := HandlerResume)
      case HandlerResume => s.(highReady := true, low := Load)
      case Load => s.(lowRegister := s.counters[1], low := Store)
      case Store => Count(s, 1, s.lowRegister, m).(low := Cause)
  }

  /** The reporter preempts the threads, not the handler. */
  function Next(s: State, e: Event, m: nat): Option<State>
    requires |s.counters| == 3 && |s.done| == 3 && m > 0
  {
    match e
    case ReporterWakes => if s.reporter.Asleep? then Some(s.(reporter := Reading([]))) else None
    case ReporterRuns =>
      if s.reporter.Asleep? || InHandler(s) then None
      else
        var (r, complains) := ReporterStep(s.reporter, s.counters, m);
        Some(s.(reporter := r, complained := s.complained || complains))
    case MachineRuns => if s.reporter.Reading? && !InHandler(s) then None else Some(MachineStep(s, m))
  }

  ghost predicate Init(s: State) {
    && s.low.Cause? && s.high.HighLoad? && !s.highReady
    && s.counters == [0, 0, 0] && s.done == [0, 0, 0] && s.reporter == Asleep && !s.complained
  }

  /** What has been counted once in the trap under way: (thread 0, handler). */
  function Ahead(s: State): (nat, nat) {
    if s.low.Cause? || s.low.HandlerLoad? || s.low.HandlerStore? then (0, 0)
    else if s.highReady && !s.high.HighSuspend? then (0, 1)
    else if s.low.HandlerResume? then (0, 1)
    else (1, 1)
  }

  ghost predicate Inv(s: State, m: nat) {
    && m >= 6 && |s.counters| == 3 && |s.done| == 3
    && Words(s.counters, s.done, m)
    && s.done[0] == s.done[1] + Ahead(s).0 && s.done[2] == s.done[1] + Ahead(s).1
    && (s.highReady ==> s.low.Load?)
    && (!s.highReady ==> s.high.HighLoad?)
    && (s.low.HandlerStore? ==> s.handlerRegister == s.counters[2])
    && (s.low.Store? ==> s.lowRegister == s.counters[1])
    && (s.high.HighStore? ==> s.highRegister == s.counters[0])
    && (s.reporter.Reading? && s.reporter.snapshot != [] ==> !InHandler(s))
    && SnapshotInv(s.reporter, s.counters)
    && (s.complained ==> Sum(s.done) >= m)
  }

  lemma CountKeepsWords(s: State, k: nat, register: nat, m: nat)
    requires |s.counters| == 3 && |s.done| == 3 && k < 3 && m > 0
    requires Words(s.counters, s.done, m) && register == s.counters[k]
    ensures Words(Count(s, k, register, m).counters, Count(s, k, register, m).done, m)
    ensures Sum(Count(s, k, register, m).done) == Sum(s.done) + 1
  {
    AddMod(s.done[k], 1, m);
    SumIncrement(s.done, k);
  }

  lemma HighKeepsInv(s: State, m: nat)
    requires Inv(s, m) && Next(s, MachineRuns, m).Some?
    requires s.highReady && !InHandler(s)
    ensures Inv(MachineStep(s, m), m)
  {
    CountKeepsWords(s, 0, s.counters[0], m);
    CountKeepsWords(s, 1, s.counters[1], m);
    CountKeepsWords(s, 2, s.counters[2], m);
  }

  lemma LowKeepsInv(s: State, m: nat)
    requires Inv(s, m) && Next(s, MachineRuns, m).Some?
    requires !s.highReady || InHandler(s)
    ensures Inv(MachineStep(s, m), m)
  {
    CountKeepsWords(s, 0, s.counters[0], m);
    CountKeepsWords(s, 1, s.counters[1], m);
    CountKeepsWords(s, 2, s.counters[2], m);
  }

  lemma MachineKeepsInv(s: State, m: nat)
    requires Inv(s, m) && Next(s, MachineRuns, m).Some?
    ensures Inv(MachineStep(s, m), m)
  {
    if s.highReady && !InHandler(s) {
      HighKeepsInv(s, m);
    } else {
      LowKeepsInv(s, m);
    }
  }

  lemma ReporterKeepsInv(s: State, e: Event, m: nat)
    requires Inv(s, m) && !e.MachineRuns? && Next(s, e, m).Some?
    ensures Inv(Next(s, e, m).value, m)
  {
    if e.ReporterRuns? {
      assert Within1(s.done, s.done[1]);
      ReporterIsSound(s.reporter, s.counters, s.done, s.done[1], m);
    }
  }

  ghost predicate Reaches(s: State, es: seq<Event>, s1: State, m: nat)
    requires m > 0
    decreases |es|
  {
    |s.counters| == 3 && |s.done| == 3 &&
    if es == [] then s1 == s
    else Next(s, es[0], m).Some? && Reaches(Next(s, es[0], m).value, es[1..], s1, m)
  }

  lemma {:induction false} RunKeepsInv(s: State, es: seq<Event>, s1: State, m: nat)
    requires Inv(s, m) && Reaches(s, es, s1, m)
    ensures Inv(s1, m)
    decreases |es|
  {
    if es == [] {
    } else {
      if es[0].MachineRuns? { MachineKeepsInv(s, m); } else { ReporterKeepsInv(s, es[0], m); }
      RunKeepsInv(Next(s, es[0], m).value, es[1..], s1, m);
    }
  }

  /** c1 <= c0 <= ch <= c1 + 1 in every reachable state, every resume from the
      handler finds thread 0 suspended, and the reporter does not complain while
      the exact total fits in an unsigned long. */
  lemma PreemptionTestHolds(s0: State, es: seq<Event>, s: State, m: nat)
    requires m >= 6 && Init(s0) && Reaches(s0, es, s, m)
    ensures |s.done| == 3 && s.done[1] <= s.done[0] <= s.done[2] <= s.done[1] + 1
    ensures s.low.HandlerResume? ==> !s.highReady
    ensures Sum(s.done) < m ==> !s.complained
  {
    RunKeepsInv(s0, es, s, m);
  }
}

module InterruptProcessingTest {
  import opened Wrappers
  import opened Tolerance

  /** Thread 0, with the handler inline between the two halves of its loop. */
  datatype Pc = FirstGet | HandlerLoad | HandlerStore | HandlerPut | Get | Load | Store | Returned

  /** counters and done hold the thread's and the handler's count, in this order. */
  datatype State = State(
    pc: Pc, semaphore: nat, register: nat,
    counters: seq<nat>, done: seq<nat>,
    reporter: Reporter, complained: bool)

  datatype Event = ThreadRuns | ReporterRuns | ReporterWakes

  /** tm_semaphore_get without waiting: on failure the thread returns. */
  function GetStep(s: State, next: Pc): State {
    if s.semaphore > 0 then s.(semaphore := s.semaphore - 1, pc := next) else s.(pc := Returned)
  }

  function Count(s: State, k: nat, m: nat): State
    requires |s.counters| == 2 && |s.done| == 2 && k < 2 && m > 0
  {
    s.(counters := s.counters[k := (s.register + 1) % m], done := s.done[k := s.done[k] + 1])
  }

  function ThreadStep(s: State, m: nat): State
    requires |s.counters| == 2 && |s.done| == 2 && m > 0
  {
    match s.pc
    case FirstGet => GetStep(s, HandlerLoad)
    case HandlerLoad => s.(register := s.counters[1], pc := HandlerStore)
    case HandlerStore => Count(s, 1, m).(pc := HandlerPut)
    case HandlerPut => s.(semaphore := s.semaphore + 1, pc := Get)
    case Get => GetStep(s, Load)
    case Load => s.(register := s.counters[0], pc := Store)
    case Store => Count(s, 0, m).(pc := HandlerLoad)
    case Returned => s
  }

  function Next(s: State, e: Event, m: nat): Option<State>
    requires |s.counters| == 2 && |s.done| == 2 && m > 0
  {
    match e
    case ReporterWakes => if s.reporter.Asleep? then Some(s.(reporter := Reading([]))) else None
    case ReporterRuns =>
      if s.reporter.Asleep? then None
      else
        var (r, complains) := ReporterStep(s.reporter, s.counters, m);
        Some(s.(reporter := r, complained := s.complained || complains))
    case ThreadRuns => if s.reporter.Reading? then None else Some(ThreadStep(s, m))
  }

  ghost predicate Init(s: State) {
    && s.pc.FirstGet? && s.semaphore == 1
    && s.counters == [0, 0] && s.done == [0, 0] && s.reporter == Asleep && !s.complained
  }

  ghost predicate Inv(s: State, m: nat) {
    && m >= 4 && |s.counters| == 2 && |s.done| == 2
    && Words(s.counters, s.done, m)
    && !s.pc.Returned?
    && s.semaphore == (if s.pc.FirstGet? || s.pc.Get? then 1 else 0)
    && s.done[1] == s.done[0] + (if s.pc.HandlerPut? || s.pc.Get? || s.pc.Load? || s.pc.Store? then 1 else 0)
    && (s.pc.HandlerStore? ==> s.register == s.counters[1])
    && (s.pc.Store? ==> s.register == s.counters[0])
    && SnapshotInv(s.reporter, s.counters)
    && (s.complained ==> Sum(s.done) >= m)
  }

  lemma CountKeepsWords(s: State, k: nat, m: nat)
    requires |s.counters| == 2 && |s.done| == 2 && k < 2 && m > 0
    requires Words(s.counters, s.done, m) && s.register == s.counters[k]
    ensures Words(Count(s, k, m).counters, Count(s, k, m).done, m)
    ensures Sum(Count(s, k, m).done) == Sum(s.done) + 1
  {
    AddMod(s.done[k], 1, m);
    SumIncrement(s.done, k);
  }

  lemma NextKeepsInv(s: State, e: Event, m: nat)
    requires Inv(s, m) && Next(s, e, m).Some?
    ensures Inv(Next(s, e, m).value, m)
  {
    match e
    case ThreadRuns =>
      if s.pc.HandlerStore? { CountKeepsWords(s, 1, m); }
      if s.pc.Store? { CountKeepsWords(s, 0, m); }
    case ReporterRuns =>
      assert Within1(s.done, s.done[0]);
      ReporterIsSound(s.reporter, s.counters, s.done, s.done[0], m);
    case ReporterWakes =>
  }

  ghost predicate Reaches(s: State, es: seq<Event>, s1: State, m: nat)
    requires m > 0
    decreases |es|
  {
    |s.counters| == 2 && |s.done| == 2 &&
    if es == [] then s1 == s
    else Next(s, es[0], m).Some? && Reaches(Next(s, es[0], m).value, es[1..], s1, m)
  }

  lemma {:induction false} RunKeepsInv(s: State, es: seq<Event>, s1: State, m: nat)
    requires Inv(s, m) && Reaches(s, es, s1, m)
    ensures Inv(s1, m)
    decreases |es|
  {
    if es == [] {
    } else {
      NextKeepsInv(s, es[0], m);
      RunKeepsInv(Next(s, es[0], m).value, es[1..], s1, m);
    }
  }

  /** ct <= ch <= ct + 1 in every reachable state, every get finds the semaphore
      put, so the thread never returns, and the reporter does not complain while
      the exact total fits in an unsigned long. */
  lemma ProcessingTestHolds(s0: State, es: seq<Event>, s: State, m: nat)
    requires m >= 4 && Init(s0) && Reaches(s0, es, s, m)
    ensures |s.done| == 2 && s.done[0] <= s.done[1] <= s.done[0] + 1
    ensures !s.pc.Returned? && (s.pc.FirstGet? || s.pc.Get? ==> s.semaphore == 1)
    ensures Sum(s.done) < m ==> !s.complained
  {
    RunKeepsInv(s0, es, s, m);
  }
}
