/** The preemptive scheduling benchmark with any number of threads.

  Thread k has a lower priority than thread k + 1 and the reporter is above them
  all. The scheduler is assumed to run the ready thread of the highest priority.
  The source has five threads; its text for each is the same but for the ends of
  the chain. */
module PreemptiveChain {
  import opened Wrappers
  import opened Tolerance

  /** Where a thread is in its loop. Load and Store are the two halves of the
      increment of its volatile counter. */
  datatype Pc = Resume | Load | Store | Suspend

  datatype State = State(
    ready: seq<bool>,
    pcs: seq<Pc>,
    register: seq<nat>,
    counters: seq<nat>,    // the unsigned words the threads increment
    done: seq<nat>,        // how often each has been incremented
    reporter: Reporter,
    complained: bool)

  datatype Event = WorkerRuns | ReporterRuns | ReporterWakes

  predicate Shaped(g: Config, s: State) {
    |s.ready| == g.n && |s.pcs| == g.n && |s.register| == g.n && |s.counters| == g.n && |s.done| == g.n
  }

  /** The first statement of the loop of thread `k`. */
  function Start(g: Config, k: nat): Pc {
    if k + 1 < g.n then Resume else Load
  }

  /** The ready worker of the highest priority among the first `i`. */
  function Highest(ready: seq<bool>, i: nat): (r: Option<nat>)
    requires i <= |ready|
    ensures r.Some? ==> r.value < i && ready[r.value]
    ensures forall k :: (if r.Some? then r.value + 1 else 0) <= k < i ==> !ready[k]
  {
    if i == 0 then None else if ready[i - 1] then Some(i - 1) else Highest(ready, i - 1)
  }

  function Goto(s: State, k: nat, pc: Pc): State
    requires k < |s.pcs|
  {
    s.(pcs := s.pcs[k := pc])
  }

  /** One statement of thread `k`. */
  function WorkerStep(g: Config, s: State, k: nat): State
    requires g.Valid() && Shaped(g, s) && k < g.n
  {
    match s.pcs[k]
    case Resume =>
      // tm_thread_resume fails, without effect, on a thread that is not suspended
      Goto(if k + 1 < g.n then s.(ready := s.ready[k + 1 := true]) else s, k, Load)
    case Load => Goto(s.(register := s.register[k := s.counters[k]]), k, Store)
    case Store =>
      Goto(s.(counters := s.counters[k := (s.register[k] + 1) % g.m], done := s.done[k := s.done[k] + 1]),
           k, if k == 0 then Start(g, k) else Suspend)
    case Suspend => Goto(s.(ready := s.ready[k := false]), k, Start(g, k))
  }

  function Next(g: Config, s: State, e: Event): Option<State>
    requires g.Valid() && Shaped(g, s)
  {
    match e
    case ReporterWakes => if s.reporter.Asleep? then Some(s.(reporter := Reading([]))) else None
    case ReporterRuns =>
      if s.reporter.Asleep? then None
      else
        var (r, complains) := ReporterStep(s.reporter, s.counters, g.m);
        Some(s.(reporter := r, complained := s.complained || complains))
    case WorkerRuns =>
      if s.reporter.Reading? then None
      else match Highest(s.ready, g.n)
           case None => None
           case Some(k) => Some(WorkerStep(g, s, k))
  }

  /** Thread 0 has been resumed, the others are created suspended. */
  ghost predicate Init(g: Config, s: State)
    requires g.Valid()
  {
    && Shaped(g, s)
    && (forall k :: 0 <= k < g.n ==>
          && s.ready[k] == (k == 0) && s.pcs[k] == Start(g, k)
          && s.counters[k] == 0 && s.done[k] == 0)
    && s.reporter == Asleep && !s.complained
  }

  // ----- the invariant -----

  /** The running thread is on its way back: those above it have counted. */
  predicate Returning(g: Config, s: State, top: nat)
    requires Shaped(g, s) && top < g.n
  {
    top + 1 < g.n && !s.pcs[top].Resume?
  }

  /** What thread `k` has counted when round `b` is under way and `top` runs. */
  function Expected(g: Config, s: State, top: nat, b: nat, k: nat): nat
    requires Shaped(g, s) && top < g.n
  {
    if k < top then b
    else if k == top then (if s.pcs[top].Suspend? then b + 1 else b)
    else if Returning(g, s, top) then b + 1
    else b
  }

  ghost predicate ThreadOk(g: Config, s: State, top: nat, b: nat, k: nat)
    requires Shaped(g, s) && top < g.n && k < g.n
  {
    && s.ready[k] == (k <= top)
    && (k < top ==> s.pcs[k].Load?)
    && (k > top ==> s.pcs[k] == Start(g, k))
    && s.done[k] == Expected(g, s, top, b, k)
  }

  ghost predicate Round(g: Config, s: State, top: nat, b: nat) {
    && g.Valid() && Shaped(g, s) && top < g.n
    && (top + 1 == g.n ==> !s.pcs[top].Resume?)
    && (top == 0 ==> !s.pcs[top].Suspend?)
    && (s.pcs[top].Store? ==> s.register[top] == s.counters[top])
    && (forall k :: 0 <= k < g.n ==> ThreadOk(g, s, top, b, k))
  }

  ghost predicate Inv(g: Config, s: State) {
    && g.Valid() && Shaped(g, s)
    && (exists top: nat, b: nat :: Round(g, s, top, b))
    && Words(s.counters, s.done, g.m)
    && SnapshotInv(s.reporter, s.counters)
    && (s.complained ==> Sum(s.done) >= g.m)
  }

  lemma {:induction false} HighestIs(ready: seq<bool>, top: nat, i: nat)
    requires top < i <= |ready| && forall k :: 0 <= k < i ==> ready[k] == (k <= top)
    ensures Highest(ready, i) == Some(top)
  {
    if i - 1 > top { HighestIs(ready, top, i - 1); }
  }

  lemma RunningIsTop(g: Config, s: State, top: nat, b: nat)
    requires Round(g, s, top, b)
    ensures Highest(s.ready, g.n) == Some(top)
  {
    forall k | 0 <= k < g.n ensures s.ready[k] == (k <= top) { assert ThreadOk(g, s, top, b, k); }
    HighestIs(s.ready, top, g.n);
  }

  /** Resume hands the processor up, suspend hands it down, and the end of thread
      0's loop starts the next round. */
  lemma WorkerKeepsRound(g: Config, s: State, top: nat, b: nat) returns (top1: nat, b1: nat)
    requires Round(g, s, top, b)
    ensures Round(g, WorkerStep(g, s, top), top1, b1)
    ensures top1 == (if s.pcs[top].Resume? then top + 1 else if s.pcs[top].Suspend? then top - 1 else top)
    ensures b1 == (if s.pcs[top].Store? && top == 0 then b + 1 else b)
  {
    var s1 := WorkerStep(g, s, top);
    assert ThreadOk(g, s, top, b, top);
    if top + 1 < g.n { assert ThreadOk(g, s, top, b, top + 1); }
    if top > 0 { assert ThreadOk(g, s, top, b, top - 1); }
    top1, b1 := top, b;
    match s.pcs[top] {
      case Resume => top1 := top + 1;
      case Suspend => top1 := top - 1;
      case Store => if top == 0 { b1 := b + 1; }
      case Load =>
    }
    forall k | 0 <= k < g.n ensures ThreadOk(g, s1, top1, b1, k) { assert ThreadOk(g, s, top, b, k); }
  }

  lemma WorkerKeepsWords(g: Config, s: State, top: nat, b: nat)
    requires Round(g, s, top, b) && Words(s.counters, s.done, g.m)
    ensures Words(WorkerStep(g, s, top).counters, WorkerStep(g, s, top).done, g.m)
    ensures Sum(WorkerStep(g, s, top).done) >= Sum(s.done)
  {
    if s.pcs[top].Store? {
      AddMod(s.done[top], 1, g.m);
      SumIncrement(s.done, top);
    }
  }

  /** The counters of one round differ by at most 1. */
  lemma RoundIsClose(g: Config, s: State, top: nat, b: nat)
    requires Round(g, s, top, b)
    ensures Within1(s.done, b)
  {
    forall k | 0 <= k < |s.done| ensures b <= s.done[k] <= b + 1 { assert ThreadOk(g, s, top, b, k); }
  }

  lemma NextKeepsInv(g: Config, s: State, e: Event)
    requires Inv(g, s) && Next(g, s, e).Some?
    ensures Inv(g, Next(g, s, e).value)
  {
    var s1 := Next(g, s, e).value;
    var top: nat, b: nat :| Round(g, s, top, b);
    match e {
      case WorkerRuns =>
        RunningIsTop(g, s, top, b);
        var top1, b1 := WorkerKeepsRound(g, s, top, b);
        WorkerKeepsWords(g, s, top, b);
      case ReporterRuns =>
        RoundIsClose(g, s, top, b);
        ReporterIsSound(s.reporter, s.counters, s.done, b, g.m);
        SameRound(g, s, s1, top, b);
      case ReporterWakes =>
        SameRound(g, s, s1, top, b);
    }
  }

  lemma SameRound(g: Config, s: State, s1: State, top: nat, b: nat)
    requires Round(g, s, top, b) && s1 == s.(reporter := s1.reporter, complained := s1.complained)
    ensures Round(g, s1, top, b)
  {
    forall k | 0 <= k < g.n ensures ThreadOk(g, s1, top, b, k) { assert ThreadOk(g, s, top, b, k); }
  }

  lemma InitEstablishesInv(g: Config, s: State)
    requires g.Valid() && Init(g, s)
    ensures Inv(g, s)
  {
    forall k | 0 <= k < g.n ensures ThreadOk(g, s, 0, 0, k) && s.done[k] % g.m == 0 {}
    assert Round(g, s, 0, 0);
  }

  // ----- over every run -----

  ghost predicate Reaches(g: Config, s: State, es: seq<Event>, s1: State)
    requires g.Valid()
    decreases |es|
  {
    Shaped(g, s) &&
    if es == [] then s1 == s
    else Next(g, s, es[0]).Some? && Reaches(g, Next(g, s, es[0]).value, es[1..], s1)
  }

  lemma {:induction false} RunKeepsInv(g: Config, s: State, es: seq<Event>, s1: State)
    requires Inv(g, s) && Reaches(g, s, es, s1)
    ensures Inv(g, s1)
    decreases |es|
  {
    if es == [] {
    } else {
      NextKeepsInv(g, s, es[0]);
      RunKeepsInv(g, Next(g, s, es[0]).value, es[1..], s1);
    }
  }

  /** In every reachable state the counters rise along the chain and by at most 1:
      c0 <= c1 <= ... <= c(n-1) <= c0 + 1. */
  lemma CountersRiseAlongChain(g: Config, s0: State, es: seq<Event>, s: State)
    requires g.Valid() && Init(g, s0) && Reaches(g, s0, es, s)
    ensures |s.done| == g.n && Words(s.counters, s.done, g.m)
    ensures forall j, k | 0 <= j <= k < g.n :: s.done[j] <= s.done[k] <= s.done[0] + 1
  {
    InitEstablishesInv(g, s0);
    RunKeepsInv(g, s0, es, s);
    var top: nat, b: nat :| Round(g, s, top, b);
    forall j, k | 0 <= j <= k < g.n ensures s.done[j] <= s.done[k] <= s.done[0] + 1 {
      assert ThreadOk(g, s, top, b, j) && ThreadOk(g, s, top, b, k) && ThreadOk(g, s, top, b, 0);
    }
  }

  /** Every tm_thread_resume(k + 1) finds thread k + 1 suspended, whatever the
      reporter preempted, and some worker is always ready. */
  lemma ResumeFindsSuspended(g: Config, s0: State, es: seq<Event>, s: State)
    requires g.Valid() && Init(g, s0) && Reaches(g, s0, es, s)
    ensures Shaped(g, s) && Highest(s.ready, g.n).Some?
    ensures var k := Highest(s.ready, g.n).value;
      k < g.n && (s.pcs[k].Resume? ==> k + 1 < g.n && !s.ready[k + 1])
  {
    InitEstablishesInv(g, s0);
    RunKeepsInv(g, s0, es, s);
    var top: nat, b: nat :| Round(g, s, top, b);
    RunningIsTop(g, s, top, b);
    if top + 1 < g.n { assert ThreadOk(g, s, top, b, top + 1); }
  }

  /** In any run whose exact total fits in an unsigned long the reporter has not
      complained, and what it has read so far are the exact counts. */
  lemma ReporterNeverComplains(g: Config, s0: State, es: seq<Event>, s: State)
    requires g.Valid() && Init(g, s0) && Reaches(g, s0, es, s)
    requires Sum(s.done) < g.m
    ensures !s.complained && (s.reporter.Reading? ==> s.reporter.snapshot <= s.done)
  {
    InitEstablishesInv(g, s0);
    RunKeepsInv(g, s0, es, s);
    FittingWordsAreExact(s.counters, s.done, g.m);
  }
}
