/** The cooperative scheduling benchmark with any number of threads of equal
    priority and no time slice.

  The ready threads of the one priority form a first-in first-out queue whose
  head runs; relinquish moves the head to the back; a thread preempted by the
  reporter keeps its place at the head. */
module CooperativeRing {
  import opened Wrappers
  import opened Tolerance

  datatype Pc = Relinquish | Load | Store

  datatype State = State(
    queue: seq<nat>,
    pcs: seq<Pc>,
    register: seq<nat>,
    counters: seq<nat>,
    done: seq<nat>,
    reporter: Reporter,
    complained: bool)

  datatype Event = WorkerRuns | ReporterRuns | ReporterWakes

  predicate Shaped(g: Config, s: State) {
    && |s.queue| == g.n && |s.pcs| == g.n && |s.register| == g.n && |s.counters| == g.n && |s.done| == g.n
    && (forall i :: 0 <= i < |s.queue| ==> s.queue[i] < g.n)
  }

  function WorkerStep(g: Config, s: State): (r: State)
    requires g.Valid() && Shaped(g, s)
    ensures Shaped(g, r)
  {
    var k := s.queue[0];
    match s.pcs[k]
    case Relinquish => s.(queue := s.queue[1..] + [k], pcs := s.pcs[k := Load])
    case Load => s.(register := s.register[k := s.counters[k]], pcs := s.pcs[k := Store])
    case Store =>
      s.(counters := s.counters[k := (s.register[k] + 1) % g.m], done := s.done[k := s.done[k] + 1],
         pcs := s.pcs[k := Relinquish])
  }

  function Next(g: Config, s: State, e: Event): (r: Option<State>)
    requires g.Valid() && Shaped(g, s)
    ensures r.Some? ==> Shaped(g, r.value)
  {
    match e
    case ReporterWakes => if s.reporter.Asleep? then Some(s.(reporter := Reading([]))) else None
    case ReporterRuns =>
      if s.reporter.Asleep? then None
      else
        var (r, complains) := ReporterStep(s.reporter, s.counters, g.m);
        Some(s.(reporter := r, complained := s.complained || complains))
    case WorkerRuns => if s.reporter.Reading? then None else Some(WorkerStep(g, s))
  }

  /** The threads are resumed in order; each begins by relinquishing. */
  ghost predicate Init(g: Config, s: State)
    requires g.Valid()
  {
    && Shaped(g, s)
    && (forall k :: 0 <= k < g.n ==>
          s.queue[k] == k && s.pcs[k].Relinquish? && s.counters[k] == 0 && s.done[k] == 0)
    && s.reporter == Asleep && !s.complained
  }

  // ----- the invariant -----

  /** The thread `i` places behind thread `h` in the ring. */
  function Behind(h: nat, i: nat, n: nat): nat
    requires h < n && i < n
  {
    if h + i < n then h + i else h + i - n
  }

  /** Lap 0 is the first relinquish of every thread; in lap b the threads that
      have had their turn stand at b, the others at b - 1. */
  ghost predicate ThreadOk(g: Config, s: State, h: nat, b: nat, k: nat)
    requires Shaped(g, s) && h < g.n && k < g.n
  {
    if b == 0 then s.done[k] == 0 && (if k < h then s.pcs[k].Load? else s.pcs[k].Relinquish?)
    else
      && (k < h ==> s.pcs[k].Load? && s.done[k] == b)
      && (k > h ==> s.pcs[k].Load? && s.done[k] == b - 1)
      && (k == h ==> s.done[k] == if s.pcs[k].Relinquish? then b else b - 1)
  }

  ghost predicate Lap(g: Config, s: State, h: nat, b: nat) {
    && g.Valid() && Shaped(g, s) && h < g.n
    && (forall i :: 0 <= i < g.n ==> s.queue[i] == Behind(h, i, g.n))
    && (s.pcs[h].Store? ==> s.register[h] == s.counters[h])
    && (forall k :: 0 <= k < g.n ==> ThreadOk(g, s, h, b, k))
  }

  ghost predicate Inv(g: Config, s: State) {
    && g.Valid() && Shaped(g, s)
    && (exists h: nat, b: nat :: Lap(g, s, h, b))
    && Words(s.counters, s.done, g.m)
    && SnapshotInv(s.reporter, s.counters)
    && (s.complained ==> Sum(s.done) >= g.m)
  }

  /** Relinquish turns the ring by one place; the turn of thread 0 begins a lap. */
  lemma WorkerKeepsLap(g: Config, s: State, h: nat, b: nat) returns (h1: nat, b1: nat)
    requires Lap(g, s, h, b)
    ensures Lap(g, WorkerStep(g, s), h1, b1)
    ensures h1 == (if !s.pcs[h].Relinquish? then h else if h + 1 < g.n then h + 1 else 0)
    ensures b1 == (if s.pcs[h].Relinquish? && h + 1 == g.n then b + 1 else b)
  {
    var s1 := WorkerStep(g, s);
    assert s.queue[0] == Behind(h, 0, g.n) == h;
    assert ThreadOk(g, s, h, b, h);
    h1, b1 := h, b;
    if s.pcs[h].Relinquish? {
      h1 := if h + 1 < g.n then h + 1 else 0;
      b1 := if h + 1 < g.n then b else b + 1;
      assert ThreadOk(g, s, h, b, h1);
    }
    forall i | 0 <= i < g.n ensures s1.queue[i] == Behind(h1, i, g.n) {
      if i + 1 < g.n { assert s.queue[i + 1] == Behind(h, i + 1, g.n); }
    }
    forall k | 0 <= k < g.n ensures ThreadOk(g, s1, h1, b1, k) { assert ThreadOk(g, s, h, b, k); }
  }

  lemma WorkerKeepsWords(g: Config, s: State, h: nat, b: nat)
    requires Lap(g, s, h, b) && Words(s.counters, s.done, g.m)
    ensures Words(WorkerStep(g, s).counters, WorkerStep(g, s).done, g.m)
    ensures Sum(WorkerStep(g, s).done) >= Sum(s.done)
  {
    assert s.queue[0] == Behind(h, 0, g.n) == h;
    if s.pcs[h].Store? {
      AddMod(s.done[h], 1, g.m);
      SumIncrement(s.done, h);
    }
  }

  lemma LapIsClose(g: Config, s: State, h: nat, b: nat) returns (lo: nat)
    requires Lap(g, s, h, b)
    ensures Within1(s.done, lo)
  {
    lo := if b == 0 then 0 else b - 1;
    forall k | 0 <= k < |s.done| ensures lo <= s.done[k] <= lo + 1 { assert ThreadOk(g, s, h, b, k); }
  }

  lemma SameLap(g: Config, s: State, s1: State, h: nat, b: nat)
    requires Lap(g, s, h, b) && s1 == s.(reporter := s1.reporter, complained := s1.complained)
    ensures Lap(g, s1, h, b)
  {
    forall k | 0 <= k < g.n ensures ThreadOk(g, s1, h, b, k) { assert ThreadOk(g, s, h, b, k); }
  }

  lemma NextKeepsInv(g: Config, s: State, e: Event)
    requires Inv(g, s) && Next(g, s, e).Some?
    ensures Inv(g, Next(g, s, e).value)
  {
    var s1 := Next(g, s, e).value;
    var h: nat, b: nat :| Lap(g, s, h, b);
    match e {
      case WorkerRuns =>
        var h1, b1 := WorkerKeepsLap(g, s, h, b);
        WorkerKeepsWords(g, s, h, b);
      case ReporterRuns =>
        var lo := LapIsClose(g, s, h, b);
        ReporterIsSound(s.reporter, s.counters, s.done, lo, g.m);
        SameLap(g, s, s1, h, b);
      case ReporterWakes =>
        SameLap(g, s, s1, h, b);
    }
  }

  lemma InitEstablishesInv(g: Config, s: State)
    requires g.Valid() && Init(g, s)
    ensures Inv(g, s)
  {
    forall k | 0 <= k < g.n ensures ThreadOk(g, s, 0, 0, k) && s.done[k] % g.m == 0 {}
    assert Lap(g, s, 0, 0);
  }

  // ----- over every run -----

  ghost predicate Reaches(g: Config, s: State, es: seq<Event>, s1: State)
    requires g.Valid() && Shaped(g, s)
    decreases |es|
  {
    if es == [] then s1 == s
    else Next(g, s, es[0]).Some? && Reaches(g, Next(g, s, es[0]).value, es[1..], s1)
  }

  lemma {:induction false} RunKeepsInv(g: Config, s: State, es: seq<Event>, s1: State)
    requires Inv(g, s) && Reaches(g, s, es, s1)
    ensures Inv(g, s1)
    decreases |es|
  {
    if es == [] {
    } else {
      NextKeepsInv(g, s, es[0]);
      RunKeepsInv(g, Next(g, s, es[0]).value, es[1..], s1);
    }
  }

  /** In every reachable state the counters fall along the ring and by at most 1:
      c0 >= c1 >= ... >= c(n-1) >= c0 - 1. */
  lemma CountersFallAlongRing(g: Config, s0: State, es: seq<Event>, s: State)
    requires g.Valid() && Init(g, s0) && Reaches(g, s0, es, s)
    ensures |s.done| == g.n && Words(s.counters, s.done, g.m)
    ensures forall j, k | 0 <= j <= k < g.n :: s.done[0] >= s.done[j] >= s.done[k] && s.done[k] + 1 >= s.done[0]
  {
    InitEstablishesInv(g, s0);
    RunKeepsInv(g, s0, es, s);
    var h: nat, b: nat :| Lap(g, s, h, b);
    forall j, k | 0 <= j <= k < g.n ensures s.done[0] >= s.done[j] >= s.done[k] && s.done[k] + 1 >= s.done[0] {
      assert ThreadOk(g, s, h, b, j) && ThreadOk(g, s, h, b, k) && ThreadOk(g, s, h, b, 0);
    }
  }

  /** The ready queue is always the ring, turned to the running thread: nobody is
      overtaken and nobody is lost. */
  lemma QueueIsRotation(g: Config, s0: State, es: seq<Event>, s: State) returns (h: nat)
    requires g.Valid() && Init(g, s0) && Reaches(g, s0, es, s)
    ensures h < g.n && |s.queue| == g.n
    ensures forall i :: 0 <= i < g.n ==> s.queue[i] == Behind(h, i, g.n)
  {
    InitEstablishesInv(g, s0);
    RunKeepsInv(g, s0, es, s);
    var b: nat;
    h, b :| Lap(g, s, h, b);
  }

  /** A reporter that has complained in some run had an exact total that no longer
      fits in an unsigned long; until then it reads the exact counts. */
  lemma ReporterNeverComplains(g: Config, s0: State, es: seq<Event>, s: State)
    requires g.Valid() && Init(g, s0) && Reaches(g, s0, es, s)
    ensures s.complained ==> Sum(s.done) >= g.m
    ensures Sum(s.done) < g.m && s.reporter.Reading? ==> s.reporter.snapshot <= s.done
  {
    InitEstablishesInv(g, s0);
    RunKeepsInv(g, s0, es, s);
    if Sum(s.done) < g.m { FittingWordsAreExact(s.counters, s.done, g.m); }
  }
}
