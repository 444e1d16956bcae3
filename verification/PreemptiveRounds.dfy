/** How far the preemptive chain gets: it completes round after round, and the
    reporter's verdict on equal counters depends on the total alone. */
module PreemptiveRounds {
  import opened Tolerance
  import opened PreemptiveChain
  import opened Wrappers

  lemma {:induction false} Continue(g: Config, s: State, es: seq<Event>, s1: State, fs: seq<Event>, s2: State)
    requires g.Valid() && Reaches(g, s, es, s1) && Reaches(g, s1, fs, s2)
    ensures Reaches(g, s, es + fs, s2)
    decreases |es|
  {
    if es == [] {
      assert es + fs == fs;
    } else {
      assert (es + fs)[1..] == es[1..] + fs;
      Continue(g, Next(g, s, es[0]).value, es[1..], s1, fs, s2);
    }
  }

  lemma OneStep(g: Config, s: State, e: Event)
    requires g.Valid() && Shaped(g, s) && Next(g, s, e).Some? && Shaped(g, Next(g, s, e).value)
    ensures Reaches(g, s, [e], Next(g, s, e).value)
  {
    assert [e][1..] == [];
  }

  // ----- rounds are completed -----

  /** Upwards the chain is resumed; downwards it counts and suspends. */
  ghost function StepsLeft(g: Config, s: State, top: nat): nat
    requires Shaped(g, s) && top < g.n
  {
    match s.pcs[top]
    case Resume => 5 * g.n - top
    case Load => 3 * top + 3
    case Store => 3 * top + 2
    case Suspend => 3 * top + 1
  }

  lemma StepDescends(g: Config, s: State, top: nat, b: nat, s1: State, top1: nat)
    requires Round(g, s, top, b) && s1 == WorkerStep(g, s, top) && Shaped(g, s1)
    requires top1 == (if s.pcs[top].Resume? then top + 1 else if s.pcs[top].Suspend? then top - 1 else top)
    requires top1 < g.n && !(s.pcs[top].Store? && top == 0)
    ensures StepsLeft(g, s1, top1) < StepsLeft(g, s, top)
  {
    assert ThreadOk(g, s, top, b, top1);
  }

  lemma {:induction false} FinishRound(g: Config, s: State, top: nat, b: nat) returns (es: seq<Event>, s1: State)
    requires Round(g, s, top, b) && s.reporter.Asleep?
    ensures Reaches(g, s, es, s1) && Round(g, s1, 0, b + 1) && s1.pcs[0].Resume?
    ensures s1.reporter.Asleep? && s1.complained == s.complained
    decreases StepsLeft(g, s, top)
  {
    RunningIsTop(g, s, top, b);
    var next := WorkerStep(g, s, top);
    var top1, b1 := WorkerKeepsRound(g, s, top, b);
    OneStep(g, s, WorkerRuns);
    if s.pcs[top].Store? && top == 0 {
      es, s1 := [WorkerRuns], next;
    } else {
      StepDescends(g, s, top, b, next, top1);
      es, s1 := FinishRound(g, next, top1, b);
      Continue(g, s, [WorkerRuns], next, es, s1);
      es := [WorkerRuns] + es;
    }
  }

  /** From the start, with the reporter asleep, any number of rounds. */
  lemma {:induction false} CompletesRounds(g: Config, s0: State, b: nat) returns (es: seq<Event>, s: State)
    requires g.Valid() && Init(g, s0)
    ensures Reaches(g, s0, es, s) && Round(g, s, 0, b) && s.pcs[0].Resume?
    ensures s.reporter.Asleep? && !s.complained
  {
    if b == 0 {
      es, s := [], s0;
      forall k | 0 <= k < g.n
        ensures ThreadOk(g, s, 0, 0, k)
      {
      }
    } else {
      var fs, s1 := CompletesRounds(g, s0, b - 1);
      es, s := FinishRound(g, s1, 0, b - 1);
      Continue(g, s0, fs, s1, es, s);
      es := fs + es;
    }
  }

  // ----- the reporter's verdict -----

  lemma {:induction false} ReporterReads(g: Config, s: State, j: nat) returns (es: seq<Event>)
    requires g.Valid() && Shaped(g, s) && j <= g.n && s.reporter == Reading(s.counters[..j])
    ensures Reaches(g, s, es, s.(reporter := Reading(s.counters)))
    decreases g.n - j
  {
    if j == g.n {
      es := [];
      assert s.counters[..j] == s.counters;
    } else {
      var s1 := s.(reporter := Reading(s.counters[..j + 1]));
      assert s.counters[..j] + [s.counters[j]] == s.counters[..j + 1];
      assert Next(g, s, ReporterRuns) == Some(s1);
      OneStep(g, s, ReporterRuns);
      es := ReporterReads(g, s1, j + 1);
      Continue(g, s, [ReporterRuns], s1, es, s.(reporter := Reading(s.counters)));
      es := [ReporterRuns] + es;
    }
  }

  /** An undisturbed reporter wakes, reads all counters and gives its verdict. */
  lemma ReporterJudges(g: Config, s: State) returns (es: seq<Event>)
    requires g.Valid() && Shaped(g, s) && s.reporter.Asleep?
    ensures Reaches(g, s, es, s.(complained := s.complained || Errs(s.counters, g.m)))
  {
    var woken, ready := s.(reporter := Reading([])), s.(reporter := Reading(s.counters));
    var done := s.(complained := s.complained || Errs(s.counters, g.m));
    OneStep(g, s, ReporterWakes);
    assert s.counters[..0] == [];
    es := ReporterReads(g, woken, 0);
    Continue(g, s, [ReporterWakes], woken, es, ready);
    assert s.counters != [] && Next(g, ready, ReporterRuns) == Some(done);
    OneStep(g, ready, ReporterRuns);
    Continue(g, s, [ReporterWakes] + es, ready, [ReporterRuns], done);
    es := [ReporterWakes] + es + [ReporterRuns];
  }

  /** For every number of rounds there is a run from the start in which all threads
      have counted exactly that often and the reporter has looked once. It complains
      exactly if the total of the words does not fit in a word and wraps to at least
      the number of threads. */
  lemma EqualCountsVerdict(g: Config, s0: State, b: nat) returns (es: seq<Event>, s: State)
    requires g.Valid() && Init(g, s0)
    ensures Reaches(g, s0, es, s) && |s.done| == g.n && forall k :: 0 <= k < g.n ==> s.done[k] == b
    ensures s.complained <==> g.n * (b % g.m) >= g.m && (g.n * (b % g.m)) % g.m >= g.n
  {
    var fs, s1 := CompletesRounds(g, s0, b);
    InitEstablishesInv(g, s0);
    RunKeepsInv(g, s0, fs, s1);
    forall k | 0 <= k < g.n
      ensures s1.done[k] == b && s1.counters[k] == b % g.m
    {
      assert ThreadOk(g, s1, 0, b, k);
    }
    EqualCountersVerdict(s1.counters, b % g.m, g.m);
    es := ReporterJudges(g, s1);
    s := s1.(complained := s1.complained || Errs(s1.counters, g.m));
    Continue(g, s0, fs, s1, es, s);
    es := fs + es;
  }

  /** The benchmark as configured, with 32-bit counters: after 900 million rounds
      the reporter complains of five equal counters. */
  lemma FiveThreadsComplain(s0: State) returns (es: seq<Event>, s: State)
    requires Init(Config(5, 0x1_0000_0000), s0)
    ensures Reaches(Config(5, 0x1_0000_0000), s0, es, s) && s.complained
    ensures |s.done| == 5 && forall k :: 0 <= k < 5 ==> s.done[k] == 900_000_000
  {
    es, s := EqualCountsVerdict(Config(5, 0x1_0000_0000), s0, 900_000_000);
  }
}
