/** How far the cooperative ring gets: it completes lap after lap, and the reporter's
    verdict on equal counters depends on the total alone. */
module CooperativeLaps {
  import opened CooperativeRing
  import opened Tolerance
  import opened Wrappers

  lemma {:induction false} Continue(g: Config, s: State, es: seq<Event>, s1: State, fs: seq<Event>, s2: State)
    requires g.Valid() && Shaped(g, s) && Shaped(g, s1) && Reaches(g, s, es, s1) && Reaches(g, s1, fs, s2)
    ensures Reaches(g, s, es + fs, s2)
    decreases |es|
  {
    if es == [] {
      assert es + fs == fs;
    } else {
      assert (es + fs)[1..] == es[1..] + fs;
      Continue(g, Next(g, s, es[0]).value, es[1..], s1, fs, s2);
    }
  }

  lemma OneStep(g: Config, s: State, e: Event)
    requires g.Valid() && Shaped(g, s) && Next(g, s, e).Some?
    ensures Reaches(g, s, [e], Next(g, s, e).value)
  {
    assert [e][1..] == [];
  }

  // ----- laps are completed -----

  /** The running thread counts and relinquishes; then it is the next one's turn. */
  ghost function StepsLeft(g: Config, s: State, h: nat): nat
    requires Shaped(g, s) && h < g.n
  {
    4 * (g.n - h) + match s.pcs[h] case Load => 3 case Store => 2 case Relinquish => 1
  }

  lemma {:induction false} FinishLap(g: Config, s: State, h: nat, b: nat) returns (es: seq<Event>, s1: State)
    requires Lap(g, s, h, b) && s.reporter.Asleep?
    ensures Shaped(g, s1) && Reaches(g, s, es, s1) && Lap(g, s1, 0, b + 1) && s1.pcs[0].Load?
    ensures s1.reporter.Asleep? && s1.complained == s.complained
    decreases StepsLeft(g, s, h)
  {
    assert s.queue[0] == Behind(h, 0, g.n) == h;
    var next := WorkerStep(g, s);
    var h1, b1 := WorkerKeepsLap(g, s, h, b);
    OneStep(g, s, WorkerRuns);
    if s.pcs[h].Relinquish? && h + 1 == g.n {
      assert ThreadOk(g, s, h, b, 0);
      es, s1 := [WorkerRuns], next;
    } else {
      assert ThreadOk(g, s, h, b, h1) && ThreadOk(g, next, h1, b, h1);
      es, s1 := FinishLap(g, next, h1, b);
      Continue(g, s, [WorkerRuns], next, es, s1);
      es := [WorkerRuns] + es;
    }
  }

  /** From the start, with the reporter asleep, any number of laps after the one in
      which every thread just relinquishes. */
  lemma {:induction false} CompletesLaps(g: Config, s0: State, b: nat) returns (es: seq<Event>, s: State)
    requires g.Valid() && Init(g, s0)
    ensures Shaped(g, s) && Reaches(g, s0, es, s) && Lap(g, s, 0, b + 1) && s.pcs[0].Load?
    ensures s.reporter.Asleep? && !s.complained
  {
    if b == 0 {
      forall k | 0 <= k < g.n
        ensures ThreadOk(g, s0, 0, 0, k)
      {
      }
      es, s := FinishLap(g, s0, 0, 0);
    } else {
      var fs, s1 := CompletesLaps(g, s0, b - 1);
      es, s := FinishLap(g, s1, 0, b);
      Continue(g, s0, fs, s1, es, s);
      es := fs + es;
    }
  }

  // ----- the reporter's verdict -----

  lemma {:induction false} ReporterReads(g: Config, s: State, j: nat) returns (es: seq<Event>)
    requires g.Valid() && Shaped(g, s) && j <= g.n && s.reporter == Reading(s.counters[..j])
    ensures Reaches(g, s, es, s.(reporter := Reading(s.counters)))
    decreases g.n - j
  {
    if j == g.n {
      es := [];
      assert s.counters[..j] == s.counters;
    } else {
      var s1 := s.(reporter := Reading(s.counters[..j + 1]));
      assert s.counters[..j] + [s.counters[j]] == s.counters[..j + 1];
      assert Next(g, s, ReporterRuns) == Some(s1);
      OneStep(g, s, ReporterRuns);
      es := ReporterReads(g, s1, j + 1);
      Continue(g, s, [ReporterRuns], s1, es, s.(reporter := Reading(s.counters)));
      es := [ReporterRuns] + es;
    }
  }

  /** An undisturbed reporter wakes, reads all counters and gives its verdict. */
  lemma ReporterJudges(g: Config, s: State) returns (es: seq<Event>)
    requires g.Valid() && Shaped(g, s) && s.reporter.Asleep?
    ensures Reaches(g, s, es, s.(complained := s.complained || Errs(s.counters, g.m)))
  {
    var woken, ready := s.(reporter := Reading([])), s.(reporter := Reading(s.counters));
    var done := s.(complained := s.complained || Errs(s.counters, g.m));
    OneStep(g, s, ReporterWakes);
    assert s.counters[..0] == [];
    es := ReporterReads(g, woken, 0);
    Continue(g, s, [ReporterWakes], woken, es, ready);
    assert s.counters != [] && Next(g, ready, ReporterRuns) == Some(done);
    OneStep(g, ready, ReporterRuns);
    Continue(g, s, [ReporterWakes] + es, ready, [ReporterRuns], done);
    es := [ReporterWakes] + es + [ReporterRuns];
  }

  /** For every number of laps there is a run from the start in which all threads have
      counted exactly that often and the reporter has looked once. It complains exactly
      if the total of the words does not fit in a word and wraps to at least the number
      of threads. */
  lemma EqualCountsVerdict(g: Config, s0: State, b: nat) returns (es: seq<Event>, s: State)
    requires g.Valid() && Init(g, s0)
    ensures Reaches(g, s0, es, s) && |s.done| == g.n && forall k :: 0 <= k < g.n ==> s.done[k] == b
    ensures s.complained <==> g.n * (b % g.m) >= g.m && (g.n * (b % g.m)) % g.m >= g.n
  {
    var fs, s1 := CompletesLaps(g, s0, b);
    InitEstablishesInv(g, s0);
    RunKeepsInv(g, s0, fs, s1);
    forall k | 0 <= k < g.n
      ensures s1.done[k] == b && s1.counters[k] == b % g.m
    {
      assert ThreadOk(g, s1, 0, b + 1, k);
    }
    EqualCountersVerdict(s1.counters, b % g.m, g.m);
    es := ReporterJudges(g, s1);
    s := s1.(complained := s1.complained || Errs(s1.counters, g.m));
    Continue(g, s0, fs, s1, es, s);
    es := fs + es;
  }
}
