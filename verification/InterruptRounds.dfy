/** How far the interrupt tests get, and what their reporters make of equal counts. */
module InterruptPreemptionRounds {
  import opened InterruptPreemptionTest
  import opened Tolerance
  import opened Wrappers

  lemma {:induction false} Continue(s: State, es: seq<Event>, s1: State, fs: seq<Event>, s2: State, m: nat)
    requires m > 0 && Reaches(s, es, s1, m) && Reaches(s1, fs, s2, m)
    ensures Reaches(s, es + fs, s2, m)
    decreases |es|
  {
    if es == [] {
      assert es + fs == fs;
    } else {
      assert (es + fs)[1..] == es[1..] + fs;
      Continue(Next(s, es[0], m).value, es[1..], s1, fs, s2, m);
    }
  }

  lemma OneStep(s: State, e: Event, m: nat)
    requires m > 0 && |s.counters| == 3 && |s.done| == 3 && Next(s, e, m).Some?
    requires |Next(s, e, m).value.counters| == 3 && |Next(s, e, m).value.done| == 3
    ensures Reaches(s, [e], Next(s, e, m).value, m)
  {
    assert [e][1..] == [];
  }

  // ----- traps are completed -----

  /** The handler, then thread 0, then the rest of thread 1's loop. */
  ghost function StepsLeft(s: State): nat {
    if s.highReady && !InHandler(s) then match s.high case HighLoad => 5 case HighStore => 4 case HighSuspend => 3
    else match s.low
      case Cause => 9 case HandlerLoad => 8 case HandlerStore => 7 case HandlerResume => 6
      case Load => 2 case Store => 1
  }

  lemma {:induction false} FinishTrap(s: State, m: nat) returns (es: seq<Event>, s1: State)
    requires Inv(s, m) && s.reporter.Asleep?
    ensures Reaches(s, es, s1, m) && Inv(s1, m) && s1.low.Cause? && s1.done[1] == s.done[1] + 1
    ensures s1.reporter.Asleep? && s1.complained == s.complained
    decreases StepsLeft(s)
  {
    MachineKeepsInv(s, m);
    var next := MachineStep(s, m);
    OneStep(s, MachineRuns, m);
    if s.low.Store? {
      es, s1 := [MachineRuns], next;
    } else {
      es, s1 := FinishTrap(next, m);
      Continue(s, [MachineRuns], next, es, s1, m);
      es := [MachineRuns] + es;
    }
  }

  lemma {:induction false} CompletesTraps(s0: State, b: nat, m: nat) returns (es: seq<Event>, s: State)
    requires m >= 6 && Init(s0)
    ensures Reaches(s0, es, s, m) && Inv(s, m) && s.low.Cause? && s.done[1] == b
    ensures s.reporter.Asleep? && !s.complained
  {
    if b == 0 {
      es, s := [], s0;
    } else {
      var fs, s1 := CompletesTraps(s0, b - 1, m);
      es, s := FinishTrap(s1, m);
      Continue(s0, fs, s1, es, s, m);
      es := fs + es;
    }
  }

  // ----- the reporter's verdict -----

  lemma {:induction false} ReporterReads(s: State, j: nat, m: nat) returns (es: seq<Event>)
    requires m > 0 && |s.counters| == 3 && |s.done| == 3 && j <= 3
    requires !InHandler(s) && s.reporter == Reading(s.counters[..j])
    ensures Reaches(s, es, s.(reporter := Reading(s.counters)), m)
    decreases 3 - j
  {
    if j == 3 {
      es := [];
      assert s.counters[..j] == s.counters;
    } else {
      var s1 := s.(reporter := Reading(s.counters[..j + 1]));
      assert s.counters[..j] + [s.counters[j]] == s.counters[..j + 1];
      assert Next(s, ReporterRuns, m) == Some(s1);
      OneStep(s, ReporterRuns, m);
      es := ReporterReads(s1, j + 1, m);
      Continue(s, [ReporterRuns], s1, es, s.(reporter := Reading(s.counters)), m);
      es := [ReporterRuns] + es;
    }
  }

  /** An undisturbed reporter wakes, reads all counters and gives its verdict. */
  lemma ReporterJudges(s: State, m: nat) returns (es: seq<Event>)
    requires m > 0 && |s.counters| == 3 && |s.done| == 3 && !InHandler(s) && s.reporter.Asleep?
    ensures Reaches(s, es, s.(complained := s.complained || Errs(s.counters, m)), m)
  {
    var woken, ready := s.(reporter := Reading([])), s.(reporter := Reading(s.counters));
    var done := s.(complained := s.complained || Errs(s.counters, m));
    OneStep(s, ReporterWakes, m);
    assert s.counters[..0] == [];
    es := ReporterReads(woken, 0, m);
    Continue(s, [ReporterWakes], woken, es, ready, m);
    assert s.counters != [] && Next(ready, ReporterRuns, m) == Some(done);
    OneStep(ready, ReporterRuns, m);
    Continue(s, [ReporterWakes] + es, ready, [ReporterRuns], done, m);
    es := [ReporterWakes] + es + [ReporterRuns];
  }

  /** For every number of traps there is a run from the start in which handler and both
      threads have counted exactly that often and the reporter has looked once. It
      complains exactly if the total of the words does not fit in a word and wraps to at
      least 3. */
  lemma EqualCountsVerdict(s0: State, b: nat, m: nat) returns (es: seq<Event>, s: State)
    requires m >= 6 && Init(s0)
    ensures Reaches(s0, es, s, m) && s.done == [b, b, b]
    ensures s.complained <==> 3 * (b % m) >= m && (3 * (b % m)) % m >= 3
  {
    var fs, s1 := CompletesTraps(s0, b, m);
    assert s1.done == [b, b, b];
    assert forall k :: 0 <= k < 3 ==> s1.counters[k] == b % m;
    EqualCountersVerdict(s1.counters, b % m, m);
    es := ReporterJudges(s1, m);
    s := s1.(complained := s1.complained || Errs(s1.counters, m));
    Continue(s0, fs, s1, es, s, m);
    es := fs + es;
  }
}

module InterruptProcessingRounds {
  import opened InterruptProcessingTest
  import opened Tolerance
  import opened Wrappers

  lemma {:induction false} Continue(s: State, es: seq<Event>, s1: State, fs: seq<Event>, s2: State, m: nat)
    requires m > 0 && Reaches(s, es, s1, m) && Reaches(s1, fs, s2, m)
    ensures Reaches(s, es + fs, s2, m)
    decreases |es|
  {
    if es == [] {
      assert es + fs == fs;
    } else {
      assert (es + fs)[1..] == es[1..] + fs;
      Continue(Next(s, es[0], m).value, es[1..], s1, fs, s2, m);
    }
  }

  lemma OneStep(s: State, e: Event, m: nat)
    requires m > 0 && |s.counters| == 2 && |s.done| == 2 && Next(s, e, m).Some?
    requires |Next(s, e, m).value.counters| == 2 && |Next(s, e, m).value.done| == 2
    ensures Reaches(s, [e], Next(s, e, m).value, m)
  {
    assert [e][1..] == [];
  }

  // ----- interrupts are completed -----

  ghost function StepsLeft(s: State): nat {
    match s.pc
    case FirstGet => 7 case HandlerLoad => 6 case HandlerStore => 5 case HandlerPut => 4
    case Get => 3 case Load => 2 case Store => 1 case Returned => 0
  }

  lemma {:induction false} FinishInterrupt(s: State, m: nat) returns (es: seq<Event>, s1: State)
    requires Inv(s, m) && s.reporter.Asleep?
    ensures Reaches(s, es, s1, m) && Inv(s1, m) && s1.pc.HandlerLoad? && s1.done[0] == s.done[0] + 1
    ensures s1.reporter.Asleep? && s1.complained == s.complained
    decreases StepsLeft(s)
  {
    NextKeepsInv(s, ThreadRuns, m);
    var next := ThreadStep(s, m);
    OneStep(s, ThreadRuns, m);
    if s.pc.Store? {
      es, s1 := [ThreadRuns], next;
    } else {
      es, s1 := FinishInterrupt(next, m);
      Continue(s, [ThreadRuns], next, es, s1, m);
      es := [ThreadRuns] + es;
    }
  }

  lemma {:induction false} CompletesInterrupts(s0: State, b: nat, m: nat) returns (es: seq<Event>, s: State)
    requires m >= 4 && Init(s0)
    ensures Reaches(s0, es, s, m) && Inv(s, m) && s.done[0] == b
    ensures if b == 0 then s == s0 else s.pc.HandlerLoad?
    ensures s.reporter.Asleep? && !s.complained
  {
    if b == 0 {
      es, s := [], s0;
    } else {
      var fs, s1 := CompletesInterrupts(s0, b - 1, m);
      es, s := FinishInterrupt(s1, m);
      Continue(s0, fs, s1, es, s, m);
      es := fs + es;
    }
  }

  // ----- the reporter's verdict -----

  lemma {:induction false} ReporterReads(s: State, j: nat, m: nat) returns (es: seq<Event>)
    requires m > 0 && |s.counters| == 2 && |s.done| == 2 && j <= 2
    requires s.reporter == Reading(s.counters[..j])
    ensures Reaches(s, es, s.(reporter := Reading(s.counters)), m)
    decreases 2 - j
  {
    if j == 2 {
      es := [];
      assert s.counters[..j] == s.counters;
    } else {
      var s1 := s.(reporter := Reading(s.counters[..j + 1]));
      assert s.counters[..j] + [s.counters[j]] == s.counters[..j + 1];
      assert Next(s, ReporterRuns, m) == Some(s1);
      OneStep(s, ReporterRuns, m);
      es := ReporterReads(s1, j + 1, m);
      Continue(s, [ReporterRuns], s1, es, s.(reporter := Reading(s.counters)), m);
      es := [ReporterRuns] + es;
    }
  }

  /** An undisturbed reporter wakes, reads all counters and gives its verdict. */
  lemma ReporterJudges(s: State, m: nat) returns (es: seq<Event>)
    requires m > 0 && |s.counters| == 2 && |s.done| == 2 && s.reporter.Asleep?
    ensures Reaches(s, es, s.(complained := s.complained || Errs(s.counters, m)), m)
  {
    var woken, ready := s.(reporter := Reading([])), s.(reporter := Reading(s.counters));
    var done := s.(complained := s.complained || Errs(s.counters, m));
    OneStep(s, ReporterWakes, m);
    assert s.counters[..0] == [];
    es := ReporterReads(woken, 0, m);
    Continue(s, [ReporterWakes], woken, es, ready, m);
    assert s.counters != [] && Next(ready, ReporterRuns, m) == Some(done);
    OneStep(ready, ReporterRuns, m);
    Continue(s, [ReporterWakes] + es, ready, [ReporterRuns], done, m);
    es := [ReporterWakes] + es + [ReporterRuns];
  }

  /** For every number of interrupts there is a run from the start in which handler and
      thread have counted exactly that often and the reporter has looked once. It
      complains exactly if the total of the words does not fit in a word and wraps to at
      least 2. */
  lemma EqualCountsVerdict(s0: State, b: nat, m: nat) returns (es: seq<Event>, s: State)
    requires m >= 4 && Init(s0)
    ensures Reaches(s0, es, s, m) && s.done == [b, b]
    ensures s.complained <==> 2 * (b % m) >= m && (2 * (b % m)) % m >= 2
  {
    var fs, s1 := CompletesInterrupts(s0, b, m);
    assert s1.done == [b, b];
    assert forall k :: 0 <= k < 2 ==> s1.counters[k] == b % m;
    EqualCountersVerdict(s1.counters, b % m, m);
    es := ReporterJudges(s1, m);
    s := s1.(complained := s1.complained || Errs(s1.counters, m));
    Continue(s0, fs, s1, es, s, m);
    es := fs + es;
  }
}
