/** Interrupt control in the handoff protocol is interrupt control as InterruptLockout
    proves it: the two models agree on lock counts, mutex depth and posture flag. */
module HandoffLockout {
  import opened HandoffInvariant
  import opened HandoffModel
  import opened InterruptPosture
  import Lockout = InterruptLockout
  import opened Wrappers

  /** What interrupt control on behalf of process `p` reads and writes. The global
      posture flag, which nothing reads, is not part of the protocol's state. */
  ghost function CpuOf(s: State, p: Proc, count: nat): Lockout.Cpu
    requires ValidRef(s, s.current)
  {
    Lockout.Cpu(LocksOf(s.mutex, p), count, s.systemState, s.current.Some?, false,
                s.current.Some? && s.threads[s.current.value].intDisabled)
  }

  ghost function ThreadCpu(s: State, t: Tid): Lockout.Cpu
    requires ValidRef(s, s.current) && t < |s.threads|
  {
    CpuOf(s, Thread(t), s.threads[t].locks)
  }

  ghost function TimerCpu(s: State): Lockout.Cpu
    requires ValidRef(s, s.current)
  {
    CpuOf(s, Timer, s.tmr.locks)
  }

  /** The two steps of a thread's call, where the mutex can be had: the lock, and
      all that it protects. */
  lemma ThreadControlRefines(s: State, t: Tid, posture: Posture) returns (s1: State, s2: State)
    requires Inv(s) && t < |s.threads| && s.threads[t].pc == CtlLock(posture)
    requires s.threads[t].sig.handler.Out? && CanLock(s.mutex, Thread(t))
    ensures Next(s, ThreadRuns(t)) == Some(s1) && Inv(s1) && Next(s1, ThreadRuns(t)) == Some(s2)
    ensures Inv(s2) && |s2.threads| == |s.threads| && s2.threads[t].pc.Running?
    ensures ThreadCpu(s, t).count <= ThreadCpu(s, t).depth
    ensures ThreadCpu(s2, t) == Lockout.Control(ThreadCpu(s, t), posture).0
  {
    IsCurrentInControl(s, t, posture);
    ThreadLocks(s, t, posture);
    s1 := Next(s, ThreadRuns(t)).value;
    NextKeepsInv(s, ThreadRuns(t));
    ThreadControls(s1, t, posture);
    s2 := Next(s1, ThreadRuns(t)).value;
    NextKeepsInv(s1, ThreadRuns(t));
    ControlInTwoSteps(ThreadCpu(s, t), posture);
  }

  lemma IsCurrentInControl(s: State, t: Tid, posture: Posture)
    requires Inv(s) && t < |s.threads| && s.threads[t].pc == CtlLock(posture) && s.threads[t].sig.handler.Out?
    ensures IsCurrent(s, t) && ThreadCpu(s, t).count == ThreadCpu(s, t).depth
  {
    assert ThreadInv(s, t);
  }

  lemma ControlInTwoSteps(c: Lockout.Cpu, posture: Posture)
    requires c.count == c.depth && c.current && c.systemState == 0
    ensures Lockout.Control(c, posture).0
         == if posture.Enable? then Lockout.UnlockAll(Lockout.SetFlag(Lockout.Lock(c), false))
            else Lockout.SetFlag(Lockout.Lock(c), true)
  {
  }

  lemma ThreadLocks(s: State, t: Tid, posture: Posture)
    requires Inv(s) && IsCurrent(s, t) && s.threads[t].pc == CtlLock(posture)
    requires s.threads[t].sig.handler.Out? && CanLock(s.mutex, Thread(t))
    ensures var r := Next(s, ThreadRuns(t));
      && r.Some? && |r.value.threads| == |s.threads| && IsCurrent(r.value, t)
      && r.value.threads[t].pc == CtlBody(posture) && r.value.threads[t].sig == s.threads[t].sig
      && ThreadCpu(r.value, t) == Lockout.Lock(ThreadCpu(s, t)) && s.systemState == 0
  {
    assert ThreadInv(s, t);
  }

  lemma ThreadControls(s: State, t: Tid, posture: Posture)
    requires Inv(s) && IsCurrent(s, t) && s.threads[t].pc == CtlBody(posture) && s.threads[t].sig.handler.Out?
    ensures var r := Next(s, ThreadRuns(t));
      && r.Some? && |r.value.threads| == |s.threads| && r.value.threads[t].pc.Running?
      && IsCurrent(r.value, t) && s.systemState == 0
      && ThreadCpu(s, t).count == ThreadCpu(s, t).depth
      && ThreadCpu(r.value, t)
         == if posture.Enable? then Lockout.UnlockAll(Lockout.SetFlag(ThreadCpu(s, t), false))
            else Lockout.SetFlag(ThreadCpu(s, t), true)
  {
    assert ThreadInv(s, t);
  }

  function Repeat(e: Event, n: nat): seq<Event> {
    if n == 0 then [] else [e] + Repeat(e, n - 1)
  }

  lemma {:induction false} NestedLocks(s: State, n: nat)
    requires Inv(s) && s.tmr.pc.TTick?
    ensures var r := Run(s, Repeat(TimerNested, n));
      && r.Some? && Inv(r.value) && r.value.tmr.pc.TTick?
      && TimerCpu(r.value) == TimerCpu(s).(depth := TimerCpu(s).depth + n, count := TimerCpu(s).count + n)
    decreases n
  {
    if n == 0 {
    } else {
      var s1 := Next(s, TimerNested).value;
      NextKeepsInv(s, TimerNested);
      NestedLocks(s1, n - 1);
      assert Repeat(TimerNested, n)[1..] == Repeat(TimerNested, n - 1);
    }
  }

  /** Whatever tree of disable and restore calls a tick makes, the protocol's model of
      it, one added lock for each call, ends with the same depth and count. */
  lemma NestedTickRefines(s: State, calls: Lockout.Calls)
    requires Inv(s) && s.tmr.pc.TTick?
    ensures Lockout.InStep(TimerCpu(s))
    ensures var r := Run(s, Repeat(TimerNested, 2 * Lockout.Sections(calls)));
      && r.Some? && ValidRef(r.value, r.value.current)
      && TimerCpu(r.value).depth == Lockout.Exec(TimerCpu(s), calls).depth
      && TimerCpu(r.value).count == Lockout.Exec(TimerCpu(s), calls).count
  {
    NestedLocks(s, 2 * Lockout.Sections(calls));
    Lockout.InnerCallsOnlyAdd(TimerCpu(s), calls);
  }

  lemma {:induction false} RunConcat(s: State, es: seq<Event>, fs: seq<Event>)
    requires ValidRef(s, s.current) && ValidRef(s, s.execute) && Run(s, es).Some?
    ensures Run(s, es + fs) == Run(Run(s, es).value, fs)
    decreases |es|
  {
    if es == [] {
      assert es + fs == fs;
    } else {
      NextKeepsRefs(s, es[0]);
      assert (es + fs)[1..] == es[1..] + fs;
      RunConcat(Next(s, es[0]).value, es[1..], fs);
    }
  }

  lemma OneEvent(s: State, e: Event)
    requires Inv(s) && Next(s, e).Some?
    ensures Run(s, [e]) == Next(s, e) && Inv(Next(s, e).value)
  {
    NextKeepsInv(s, e);
    assert [e][1..] == [];
  }

  lemma TickLocks(s: State)
    requires Inv(s) && s.tmr.pc.TTickLock? && CanLock(s.mutex, Timer)
    ensures var r := Next(s, TimerRuns);
      r.Some? && r.value.tmr.pc.TTick? && ValidRef(r.value, r.value.current)
      && TimerCpu(r.value) == Lockout.Lock(TimerCpu(s))
  {
  }

  lemma TickUnlocks(s: State)
    requires Inv(s) && s.tmr.pc.TTick? && s.tmr.sig.handler.Out?
    ensures TimerCpu(s).depth > 0 && TimerCpu(s).count > 0
    ensures var r := Next(s, TimerRuns);
      r.Some? && r.value.tmr.pc.TRestoreLock? && ValidRef(r.value, r.value.current)
      && TimerCpu(r.value) == Lockout.Unlock(TimerCpu(s))
  {
  }

  /** A whole tick body: the lock, whatever tree of calls it makes, and one unlock. The
      timer goes on to context restore with the depth and count that TimerInterrupt
      gives: it still has the mutex exactly if it nested something. */
  lemma TickBodyRefines(s: State, calls: Lockout.Calls)
    requires Inv(s) && s.tmr.pc.TTickLock? && CanLock(s.mutex, Timer)
    ensures Lockout.InStep(TimerCpu(s)) && s.systemState > 0
    ensures var r := Run(s, [TimerRuns] + Repeat(TimerNested, 2 * Lockout.Sections(calls)) + [TimerRuns]);
      && r.Some? && ValidRef(r.value, r.value.current) && r.value.tmr.pc.TRestoreLock?
      && TimerCpu(r.value).depth == Lockout.TimerInterrupt(TimerCpu(s), calls).depth
      && TimerCpu(r.value).count == Lockout.TimerInterrupt(TimerCpu(s), calls).count
  {
    var nested := Repeat(TimerNested, 2 * Lockout.Sections(calls));
    TickLocks(s);
    OneEvent(s, TimerRuns);
    var s1 := Next(s, TimerRuns).value;
    NestedTickRefines(s1, calls);
    NestedLocks(s1, 2 * Lockout.Sections(calls));
    RunConcat(s, [TimerRuns], nested);
    var s2 := Run(s1, nested).value;
    TickUnlocks(s2);
    OneEvent(s2, TimerRuns);
    RunConcat(s, [TimerRuns] + nested, [TimerRuns]);
  }
}
