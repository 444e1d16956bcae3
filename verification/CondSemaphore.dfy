/** The counting semaphore built on a mutex and a condition variable.

  Any number of threads post, wait and try. Every access to the count is made
  under the inner lock; cond_wait releases the lock and blocks in one step; a
  signal wakes one blocked thread when there is one; blocked threads may also
  wake for no reason; a woken thread competes for the lock with newcomers. */
module CondSemaphore {
  import opened Wrappers

  type Tid = nat

  /** The flag of WaitTest and WaitTake says that the thread has been woken. */
  datatype Pc =
    | Idle
    | PostLock | PostInc | PostSignal | PostUnlock
    | WaitLock | WaitTest(woken: bool) | Blocked | Woken | WaitTake(woken: bool) | WaitUnlock
    | TryLock | TryTest | TryUnlock(ok: bool)

  datatype State = State(count: int, holder: Option<Tid>, pcs: seq<Pc>)

  datatype Event =
    | CallPost(t: Tid) | CallWait(t: Tid) | CallTry(t: Tid)
    | Runs(t: Tid)
    | Signals(t: Tid, w: Tid)   // pthread_cond_signal by t, waking w if anybody blocks
    | WakesSpuriously(t: Tid)

  function Goto(s: State, t: Tid, pc: Pc): State
    requires t < |s.pcs|
  {
    s.(pcs := s.pcs[t := pc])
  }

  function Acquire(s: State, t: Tid, pc: Pc): Option<State>
    requires t < |s.pcs|
  {
    if s.holder.None? then Some(Goto(s, t, pc).(holder := Some(t))) else None
  }

  function Release(s: State, t: Tid, pc: Pc): State
    requires t < |s.pcs|
  {
    Goto(s, t, pc).(holder := None)
  }

  function Step(s: State, t: Tid): Option<State>
    requires t < |s.pcs|
  {
    match s.pcs[t]
    case Idle | Blocked | PostSignal => None
    case PostLock => Acquire(s, t, PostInc)
    case PostInc => Some(Goto(s, t, PostSignal).(count := s.count + 1))
    case PostUnlock => Some(Release(s, t, Idle))
    case WaitLock => Acquire(s, t, WaitTest(false))
    case WaitTest(woken) => if s.count <= 0 then Some(Release(s, t, Blocked)) else Some(Goto(s, t, WaitTake(woken)))
    case Woken => Acquire(s, t, WaitTest(true))
    case WaitTake(_) => Some(Goto(s, t, WaitUnlock).(count := s.count - 1))
    case WaitUnlock => Some(Release(s, t, Idle))
    case TryLock => Acquire(s, t, TryTest)
    case TryTest =>
      if s.count > 0 then Some(Goto(s, t, TryUnlock(true)).(count := s.count - 1))
      else Some(Goto(s, t, TryUnlock(false)))
    case TryUnlock(_) => Some(Release(s, t, Idle))
  }

  ghost predicate NobodyBlocks(s: State) {
    forall t :: 0 <= t < |s.pcs| ==> !s.pcs[t].Blocked?
  }

  ghost function Next(s: State, e: Event): Option<State> {
    if e.t >= |s.pcs| then None
    else match e
    case CallPost(t) => if s.pcs[t].Idle? then Some(Goto(s, t, PostLock)) else None
    case CallWait(t) => if s.pcs[t].Idle? then Some(Goto(s, t, WaitLock)) else None
    case CallTry(t) => if s.pcs[t].Idle? then Some(Goto(s, t, TryLock)) else None
    case Runs(t) => Step(s, t)
    case Signals(t, w) =>
      if !s.pcs[t].PostSignal? then None
      else if NobodyBlocks(s) then Some(Goto(s, t, PostUnlock))
      else if w < |s.pcs| && s.pcs[w].Blocked? then Some(Goto(Goto(s, w, Woken), t, PostUnlock))
      else None
    case WakesSpuriously(t) => if s.pcs[t].Blocked? then Some(Goto(s, t, Woken)) else None
  }

  ghost predicate Init(s: State) {
    s.count >= 0 && s.holder.None? && forall t :: 0 <= t < |s.pcs| ==> s.pcs[t].Idle?
  }

  ghost function Run(s: State, es: seq<Event>): Option<State>
    decreases |es|
  {
    if es == [] then Some(s)
    else match Next(s, es[0])
         case None => None
         case Some(s1) => Run(s1, es[1..])
  }

  // ----- the invariant -----

  predicate Holds(pc: Pc) {
    match pc
    case PostInc | PostSignal | PostUnlock => true
    case WaitTest(_) | WaitTake(_) | WaitUnlock => true
    case TryTest | TryUnlock(_) => true
    case _ => false
  }

  /** Woken, and neither through nor blocked again. */
  predicate OnItsWay(pc: Pc) {
    pc.Woken? || (pc.WaitTest? && pc.woken) || (pc.WaitTake? && pc.woken)
  }

  function Wakeups(pcs: seq<Pc>): nat {
    if pcs == [] then 0 else (if OnItsWay(pcs[0]) then 1 else 0) + Wakeups(pcs[1..])
  }

  function Signalling(s: State): nat {
    if s.holder.Some? && s.holder.value < |s.pcs| && s.pcs[s.holder.value].PostSignal? then 1 else 0
  }

  ghost predicate Inv(s: State) {
    && s.count >= 0
    && (s.holder.Some? ==> s.holder.value < |s.pcs| && Holds(s.pcs[s.holder.value]))
    && (forall t :: 0 <= t < |s.pcs| && Holds(s.pcs[t]) ==> s.holder == Some(t))
    && (forall t :: 0 <= t < |s.pcs| && s.pcs[t].WaitTake? ==> s.count > 0)
    && (NobodyBlocks(s) || s.count <= Wakeups(s.pcs) + Signalling(s))
  }

  lemma {:induction false} WakeupsUpdate(pcs: seq<Pc>, t: Tid, pc: Pc)
    requires t < |pcs|
    ensures Wakeups(pcs[t := pc]) + (if OnItsWay(pcs[t]) then 1 else 0)
         == Wakeups(pcs) + (if OnItsWay(pc) then 1 else 0)
  {
    if t == 0 {
      assert pcs[t := pc][1..] == pcs[1..];
    } else {
      assert pcs[t := pc][1..] == pcs[1..][t - 1 := pc];
      WakeupsUpdate(pcs[1..], t - 1, pc);
    }
  }

  /** A waiter that finds nothing blocks on a count of zero. */
  lemma TestKeepsInv(s: State, t: Tid)
    requires Inv(s) && t < |s.pcs| && s.pcs[t].WaitTest?
    ensures Inv(Step(s, t).value)
  {
    WakeupsUpdate(s.pcs, t, Step(s, t).value.pcs[t]);
  }

  lemma AcquireKeepsInv(s: State, t: Tid)
    requires Inv(s) && t < |s.pcs| && Step(s, t).Some?
    requires s.holder.None?
    ensures Inv(Step(s, t).value)
  {
    var s1 := Step(s, t).value;
    if s.pcs[t].WaitTest? {
      TestKeepsInv(s, t);
    } else {
      WakeupsUpdate(s.pcs, t, s1.pcs[t]);
      assert s1.pcs == s.pcs[t := s1.pcs[t]] && !s1.pcs[t].Blocked? && !s.pcs[t].Blocked?;
      assert NobodyBlocks(s) ==> NobodyBlocks(s1);
    }
  }

  lemma HoldKeepsInv(s: State, t: Tid)
    requires Inv(s) && t < |s.pcs| && Step(s, t).Some?
    requires s.holder.Some?
    ensures Inv(Step(s, t).value)
  {
    var s1 := Step(s, t).value;
    if s.pcs[t].WaitTest? {
      TestKeepsInv(s, t);
    } else {
      WakeupsUpdate(s.pcs, t, s1.pcs[t]);
      assert s1.pcs == s.pcs[t := s1.pcs[t]] && !s1.pcs[t].Blocked? && !s.pcs[t].Blocked?;
      assert NobodyBlocks(s) ==> NobodyBlocks(s1);
    }
  }

  lemma StepKeepsInv(s: State, t: Tid)
    requires Inv(s) && t < |s.pcs| && Step(s, t).Some?
    ensures Inv(Step(s, t).value)
  {
    if s.holder.None? {
      AcquireKeepsInv(s, t);
    } else {
      HoldKeepsInv(s, t);
    }
  }

  lemma SignalKeepsInv(s: State, t: Tid, w: Tid)
    requires Inv(s) && Next(s, Signals(t, w)).Some?
    ensures Inv(Next(s, Signals(t, w)).value)
  {
    var s1 := Next(s, Signals(t, w)).value;
    if NobodyBlocks(s) {
      assert NobodyBlocks(s1);
    } else {
      WakeupsUpdate(s.pcs, w, Woken);
      WakeupsUpdate(s.pcs[w := Woken], t, PostUnlock);
    }
  }

  lemma NextKeepsInv(s: State, e: Event)
    requires Inv(s) && Next(s, e).Some?
    ensures Inv(Next(s, e).value)
  {
    match e
    case Runs(t) => StepKeepsInv(s, t);
    case Signals(t, w) => SignalKeepsInv(s, t, w);
    case WakesSpuriously(t) => WakeupsUpdate(s.pcs, t, Woken);
    case CallPost(t) => CallKeepsInv(s, t, PostLock);
    case CallWait(t) => CallKeepsInv(s, t, WaitLock);
    case CallTry(t) => CallKeepsInv(s, t, TryLock);
  }

  lemma CallKeepsInv(s: State, t: Tid, pc: Pc)
    requires Inv(s) && t < |s.pcs| && s.pcs[t].Idle? && (pc.PostLock? || pc.WaitLock? || pc.TryLock?)
    ensures Inv(Goto(s, t, pc))
  {
    WakeupsUpdate(s.pcs, t, pc);
    if !NobodyBlocks(Goto(s, t, pc)) {
      var u :| 0 <= u < |s.pcs| && s.pcs[t := pc][u].Blocked?;
      assert s.pcs[u].Blocked?;
    }
  }

  lemma {:induction false} RunKeepsInv(s: State, es: seq<Event>)
    requires Inv(s) && Run(s, es).Some?
    ensures Inv(Run(s, es).value)
    decreases |es|
  {
    if es == [] {
    } else {
      NextKeepsInv(s, es[0]);
      RunKeepsInv(Next(s, es[0]).value, es[1..]);
    }
  }

  // ----- it implements an atomic counting semaphore -----

  datatype Call = PostCall | WaitCall | TryCall

  /** What a call did, and what it reports when it returns. */
  datatype Report = Posted | Waited | Tried(ok: bool)

  /** The operation of the abstract semaphore that an event performs. */
  datatype Op = Silent | Post | Take | TryFails

  ghost function PerformedBy(s: State, e: Event): Option<Report>
    requires e.t < |s.pcs|
  {
    if !e.Runs? then None
    else match s.pcs[e.t]
    case PostInc => Some(Posted)
    case WaitTake(_) => Some(Waited)
    case TryTest => Some(Tried(s.count > 0))
    case _ => None
  }

  ghost function OpOf(s: State, e: Event): Op
    requires e.t < |s.pcs|
  {
    match PerformedBy(s, e)
    case None => Silent
    case Some(Posted) => Post
    case Some(Waited) => Take
    case Some(Tried(ok)) => if ok then Take else TryFails
  }

  /** The abstract semaphore: a post adds one, a take needs a positive count and
      removes one, and a try fails only on zero. */
  ghost predicate Performs(op: Op, before: int, after: int) {
    match op
    case Silent => after == before
    case Post => after == before + 1
    case Take => before > 0 && after == before - 1
    case TryFails => before == 0 && after == 0
  }

  lemma EveryEventIsAtomic(s: State, e: Event)
    requires Inv(s) && Next(s, e).Some?
    ensures Performs(OpOf(s, e), s.count, Next(s, e).value.count)
  {
  }

  ghost function Tally(s: State, es: seq<Event>, op: Op): nat
    decreases |es|
  {
    if es == [] then 0
    else match Next(s, es[0])
         case None => 0
         case Some(s1) => (if OpOf(s, es[0]) == op then 1 else 0) + Tally(s1, es[1..], op)
  }

  /** Over every run: what was there and what was posted is there or was taken. */
  lemma {:induction false} CountIsConserved(s: State, es: seq<Event>)
    requires Inv(s) && Run(s, es).Some?
    ensures Run(s, es).value.count + Tally(s, es, Take) == s.count + Tally(s, es, Post)
    decreases |es|
  {
    if es == [] {
    } else {
      NextKeepsInv(s, es[0]);
      EveryEventIsAtomic(s, es[0]);
      CountIsConserved(Next(s, es[0]).value, es[1..]);
    }
  }

  // ----- each call takes effect once -----

  ghost function CalledBy(e: Event): Option<Call> {
    match e
    case CallPost(_) => Some(PostCall)
    case CallWait(_) => Some(WaitCall)
    case CallTry(_) => Some(TryCall)
    case _ => None
  }

  /** What a call that returns with this event reports to its caller. */
  ghost function ReturnedBy(s: State, e: Event): Option<Report>
    requires e.t < |s.pcs|
  {
    if !e.Runs? then None
    else match s.pcs[e.t]
    case PostUnlock => Some(Posted)
    case WaitUnlock => Some(Waited)
    case TryUnlock(ok) => Some(Tried(ok))
    case _ => None
  }

  function List<T>(o: Option<T>): seq<T> {
    match o case None => [] case Some(x) => [x]
  }

  /** The calls that thread `t` makes in a run, in order. */
  ghost function Calls(es: seq<Event>, t: Tid): seq<Call> {
    if es == [] then [] else (if es[0].t == t then List(CalledBy(es[0])) else []) + Calls(es[1..], t)
  }

  /** What thread `t` performs in a run, in order. */
  ghost function Performed(s: State, es: seq<Event>, t: Tid): seq<Report>
    requires Run(s, es).Some?
    decreases |es|
  {
    if es == [] then []
    else (if es[0].t == t then List(PerformedBy(s, es[0])) else []) + Performed(Next(s, es[0]).value, es[1..], t)
  }

  /** What is reported to thread `t` in a run, in order. */
  ghost function Returned(s: State, es: seq<Event>, t: Tid): seq<Report>
    requires Run(s, es).Some?
    decreases |es|
  {
    if es == [] then []
    else (if es[0].t == t then List(ReturnedBy(s, es[0])) else []) + Returned(Next(s, es[0]).value, es[1..], t)
  }

  function CallsOf(reports: seq<Report>): seq<Call> {
    if reports == [] then []
    else List(CallOf(Some(reports[0]))) + CallsOf(reports[1..])
  }

  function CallOf(r: Option<Report>): Option<Call> {
    match r
    case None => None
    case Some(Posted) => Some(PostCall)
    case Some(Waited) => Some(WaitCall)
    case Some(Tried(_)) => Some(TryCall)
  }

  /** The call under way, if it has not taken effect. */
  function Unperformed(pc: Pc): Option<Call> {
    match pc
    case PostLock | PostInc => Some(PostCall)
    case WaitLock | WaitTest(_) | Blocked | Woken | WaitTake(_) => Some(WaitCall)
    case TryLock | TryTest => Some(TryCall)
    case _ => None
  }

  /** What the call under way has done, if it has not returned. */
  function Unreturned(pc: Pc): Option<Report> {
    match pc
    case PostSignal | PostUnlock => Some(Posted)
    case WaitUnlock => Some(Waited)
    case TryUnlock(ok) => Some(Tried(ok))
    case _ => None
  }

  /** A place for one item: nothing happens, or it is filled, or it is emptied. */
  predicate Shifts<T(==)>(before: Option<T>, item: Option<T>, taken: Option<T>, after: Option<T>) {
    || (item.None? && taken.None? && after == before)
    || (before.None? && item.Some? && taken.None? && after == item)
    || (before.Some? && item.None? && taken == before && after.None?)
  }

  lemma RunKeepsTrace(s: State, t: Tid)
    requires t < |s.pcs| && Step(s, t).Some?
    ensures |Step(s, t).value.pcs| == |s.pcs|
    ensures var e, pc := Runs(t), Step(s, t).value.pcs[t];
      && Shifts(Unreturned(s.pcs[t]), PerformedBy(s, e), ReturnedBy(s, e), Unreturned(pc))
      && Shifts(Unperformed(s.pcs[t]), None, CallOf(PerformedBy(s, e)), Unperformed(pc))
    ensures forall u :: 0 <= u < |s.pcs| && u != t ==> Step(s, t).value.pcs[u] == s.pcs[u]
  {
  }

  lemma StepKeepsTrace(s: State, e: Event, t: Tid)
    requires t < |s.pcs| && Next(s, e).Some?
    ensures |Next(s, e).value.pcs| == |s.pcs|
    ensures var pc := Next(s, e).value.pcs[t];
      if e.t == t then
        && Shifts(Unreturned(s.pcs[t]), PerformedBy(s, e), ReturnedBy(s, e), Unreturned(pc))
        && Shifts(Unperformed(s.pcs[t]), CalledBy(e), CallOf(PerformedBy(s, e)), Unperformed(pc))
      else Unreturned(pc) == Unreturned(s.pcs[t]) && Unperformed(pc) == Unperformed(s.pcs[t])
  {
    if e.Runs? { RunKeepsTrace(s, e.t); }
  }

  lemma ShiftExtends<T>(before: Option<T>, item: Option<T>, taken: Option<T>, after: Option<T>,
                        items: seq<T>, takens: seq<T>, last: Option<T>)
    requires Shifts(before, item, taken, after)
    requires List(after) + items == takens + List(last)
    ensures List(before) + (List(item) + items) == (List(taken) + takens) + List(last)
  {
    assert List(before) + List(item) == List(taken) + List(after);
    assert List(before) + (List(item) + items) == (List(before) + List(item)) + items;
    assert (List(taken) + List(after)) + items == List(taken) + (List(after) + items);
    assert List(taken) + (takens + List(last)) == (List(taken) + takens) + List(last);
  }

  lemma CallsOfList(r: Option<Report>, rest: seq<Report>)
    ensures CallsOf(List(r) + rest) == List(CallOf(r)) + CallsOf(rest)
  {
    if r.None? {
      assert List(r) + rest == rest;
    } else {
      assert (List(r) + rest)[1..] == rest;
    }
  }

  /** From thread `t`'s side, between any two states of a run: each call it makes
      takes effect exactly once, in order, after it is made and before it returns,
      and reports what it did. A try reports success exactly if it took. */
  lemma {:induction false} EachCallTakesEffectOnce(s: State, es: seq<Event>, t: Tid)
    requires t < |s.pcs| && Run(s, es).Some?
    ensures |Run(s, es).value.pcs| == |s.pcs|
    ensures var pc := Run(s, es).value.pcs[t];
      && List(Unreturned(s.pcs[t])) + Performed(s, es, t) == Returned(s, es, t) + List(Unreturned(pc))
      && List(Unperformed(s.pcs[t])) + Calls(es, t) == CallsOf(Performed(s, es, t)) + List(Unperformed(pc))
    decreases |es|
  {
    if es == [] {
    } else {
      var e, s1 := es[0], Next(s, es[0]).value;
      StepKeepsTrace(s, e, t);
      EachCallTakesEffectOnce(s1, es[1..], t);
      TraceStep(s, es, t, s1, Run(s, es).value.pcs[t]);
    }
  }

  lemma TraceStep(s: State, es: seq<Event>, t: Tid, s1: State, last: Pc)
    requires es != [] && t < |s.pcs| && Run(s, es).Some? && Next(s, es[0]) == Some(s1) && |s1.pcs| == |s.pcs|
    requires Run(s1, es[1..]).Some?
    requires if es[0].t == t then
        && Shifts(Unreturned(s.pcs[t]), PerformedBy(s, es[0]), ReturnedBy(s, es[0]), Unreturned(s1.pcs[t]))
        && Shifts(Unperformed(s.pcs[t]), CalledBy(es[0]), CallOf(PerformedBy(s, es[0])), Unperformed(s1.pcs[t]))
      else Unreturned(s1.pcs[t]) == Unreturned(s.pcs[t]) && Unperformed(s1.pcs[t]) == Unperformed(s.pcs[t])
    requires var p := Performed(s1, es[1..], t);
      && List(Unreturned(s1.pcs[t])) + p == Returned(s1, es[1..], t) + List(Unreturned(last))
      && List(Unperformed(s1.pcs[t])) + Calls(es[1..], t) == CallsOf(p) + List(Unperformed(last))
    ensures List(Unreturned(s.pcs[t])) + Performed(s, es, t) == Returned(s, es, t) + List(Unreturned(last))
    ensures List(Unperformed(s.pcs[t])) + Calls(es, t) == CallsOf(Performed(s, es, t)) + List(Unperformed(last))
  {
    var e, p, r, c := es[0], Performed(s1, es[1..], t), Returned(s1, es[1..], t), Calls(es[1..], t);
    if e.t == t {
      ShiftExtends(Unreturned(s.pcs[t]), PerformedBy(s, e), ReturnedBy(s, e), Unreturned(s1.pcs[t]), p, r,
        Unreturned(last));
      ShiftExtends(Unperformed(s.pcs[t]), CalledBy(e), CallOf(PerformedBy(s, e)), Unperformed(s1.pcs[t]), c,
        CallsOf(p), Unperformed(last));
      CallsOfList(PerformedBy(s, e), p);
    } else {
      assert [] + p == p && [] + r == r && [] + c == c;
    }
  }

  // ----- every call finishes -----

  /** `n` steps of thread `t` in a row. */
  function Steps(t: Tid, n: nat): seq<Event> {
    if n == 0 then [] else [Runs(t)] + Steps(t, n - 1)
  }

  lemma OneStep(s: State, t: Tid, n: nat, s1: State)
    requires n > 0 && t < |s.pcs| && Step(s, t) == Some(s1)
    ensures Run(s, Steps(t, n)) == Run(s1, Steps(t, n - 1))
  {
    assert Steps(t, n)[1..] == Steps(t, n - 1);
  }

  lemma Overwritten(pcs: seq<Pc>, t: Tid)
    requires t < |pcs|
    ensures forall a: Pc, b: Pc {:trigger pcs[t := a][t := b]} :: pcs[t := a][t := b] == pcs[t := b]
  {
  }

  /** A wait, fresh or woken, that finds the count positive and the lock free takes one
      and returns, by four steps of its own. */
  lemma WaitCompletes(s: State, t: Tid)
    requires t < |s.pcs| && s.count > 0 && s.holder.None? && (s.pcs[t].WaitLock? || s.pcs[t].Woken?)
    ensures Run(s, Steps(t, 4)) == Some(State(s.count - 1, None, s.pcs[t := Idle]))
  {
    Overwritten(s.pcs, t);
    var woken := s.pcs[t].Woken?;
    var s1 := State(s.count, Some(t), s.pcs[t := WaitTest(woken)]);
    var s2 := State(s.count, Some(t), s.pcs[t := WaitTake(woken)]);
    var s3 := State(s.count - 1, Some(t), s.pcs[t := WaitUnlock]);
    var s4 := State(s.count - 1, None, s.pcs[t := Idle]);
    OneStep(s, t, 4, s1);
    OneStep(s1, t, 3, s2);
    OneStep(s2, t, 2, s3);
    OneStep(s3, t, 1, s4);
  }

  /** A try with the lock free takes one exactly if the count is positive, and returns
      by three steps of its own. */
  lemma TryCompletes(s: State, t: Tid)
    requires t < |s.pcs| && s.count >= 0 && s.holder.None? && s.pcs[t].TryLock?
    ensures Run(s, Steps(t, 3)) == Some(State(if s.count > 0 then s.count - 1 else 0, None, s.pcs[t := Idle]))
  {
    Overwritten(s.pcs, t);
    var left := if s.count > 0 then s.count - 1 else 0;
    var s1 := State(s.count, Some(t), s.pcs[t := TryTest]);
    var s2 := State(left, Some(t), s.pcs[t := TryUnlock(s.count > 0)]);
    OneStep(s, t, 3, s1);
    OneStep(s1, t, 2, s2);
    OneStep(s2, t, 1, State(left, None, s.pcs[t := Idle]));
  }

  /** A post with the lock free adds one, wakes one blocked thread if there is any, and
      returns by four steps of its own. */
  lemma PostCompletes(s: State, t: Tid, w: Tid)
    requires t < |s.pcs| && s.holder.None? && s.pcs[t].PostLock?
    requires NobodyBlocks(s) || (w < |s.pcs| && s.pcs[w].Blocked?)
    ensures Run(s, [Runs(t), Runs(t), Signals(t, w), Runs(t)])
         == Some(State(s.count + 1, None, (if NobodyBlocks(s) then s.pcs else s.pcs[w := Woken])[t := Idle]))
  {
    Overwritten(s.pcs, t);
    var pcs := if NobodyBlocks(s) then s.pcs else s.pcs[w := Woken];
    var s2 := State(s.count + 1, Some(t), s.pcs[t := PostSignal]);
    var s3 := State(s.count + 1, Some(t), pcs[t := PostUnlock]);
    PostReachesSignal(s, t);
    SignalWakes(s, t, w, s2, s3);
    Overwritten(pcs, t);
    var s4 := State(s.count + 1, None, pcs[t := Idle]);
    assert Next(s3, Runs(t)) == Some(s4);
    var es := [Runs(t), Runs(t), Signals(t, w), Runs(t)];
    assert es == [Runs(t), Runs(t)] + [Signals(t, w), Runs(t)];
    RunConcat(s, [Runs(t), Runs(t)], [Signals(t, w), Runs(t)]);
    assert [Signals(t, w), Runs(t)][1..] == [Runs(t)] && [Runs(t)][1..] == [];
    assert Run(s3, [Runs(t)]) == Run(s4, []);
  }

  lemma PostReachesSignal(s: State, t: Tid)
    requires t < |s.pcs| && s.holder.None? && s.pcs[t].PostLock?
    ensures Run(s, [Runs(t), Runs(t)]) == Some(State(s.count + 1, Some(t), s.pcs[t := PostSignal]))
  {
    Overwritten(s.pcs, t);
    var s1 := State(s.count, Some(t), s.pcs[t := PostInc]);
    assert Steps(t, 2) == [Runs(t), Runs(t)] by { assert Steps(t, 1) == [Runs(t)] + Steps(t, 0); }
    OneStep(s, t, 2, s1);
    OneStep(s1, t, 1, State(s.count + 1, Some(t), s.pcs[t := PostSignal]));
  }

  lemma SignalWakes(s: State, t: Tid, w: Tid, s2: State, s3: State)
    requires t < |s.pcs| && s.pcs[t].PostLock? && (NobodyBlocks(s) || (w < |s.pcs| && s.pcs[w].Blocked?))
    requires s2 == State(s.count + 1, Some(t), s.pcs[t := PostSignal])
    requires s3 == s2.(pcs := (if NobodyBlocks(s) then s.pcs else s.pcs[w := Woken])[t := PostUnlock])
    ensures Next(s2, Signals(t, w)) == Some(s3)
  {
    if NobodyBlocks(s) {
      assert NobodyBlocks(s2);
      assert s.pcs[t := PostSignal][t := PostUnlock] == s.pcs[t := PostUnlock];
    } else {
      assert s2.pcs[w].Blocked?;
      assert s.pcs[t := PostSignal][w := Woken][t := PostUnlock] == s.pcs[w := Woken][t := PostUnlock];
    }
  }

  lemma {:induction false} RunConcat(s: State, es: seq<Event>, fs: seq<Event>)
    requires Run(s, es).Some?
    ensures Run(s, es + fs) == Run(Run(s, es).value, fs)
    decreases |es|
  {
    if es == [] {
      assert es + fs == fs;
    } else {
      assert (es + fs)[1..] == es[1..] + fs;
      RunConcat(Next(s, es[0]).value, es[1..], fs);
    }
  }

  /** How many steps of its own a thread can still make without being woken. */
  function StepsLeft(pc: Pc): nat {
    match pc
    case Idle | Blocked => 0
    case PostUnlock | WaitUnlock | TryUnlock(_) => 1
    case PostSignal | WaitTake(_) | TryTest => 2
    case PostInc | WaitTest(_) | TryLock => 3
    case PostLock | WaitLock | Woken => 4
  }

  ghost function OwnSteps(es: seq<Event>, t: Tid): nat {
    if es == [] then 0 else (if (es[0].Runs? || es[0].Signals?) && es[0].t == t then 1 else 0) + OwnSteps(es[1..], t)
  }

  ghost predicate Wakes(s: State, e: Event, t: Tid) {
    t < |s.pcs| && s.pcs[t].Blocked? && ((e.WakesSpuriously? && e.t == t) || (e.Signals? && e.w == t))
  }

  ghost function TimesWoken(s: State, es: seq<Event>, t: Tid): nat
    requires Run(s, es).Some?
    decreases |es|
  {
    if es == [] then 0
    else (if Wakes(s, es[0], t) then 1 else 0) + TimesWoken(Next(s, es[0]).value, es[1..], t)
  }

  lemma RunUsesStep(s: State, t: Tid)
    requires t < |s.pcs| && Step(s, t).Some?
    ensures |Step(s, t).value.pcs| == |s.pcs| && StepsLeft(Step(s, t).value.pcs[t]) + 1 <= StepsLeft(s.pcs[t])
    ensures forall u :: 0 <= u < |s.pcs| && u != t ==> Step(s, t).value.pcs[u] == s.pcs[u]
  {
  }

  lemma EventUsesStep(s: State, e: Event, t: Tid)
    requires t < |s.pcs| && Next(s, e).Some?
    ensures |Next(s, e).value.pcs| == |s.pcs|
    ensures StepsLeft(Next(s, e).value.pcs[t]) + OwnSteps([e], t)
         <= StepsLeft(s.pcs[t]) + 4 * (|Calls([e], t)| + if Wakes(s, e, t) then 1 else 0)
  {
    assert [e][1..] == [];
    if e.Runs? { RunUsesStep(s, e.t); }
  }

  /** No call circles: over every run a thread's own steps are bounded by four for each
      call it makes and four for each time it is woken from the condition variable. */
  lemma {:induction false} OwnStepsAreBounded(s: State, es: seq<Event>, t: Tid)
    requires t < |s.pcs| && Run(s, es).Some?
    ensures |Run(s, es).value.pcs| == |s.pcs|
    ensures StepsLeft(Run(s, es).value.pcs[t]) + OwnSteps(es, t)
         <= StepsLeft(s.pcs[t]) + 4 * (|Calls(es, t)| + TimesWoken(s, es, t))
    decreases |es|
  {
    if es == [] {
    } else {
      EventUsesStep(s, es[0], t);
      assert [es[0]][1..] == [];
      OwnStepsAreBounded(Next(s, es[0]).value, es[1..], t);
    }
  }

  // ----- no lost wakeup -----

  lemma {:induction false} SomebodyOnItsWay(pcs: seq<Pc>) returns (t: Tid)
    requires Wakeups(pcs) > 0
    ensures t < |pcs| && OnItsWay(pcs[t])
  {
    if OnItsWay(pcs[0]) { t := 0; } else { t := SomebodyOnItsWay(pcs[1..]); t := t + 1; }
  }

  /** The count exceeds the wakeups under way only by a post whose signal is the
      next thing its thread does. */
  lemma NoLostWakeup(s0: State, es: seq<Event>, t: Tid)
    requires Init(s0) && Run(s0, es).Some?
    requires var s := Run(s0, es).value; t < |s.pcs| && s.pcs[t].Blocked?
    ensures var s := Run(s0, es).value;
      && 0 <= s.count <= Wakeups(s.pcs) + Signalling(s)
      && (s.count > 0 ==> exists u :: 0 <= u < |s.pcs| && (OnItsWay(s.pcs[u]) || s.pcs[u].PostSignal?))
  {
    RunKeepsInv(s0, es);
    var s := Run(s0, es).value;
    if s.count > 0 && Signalling(s) == 0 {
      var u := SomebodyOnItsWay(s.pcs);
    } else if s.count > 0 {
      assert s.pcs[s.holder.value].PostSignal?;
    }
  }

  ghost predicate CanRun(s: State, t: Tid) {
    t < |s.pcs| && (Next(s, Runs(t)).Some? || exists w: Tid :: Next(s, Signals(t, w)).Some?)
  }

  lemma HolderCanRun(s: State)
    requires Inv(s) && s.holder.Some?
    ensures CanRun(s, s.holder.value)
  {
    var t := s.holder.value;
    if s.pcs[t].PostSignal? {
      if NobodyBlocks(s) {
        assert Next(s, Signals(t, 0)).Some?;
      } else {
        var w :| 0 <= w < |s.pcs| && s.pcs[w].Blocked?;
        assert Next(s, Signals(t, w)).Some?;
      }
    }
  }

  /** A semaphore at rest, where no thread can make a step of its own, has blocked
      threads only if its count is zero. */
  lemma BlockedAtRestMeansZero(s0: State, es: seq<Event>, t: Tid)
    requires Init(s0) && Run(s0, es).Some?
    requires var s := Run(s0, es).value;
      t < |s.pcs| && s.pcs[t].Blocked? && forall u :: 0 <= u < |s.pcs| ==> !CanRun(s, u)
    ensures Run(s0, es).value.count == 0
  {
    RunKeepsInv(s0, es);
    var s := Run(s0, es).value;
    if s.holder.Some? { HolderCanRun(s); }
    if s.count > 0 {
      var u := SomebodyOnItsWay(s.pcs);
      assert CanRun(s, u);
    }
  }
}
