/** The counting semaphore over a mutex and a condition variable, compiled without interruption.

    Any number of threads call Notify, Wait, TryWait and WaitFor.  Each mutex operation, each statement
    on the counter and each condition-variable operation is one step, so that other threads can barge in
    between; a blocked thread can wake spuriously or by timeout at any moment.
 */
module Semaphore {

  type Tid = int

  datatype Op = Notify | Wait | TryWait | WaitFor(relTime: int)

  datatype Pc =
    | Idle
    | Lock(op: Op)                    // about to take mutex_
    | Test(op: Op)                    // holds mutex_, first statement
    | Signal                          // holds mutex_, counter raised, about to call NotifyOne()
    | Blocked(op: Op)                 // inside the condition variable, mutex_ released
    | Woken(op: Op, timedOut: bool)   // left the condition variable, about to take mutex_ again
    | Recheck(op: Op, timedOut: bool) // holds mutex_ again, about to look at the counter
    | Take(op: Op)                    // holds mutex_, about to lower the counter
    | Unlock(op: Op, ok: bool)        // holds mutex_, about to leave

  datatype Event = Returned(t: Tid, op: Op, ok: bool)

  datatype Mutex = Free | HeldBy(t: Tid)

  datatype State = State(cnt: nat, mutex: Mutex, pcs: map<Tid, Pc>, trace: seq<Event>)

  datatype Action =
    | Call(t: Tid, op: Op)
    | Tick(t: Tid, waiter: Tid)   // `waiter` is the blocked thread that NotifyOne() picks, if any is blocked
    | Wake(t: Tid, timedOut: bool)

  function Init(cnt: nat): State {
    State(cnt, Free, map[], [])
  }

  function Put(s: State, t: Tid, pc: Pc): State {
    s.(pcs := s.pcs[t := pc])
  }

  function PcOf(s: State, t: Tid): Pc {
    if t in s.pcs then s.pcs[t] else Idle
  }

  function BlockedThreads(s: State): set<Tid> {
    set t | t in s.pcs && s.pcs[t].Blocked?
  }

  // Threads that left the condition variable and have not looked at the counter since.
  function Unchecked(s: State): set<Tid> {
    set t | t in s.pcs && (s.pcs[t].Woken? || s.pcs[t].Recheck?)
  }

  function Exec(s: State, t: Tid, waiter: Tid): State {
    match PcOf(s, t)
    case Idle => s
    case Lock(op) => if s.mutex == Free then Put(s, t, Test(op)).(mutex := HeldBy(t)) else s
    case Test(op) =>
      (match op
       case Notify => Put(s, t, Signal).(cnt := s.cnt + 1)
       case TryWait => Put(s, t, if s.cnt > 0 then Take(op) else Unlock(op, false))
       case Wait => if s.cnt == 0 then Put(s, t, Blocked(op)).(mutex := Free) else Put(s, t, Take(op))
       case WaitFor(rel) =>
         if rel <= 0 then Put(s, t, if s.cnt > 0 then Take(op) else Unlock(op, false))
         else if s.cnt == 0 then Put(s, t, Blocked(op)).(mutex := Free)
         else Put(s, t, Take(op)))
    case Signal =>
      if BlockedThreads(s) == {} then Put(s, t, Unlock(Notify, true))
      else if waiter in BlockedThreads(s) then
        Put(Put(s, waiter, Woken(s.pcs[waiter].op, false)), t, Unlock(Notify, true))
      else s
    case Blocked(_) => s
    case Woken(op, timedOut) => if s.mutex == Free then Put(s, t, Recheck(op, timedOut)).(mutex := HeldBy(t)) else s
    case Recheck(op, timedOut) =>
      if s.cnt > 0 then Put(s, t, Take(op))
      else if timedOut then Put(s, t, Unlock(op, false))
      else Put(s, t, Blocked(op)).(mutex := Free)
    case Take(op) => if s.cnt > 0 then Put(s, t, Unlock(op, true)).(cnt := s.cnt - 1) else s
    case Unlock(op, ok) => Put(s, t, Idle).(mutex := Free, trace := s.trace + [Returned(t, op, ok)])
  }

  function Apply(s: State, a: Action): State {
    match a
    case Call(t, op) => if PcOf(s, t) == Idle then Put(s, t, Lock(op)) else s
    case Tick(t, waiter) => Exec(s, t, waiter)
    case Wake(t, timedOut) =>
      // a spurious wake-up, or a timeout of WaitFor()
      var pc := PcOf(s, t);
      if pc.Blocked? && (timedOut ==> pc.op.WaitFor?) then Put(s, t, Woken(pc.op, timedOut)) else s
  }

  function Run(cnt: nat, acts: seq<Action>): State {
    if acts == [] then Init(cnt) else Apply(Run(cnt, acts[..|acts| - 1]), acts[|acts| - 1])
  }

  // Completed Notify() calls, and completed waits of any kind that answered true.
  function Notifies(trace: seq<Event>): nat {
    if trace == [] then 0
    else Notifies(trace[..|trace| - 1]) + if trace[|trace| - 1].op == Notify then 1 else 0
  }

  function Waits(trace: seq<Event>): nat {
    if trace == [] then 0
    else Waits(trace[..|trace| - 1]) + if trace[|trace| - 1].op != Notify && trace[|trace| - 1].ok then 1 else 0
  }

  predicate Holding(pc: Pc) {
    pc.Test? || pc.Signal? || pc.Recheck? || pc.Take? || pc.Unlock?
  }

  // The effect on the counter of a call that has not returned yet.
  function Due(pc: Pc): int {
    match pc
    case Signal => 1
    case Unlock(op, ok) => if op == Notify then 1 else if ok then -1 else 0
    case _ => 0
  }

  function HolderPc(s: State): Pc {
    match s.mutex
    case Free => Idle
    case HeldBy(t) => PcOf(s, t)
  }

  predicate MutexOk(s: State) {
    && (forall t :: t in s.pcs && Holding(s.pcs[t]) ==> s.mutex == HeldBy(t))
    && (s.mutex.HeldBy? ==> s.mutex.t in s.pcs && Holding(s.pcs[s.mutex.t]))
    && (forall t :: t in s.pcs && s.pcs[t].Take? ==> s.cnt > 0)
    && (forall t :: t in s.pcs && (s.pcs[t].Blocked? || s.pcs[t].Woken? || s.pcs[t].Recheck? || s.pcs[t].Take?) ==>
          s.pcs[t].op != Notify)
  }

  predicate Conserved(s: State, init: nat) {
    s.cnt + Waits(s.trace) == init + Notifies(s.trace) + Due(HolderPc(s))
  }

  // While a thread is blocked, each token will be looked at by a woken thread, or by the mutex holder
  // that is about to signal it or about to take it.
  predicate NoneLost(s: State) {
    BlockedThreads(s) != {} ==> s.cnt <= |Unchecked(s)| + (if HolderPc(s).Signal? || HolderPc(s).Take? then 1 else 0)
  }

  predicate Inv(s: State, init: nat) {
    MutexOk(s) && Conserved(s, init) && NoneLost(s)
  }

  // ---------- every action keeps the invariant ----------

  lemma CallKeepsInv(s: State, init: nat, t: Tid, op: Op)
    requires Inv(s, init)
    ensures Inv(Apply(s, Call(t, op)), init)
  {
    var u := Apply(s, Call(t, op));
    assert BlockedThreads(u) == BlockedThreads(s) && Unchecked(u) == Unchecked(s);
  }

  lemma WakeKeepsInv(s: State, init: nat, t: Tid, timedOut: bool)
    requires Inv(s, init)
    ensures Inv(Apply(s, Wake(t, timedOut)), init)
  {
    var u := Apply(s, Wake(t, timedOut));
    if u != s {
      assert Unchecked(u) == Unchecked(s) + {t};
      assert HolderPc(u) == HolderPc(s);
    }
  }

  lemma TraceGrows(trace: seq<Event>, e: Event)
    ensures Notifies(trace + [e]) == Notifies(trace) + if e.op == Notify then 1 else 0
    ensures Waits(trace + [e]) == Waits(trace) + if e.op != Notify && e.ok then 1 else 0
  {
    assert (trace + [e])[..|trace|] == trace;
  }

  lemma MutexKept(s: State, t: Tid, w: Tid)
    requires MutexOk(s)
    ensures MutexOk(Exec(s, t, w))
  {
  }

  lemma CountKept(s: State, init: nat, t: Tid, w: Tid)
    requires MutexOk(s) && Conserved(s, init)
    ensures Conserved(Exec(s, t, w), init)
  {
    var pc, u := PcOf(s, t), Exec(s, t, w);
    if pc.Unlock? {
      TraceGrows(s.trace, Returned(t, pc.op, pc.ok));
    } else if Holding(pc) {
      assert HolderPc(s) == pc;
    } else {
      assert u.trace == s.trace && u.cnt == s.cnt && Due(HolderPc(u)) == Due(HolderPc(s));
    }
  }

  lemma SignalLosesNone(s: State, init: nat, t: Tid, w: Tid)
    requires Inv(s, init) && PcOf(s, t).Signal?
    ensures NoneLost(Exec(s, t, w))
  {
    var u := Exec(s, t, w);
    if w in BlockedThreads(s) {
      assert Unchecked(u) == Unchecked(s) + {w};
    } else if BlockedThreads(s) == {} {
      assert BlockedThreads(u) == {};
    }
  }

  lemma TickLosesNone(s: State, init: nat, t: Tid, w: Tid)
    requires Inv(s, init) && !PcOf(s, t).Signal?
    ensures NoneLost(Exec(s, t, w))
  {
    var u := Exec(s, t, w);
    if u != s && u.cnt > 0 {
      assert BlockedThreads(u) == BlockedThreads(s);
      assert Unchecked(u) == if PcOf(s, t).Recheck? then Unchecked(s) - {t} else Unchecked(s);
      assert Holding(PcOf(s, t)) ==> HolderPc(s) == PcOf(s, t);
    }
  }

  lemma {:induction false} RunKeepsInv(init: nat, acts: seq<Action>)
    ensures Inv(Run(init, acts), init)
  {
    if acts == [] {
      assert BlockedThreads(Init(init)) == {};
    } else {
      var s := Run(init, acts[..|acts| - 1]);
      RunKeepsInv(init, acts[..|acts| - 1]);
      match acts[|acts| - 1]
      case Call(t, op) => CallKeepsInv(s, init, t, op);
      case Wake(t, timedOut) => WakeKeepsInv(s, init, t, timedOut);
      case Tick(t, w) =>
        MutexKept(s, t, w);
        CountKept(s, init, t, w);
        if PcOf(s, t).Signal? { SignalLosesNone(s, init, t, w); } else { TickLosesNone(s, init, t, w); }
    }
  }

  // ---------- main results ----------

  // Whenever the mutex is free, the counter is what the completed calls say it must be.
  lemma {:induction false} CounterConserved(init: nat, acts: seq<Action>)
    requires Run(init, acts).mutex == Free
    ensures Run(init, acts).cnt == init + Notifies(Run(init, acts).trace) - Waits(Run(init, acts).trace)
  {
    RunKeepsInv(init, acts);
  }

  // No wake-up is lost: while a thread is blocked, every token in the counter has a woken thread on its way to it.
  lemma {:induction false} NoLostWakeUp(init: nat, acts: seq<Action>, t: Tid)
    requires PcOf(Run(init, acts), t).Blocked? && Run(init, acts).mutex == Free
    ensures Run(init, acts).cnt <= |Unchecked(Run(init, acts))|
  {
    RunKeepsInv(init, acts);
    assert t in BlockedThreads(Run(init, acts));
  }

  // In particular a thread never sleeps on an available token with nobody awake to take it.
  lemma {:induction false} NobodySleepsOnAToken(init: nat, acts: seq<Action>, t: Tid)
    requires PcOf(Run(init, acts), t).Blocked? && Unchecked(Run(init, acts)) == {} && Run(init, acts).mutex == Free
    ensures Run(init, acts).cnt == 0
  {
    NoLostWakeUp(init, acts, t);
  }

  // The decrement is always guarded, also after a timeout: the assertion before it in WaitFor() cannot fail.
  lemma {:induction false} DecrementIsGuarded(init: nat, acts: seq<Action>, t: Tid)
    requires PcOf(Run(init, acts), t).Take?
    ensures Run(init, acts).cnt > 0
  {
    RunKeepsInv(init, acts);
  }

  // Only the mutex or an empty counter can hold a thread up.
  lemma {:induction false} OnlyTheMutexOrAnEmptyCounterWaits(init: nat, acts: seq<Action>, t: Tid, w: Tid)
    requires !PcOf(Run(init, acts), t).Idle? && !PcOf(Run(init, acts), t).Blocked?
    requires Run(init, acts).mutex == Free || Run(init, acts).mutex == HeldBy(t)
    requires PcOf(Run(init, acts), t).Signal? ==>
               BlockedThreads(Run(init, acts)) == {} || w in BlockedThreads(Run(init, acts))
    ensures PcOf(Exec(Run(init, acts), t, w), t) != PcOf(Run(init, acts), t)
    ensures PcOf(Exec(Run(init, acts), t, w), t).Blocked? ==> Run(init, acts).cnt == 0
  {
    RunKeepsInv(init, acts);
  }
}
