/** Thread interruption: requests from any thread, interruption points, the condition-variable wait
    that registers itself, and the scoped guards that disable and restore interruption.

    The machine follows one thread and its InterruptionInfo; `Request` actions come from other threads at
    any moment.  An exception unwinds through the open guards until it is caught.
 */
module Interruption {
  import opened Wrappers

  type Cv = int

  type Registered = Option<Cv>

  // `before` is a history variable: the enabled flag when the guard was constructed.
  datatype Guard =
    | Disable(wasEnabled: bool, before: bool)
    | Restore(wasEnabled: bool, before: bool)

  datatype Pc =
    | Running
    | Unwinding            // an exception is on its way
    | FirstPoint(cv: Cv)   // entered Wait() or WaitFor()
    | Register(cv: Cv)
    | SecondPoint(cv: Cv)
    | InWait(cv: Cv)
    | ThirdPoint(cv: Cv)
    | Unregister(cv: Cv, throwing: bool)

  datatype State = State(
    enabled: bool, waiting: Registered, requested: bool, pc: Pc, guards: seq<Guard>,
    requests: nat, thrown: nat)   // history: requests made, interruptions thrown

  datatype Action =
    | Request
    | Point
    | OpenDisable
    | OpenRestore(k: nat)   // refers to the open guard number k, a Disable guard
    | CloseGuard
    | Catch
    | StartWait(cv: Cv)
    | Tick
    | FailWait   // the wait of the platform throws

  const INIT := State(true, None, false, Running, [], 0, 0)

  // The condition variables notified by a request made now.
  function Notified(s: State): Registered {
    if s.enabled then s.waiting else None
  }

  predicate Throws(s: State) {
    s.enabled && s.requested
  }

  // this_thread::InterruptionPoint(): the request is consumed by the exception it causes.
  function AtPoint(s: State, onThrow: Pc, next: Pc): State {
    if Throws(s) then s.(requested := false, thrown := s.thrown + 1, pc := onThrow) else s.(pc := next)
  }

  function Open(s: State, g: Guard, enabled: bool): State {
    s.(guards := s.guards + [g], enabled := enabled)
  }

  function Close(s: State): State {
    if s.guards == [] then s
    else
      var g := s.guards[|s.guards| - 1];
      s.(guards := s.guards[..|s.guards| - 1], enabled := g.Disable? && g.wasEnabled)
  }

  function Apply(s: State, a: Action): State {
    match a
    case Request => s.(requested := true, requests := s.requests + 1)
    case Point => if s.pc.Running? then AtPoint(s, Unwinding, Running) else s
    case OpenDisable =>
      if s.pc.Running? then Open(s, Disable(s.enabled, s.enabled), false) else s
    case OpenRestore(k) =>
      if s.pc.Running? && k < |s.guards| && s.guards[k].Disable? then
        Open(s, Restore(s.guards[k].wasEnabled, s.enabled), s.enabled || s.guards[k].wasEnabled)
      else s
    case CloseGuard => if s.pc.Running? || s.pc.Unwinding? then Close(s) else s
    case Catch => if s.pc.Unwinding? then s.(pc := Running) else s
    case StartWait(cv) => if s.pc.Running? then s.(pc := FirstPoint(cv)) else s
    case FailWait => if s.pc.InWait? then s.(pc := Unregister(s.pc.cv, true)) else s
    case Tick =>
      match s.pc
      case Running => s
      case Unwinding => s
      case FirstPoint(cv) => AtPoint(s, Unwinding, Register(cv))
      case Register(cv) => s.(waiting := Some(cv), pc := SecondPoint(cv))
      case SecondPoint(cv) => AtPoint(s, Unregister(cv, true), InWait(cv))
      case InWait(cv) => s.(pc := ThirdPoint(cv))
      case ThirdPoint(cv) => AtPoint(s, Unregister(cv, true), Unregister(cv, false))
      case Unregister(cv, throwing) => s.(waiting := None, pc := if throwing then Unwinding else Running)
  }

  function Run(acts: seq<Action>): State {
    if acts == [] then INIT else Apply(Run(acts[..|acts| - 1]), acts[|acts| - 1])
  }

  // The condition variable the thread is inside Wait() or WaitFor() of, past the first interruption point.
  function InsideWaitOf(pc: Pc): Registered {
    match pc
    case SecondPoint(cv) => Some(cv)
    case InWait(cv) => Some(cv)
    case ThirdPoint(cv) => Some(cv)
    case Unregister(cv, _) => Some(cv)
    case _ => None
  }

  predicate Inv(s: State) {
    s.waiting == InsideWaitOf(s.pc) && s.thrown + (if s.requested then 1 else 0) <= s.requests
  }

  lemma {:induction false} RunKeepsInv(acts: seq<Action>)
    ensures Inv(Run(acts))
  {
    if acts != [] { RunKeepsInv(acts[..|acts| - 1]); }
  }

  // The registration is exactly the wait in progress: nothing stays registered after a normal or an
  // exceptional exit, and a request reaches the thread that sleeps.
  lemma {:induction false} RegistrationFollowsTheWait(acts: seq<Action>)
    ensures Run(acts).waiting == InsideWaitOf(Run(acts).pc)
    ensures Run(acts).pc.Running? || Run(acts).pc.Unwinding? ==> Run(acts).waiting == None
    ensures Run(acts).pc.InWait? && Run(acts).enabled ==> Notified(Run(acts)) == Some(Run(acts).pc.cv)
  {
    RunKeepsInv(acts);
  }

  // No interruption without a request of its own, and none while interruption is disabled.
  lemma {:induction false} InterruptionsArePaidFor(acts: seq<Action>, a: Action)
    ensures Run(acts).thrown <= Run(acts).requests
    ensures Run(acts + [a]).thrown > Run(acts).thrown ==>
              Run(acts).enabled && Run(acts).thrown < Run(acts).requests
  {
    RunKeepsInv(acts);
    assert (acts + [a])[..|acts|] == acts;
  }

  // ---------- guards ----------

  // The enabled flag that a stack of open guards produces.
  function FlagOf(guards: seq<Guard>): bool {
    if guards == [] then true
    else
      var g := guards[|guards| - 1];
      g.Restore? && (g.wasEnabled || FlagOf(guards[..|guards| - 1]))
  }

  // Every Restore guard of the run is opened while interruption is disabled.
  predicate Proper(acts: seq<Action>) {
    acts == [] ||
    (Proper(acts[..|acts| - 1]) && (acts[|acts| - 1].OpenRestore? ==> !Run(acts[..|acts| - 1]).enabled))
  }

  // A guard remembers the flag that the guards opened before it had left.
  predicate GuardOk(guards: seq<Guard>, i: nat)
    requires i < |guards|
  {
    && guards[i].before == FlagOf(guards[..i])
    && (guards[i].Disable? ==> guards[i].wasEnabled == guards[i].before)
    && (guards[i].Restore? ==> !guards[i].before)
  }

  predicate GuardsOk(s: State) {
    && s.enabled == FlagOf(s.guards)
    && forall i :: 0 <= i < |s.guards| ==> GuardOk(s.guards, i)
  }

  lemma PushKeeps(s: State, g: Guard)
    requires GuardsOk(s) && g.before == s.enabled
    requires g.Disable? ==> g.wasEnabled == g.before
    requires g.Restore? ==> !g.before
    ensures GuardsOk(Open(s, g, g.Restore? && (g.wasEnabled || s.enabled)))
  {
    var gs := s.guards + [g];
    assert gs[..|gs| - 1] == s.guards;
    forall i | 0 <= i < |gs| ensures GuardOk(gs, i) {
      assert gs[..i] == s.guards[..i];
      if i < |s.guards| { assert GuardOk(s.guards, i); }
    }
  }

  lemma PopKeeps(s: State)
    requires GuardsOk(s)
    ensures GuardsOk(Close(s))
  {
    if s.guards != [] {
      var rest := s.guards[..|s.guards| - 1];
      assert GuardOk(s.guards, |rest|);
      forall i | 0 <= i < |rest| ensures GuardOk(rest, i) {
        assert GuardOk(s.guards, i) && rest[..i] == s.guards[..i];
      }
    }
  }

  lemma {:induction false} ProperRunKeepsGuards(acts: seq<Action>)
    requires Proper(acts)
    ensures GuardsOk(Run(acts))
  {
    if acts != [] {
      var s := Run(acts[..|acts| - 1]);
      ProperRunKeepsGuards(acts[..|acts| - 1]);
      match acts[|acts| - 1]
      case OpenDisable => PushKeeps(s, Disable(s.enabled, s.enabled));
      case OpenRestore(k) =>
        if k < |s.guards| && s.guards[k].Disable? { PushKeeps(s, Restore(s.guards[k].wasEnabled, s.enabled)); }
      case CloseGuard => PopKeeps(s);
      case _ =>
    }
  }

  // In a proper run the flag depends on the open guards only, so when a scope has closed all the guards
  // it opened, normally or by an exception, the flag is what it was.
  lemma {:induction false} GuardsPutTheFlagBack(acts: seq<Action>, span: seq<Action>)
    requires Proper(acts + span) && Run(acts + span).guards == Run(acts).guards
    ensures Run(acts + span).enabled == Run(acts).enabled
  {
    ProperPrefix(acts, span);
    ProperRunKeepsGuards(acts);
    ProperRunKeepsGuards(acts + span);
  }

  lemma {:induction false} ProperPrefix(acts: seq<Action>, span: seq<Action>)
    requires Proper(acts + span)
    ensures Proper(acts)
  {
    if span == [] {
      assert acts + span == acts;
    } else {
      assert (acts + span)[..|acts + span| - 1] == acts + span[..|span| - 1];
      ProperPrefix(acts, span[..|span| - 1]);
    }
  }

  // The guard opened as number `n` stays open during `span`.
  predicate StaysOpen(acts: seq<Action>, n: nat, span: seq<Action>) {
    && |Run(acts + span).guards| > n
    && (span == [] || StaysOpen(acts, n, span[..|span| - 1]))
  }

  lemma {:induction false} OuterGuardsStay(acts: seq<Action>, n: nat, span: seq<Action>)
    requires StaysOpen(acts, n, span)
    ensures |Run(acts).guards| > n && Run(acts + span).guards[..n + 1] == Run(acts).guards[..n + 1]
  {
    if span == [] {
      assert acts + span == acts;
    } else {
      var before, a := span[..|span| - 1], span[|span| - 1];
      OuterGuardsStay(acts, n, before);
      RunSnoc(acts + before, a);
      assert acts + before + [a] == acts + span;
      LowerGuardsStay(Run(acts + before), a, n);
    }
  }

  lemma LowerGuardsStay(s: State, a: Action, n: nat)
    requires |s.guards| > n && |Apply(s, a).guards| > n
    ensures Apply(s, a).guards[..n + 1] == s.guards[..n + 1]
  {
  }

  lemma RunSnoc(acts: seq<Action>, a: Action)
    ensures Run(acts + [a]) == Apply(Run(acts), a)
  {
    assert (acts + [a])[..|acts|] == acts;
  }

  predicate Opens(s: State, a: Action) {
    s.pc.Running? && (a.OpenDisable? || (a.OpenRestore? && a.k < |s.guards| && s.guards[a.k].Disable?))
  }

  // Whatever happens in the scope of a guard, in every run: closing it puts the flag back exactly if the guard
  // disables interruption, or was opened while it was disabled.
  lemma {:induction false} GuardScopeExactly(acts: seq<Action>, a: Action, span: seq<Action>)
    requires Opens(Run(acts), a) && StaysOpen(acts + [a], |Run(acts).guards|, span)
    requires var t := Run(acts + [a] + span);
             |t.guards| == |Run(acts).guards| + 1 && (t.pc.Running? || t.pc.Unwinding?)
    ensures var s, u := Run(acts), Run(acts + [a] + span + [CloseGuard]);
            && u.guards == s.guards
            && (u.enabled == s.enabled <==> a.OpenDisable? || !s.enabled)
  {
    RunSnoc(acts, a);
    RunSnoc(acts + [a] + span, CloseGuard);
    OuterGuardsStay(acts + [a], |Run(acts).guards|, span);
    var t := Run(acts + [a] + span);
    assert t.guards == t.guards[..|t.guards|] && Run(acts + [a]).guards[..|t.guards|] == Run(acts + [a]).guards;
  }

  // A run that shows it: of two nested restore guards, closing the inner one disables interruption again.
  lemma NestedRestoreLosesTheFlag()
    ensures var outside := [OpenDisable, OpenRestore(0)];
            var nested := outside + [OpenRestore(0), CloseGuard];
            && Run(outside).enabled && !Run(nested).enabled
            && Run(nested).guards == Run(outside).guards && Run(nested).pc == Run(outside).pc
            && !Proper(nested)
  {
    var outer := [OpenDisable];
    var outside := outer + [OpenRestore(0)];
    var inner := outside + [OpenRestore(0)];
    var nested := inner + [CloseGuard];
    assert Run([]) == INIT && outer[..0] == [];
    assert outside[..1] == outer && inner[..2] == outside && nested[..3] == inner;
    assert outside == [OpenDisable, OpenRestore(0)];
    assert nested == outside + [OpenRestore(0), CloseGuard];
    assert !Proper(inner);
  }
}
