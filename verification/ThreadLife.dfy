/** A Thread object, its shared ThreadData and the child thread, as interleaved steps.

    The owner calls Start, Join, TryJoin, TryJoinFor, Detach and finally the destructor, in any order;
    the child gets only a raw pointer to the data and turns it into a shared one by itself.
 */
module ThreadLife {

  const EXIT_FAILURE: int := 1

  // How the thread main function ended.
  datatype Ending =
    | Running
    | Returned(value: int)
    | Threw(interrupted: bool, captured: bool)  // captured: CurrentException() could copy the exception

  // ThreadData: the part both threads look at.
  datatype Data = Data(started: bool, joinedOrDetached: bool, retCode: int, exceptionPtr: bool, badException: bool)

  datatype ChildPc =
    | NotCreated
    | RawPointer   // entered Run(), holds only the raw pointer
    | Announce     // owns a shared pointer, about to set started_
    | Main         // inside the main function
    | Publish      // result stored, about to set joinedOrDetached_
    | Leave        // about to drop the shared pointer
    | Gone

  datatype JoinKind = Blocking | Try | For

  datatype OwnerPc =
    | Outside
    | Create
    | WaitStart(retry: bool)
    | AfterStart
    | JoinWait(kind: JoinKind, inDestructor: bool)
    | JoinReset(kind: JoinKind, inDestructor: bool)
    | JoinRead(kind: JoinKind, inDestructor: bool)
    | DetachSet
    | DetachReset
    | Destroyed

  datatype Answer =
    | Nothing
    | CreateFailed
    | NotJoinable                // precondition violation reported by an exception
    | Interrupted                // ThreadInterruptedException for the owner itself
    | WaitFailed                 // the wait itself threw
    | NotYet                     // TryJoin or TryJoinFor answered false
    | Joined(retCode: int)
    | JoinThrew                  // the child's exception, or bad_exception in its place
    | Detached

  datatype State = State(
    ownerRef: bool, tmpRef: bool, childRef: bool,  // pData_, pTmpData and the child's pData
    freed: bool, useAfterFree: bool, created: bool, dead: bool, detachedAttr: bool,
    data: Data, child: ChildPc, ending: Ending, owner: OwnerPc, answer: Answer)

  datatype Call = Start | Join(kind: JoinKind) | Detach | Destroy

  datatype Choice = Proceed | Interrupt | Timeout | Fail

  datatype Action =
    | Invoke(call: Call)
    | OwnerTick(choice: Choice)
    | ChildTick(ending: Ending)   // how the main function ends, if it ends at this step

  function Init(detachedAttr: bool): State {
    State(true, false, false, false, false, false, false, detachedAttr,
          Data(false, detachedAttr, EXIT_FAILURE, false, false), NotCreated, Running, Outside, Nothing)
  }

  // Any access to the data through the pointer at hand.
  function Touch(s: State): State {
    s.(useAfterFree := s.useAfterFree || s.freed)
  }

  // The last shared pointer to go frees the data.
  function Settle(s: State): State {
    s.(freed := s.freed || !(s.ownerRef || s.tmpRef || s.childRef))
  }

  predicate IsJoinable(s: State) {
    s.ownerRef && s.created
  }

  function Finish(s: State, a: Answer): State {
    Settle(s.(tmpRef := false, owner := Outside, answer := a))
  }

  // A join inside the destructor swallows what Join() throws and goes on to release pData_.
  function FinishJoin(s: State, a: Answer, inDestructor: bool): State {
    if inDestructor then Settle(s.(tmpRef := false, ownerRef := false, owner := Destroyed, answer := a))
    else Finish(s, a)
  }

  function Enter(s: State, call: Call): State {
    match call
    case Start =>
      if !s.ownerRef then s.(answer := Nothing)
      else if s.data.started then Touch(s).(answer := Nothing)
      else Touch(s).(tmpRef := true, owner := Create, answer := Nothing)
    case Join(kind) =>
      if !IsJoinable(s) then s.(answer := NotJoinable)
      else Touch(s).(tmpRef := true, owner := JoinWait(kind, false), answer := Nothing)
    case Detach =>
      if !IsJoinable(s) then s.(answer := NotJoinable)
      else Touch(s).(tmpRef := true, owner := DetachSet, answer := Nothing)
    case Destroy =>
      // ~Thread(): a joinable thread is interrupted and joined first
      if IsJoinable(s) then Touch(s).(tmpRef := true, owner := JoinWait(Blocking, true), answer := Nothing)
      else Settle(s.(ownerRef := false, owner := Destroyed, answer := Nothing))
  }

  function ReadResult(s: State): Answer {
    if s.data.exceptionPtr || s.data.badException then JoinThrew else Joined(s.data.retCode)
  }

  function OwnerStep(s: State, choice: Choice): State {
    match s.owner
    case Outside => s
    case Create =>
      if choice.Fail? then Finish(Touch(s), CreateFailed)
      else Touch(s).(created := true, child := RawPointer, owner := WaitStart(false))
    case WaitStart(retry) =>
      // interruption is disabled here; only a failing wait can throw, and the second failure terminates
      if choice.Fail? then (if retry then s.(dead := true) else s.(owner := WaitStart(true)))
      else if s.data.started then Touch(s).(owner := AfterStart)
      else Touch(s)
    case AfterStart =>
      Finish(if s.detachedAttr then s.(ownerRef := false) else s, Nothing)
    case JoinWait(kind, inDestructor) =>
      if inDestructor && choice.Fail? then s.(dead := true)
      else if choice.Fail? then Finish(Touch(s), WaitFailed)
      else if !inDestructor && !kind.Try? && choice.Interrupt? then Finish(Touch(s), Interrupted)
      else if s.data.joinedOrDetached then Touch(s).(owner := JoinReset(kind, inDestructor))
      else if kind.Try? || (kind.For? && choice.Timeout?) then Finish(Touch(s), NotYet)
      else Touch(s)
    case JoinReset(kind, inDestructor) => Settle(s.(ownerRef := false, owner := JoinRead(kind, inDestructor)))
    case JoinRead(kind, inDestructor) => FinishJoin(Touch(s), ReadResult(s), inDestructor)
    case DetachSet => Touch(s).(data := s.data.(joinedOrDetached := true), owner := DetachReset)
    case DetachReset => Finish(s.(ownerRef := false), Detached)
    case Destroyed => s
  }

  function StoreEnding(d: Data, e: Ending): Data {
    match e
    case Running => d
    case Returned(v) => d.(retCode := v)
    case Threw(_, captured) => d.(exceptionPtr := captured, badException := true)
  }

  function ChildStep(s: State, ending: Ending): State {
    match s.child
    case NotCreated => s
    case RawPointer => Touch(s).(childRef := true, child := Announce)
    case Announce => Touch(s).(data := s.data.(started := true), child := Main)
    case Main =>
      if ending.Running? then s
      else Touch(s).(data := StoreEnding(s.data, ending), ending := ending, child := Publish)
    case Publish =>
      if s.data.joinedOrDetached then
        // detached: an exception other than an interruption terminates the process
        if s.ending.Threw? && !(s.ending.interrupted && s.ending.captured) then s.(dead := true)
        else Touch(s).(child := Leave)
      else Touch(s).(data := s.data.(joinedOrDetached := true), child := Leave)
    case Leave => Settle(s.(childRef := false, child := Gone))
    case Gone => s
  }

  function Apply(s: State, a: Action): State {
    if s.dead then s
    else
      match a
      case Invoke(call) => if s.owner.Outside? then Enter(s, call) else s
      case OwnerTick(choice) => OwnerStep(s, choice)
      case ChildTick(ending) => ChildStep(s, ending)
  }

  function Run(detachedAttr: bool, acts: seq<Action>): State {
    if acts == [] then Init(detachedAttr) else Apply(Run(detachedAttr, acts[..|acts| - 1]), acts[|acts| - 1])
  }

  // ---------- invariant ----------

  predicate StoredResult(s: State) {
    match s.ending
    case Running => !s.data.exceptionPtr && !s.data.badException
    case Returned(v) => s.data.retCode == v && !s.data.exceptionPtr && !s.data.badException
    case Threw(_, _) => s.data.badException
  }

  predicate Finished(s: State) {
    s.child.Leave? || s.child.Gone?
  }

  predicate References(s: State) {
    && !s.useAfterFree
    && (s.freed <==> !(s.ownerRef || s.tmpRef || s.childRef))
    && (s.tmpRef <==> !s.owner.Outside? && !s.owner.Destroyed?)
    && (s.childRef <==> (s.child.Announce? || s.child.Main? || s.child.Publish? || s.child.Leave?))
    && (s.created <==> !s.child.NotCreated?)
    // the raw pointer is in use only while Start() still waits with its own shared pointer
    && (s.child.RawPointer? ==> s.owner.WaitStart?)
  }

  predicate Owner(s: State) {
    match s.owner
    case Outside => s.ownerRef && s.created ==> !s.detachedAttr && s.data.started
    case Create => s.ownerRef && !s.created
    case WaitStart(_) => s.ownerRef && s.created
    case AfterStart => s.ownerRef && s.created && s.data.started
    case JoinWait(_, _) => s.ownerRef && s.created && !s.detachedAttr && s.data.started
    case JoinReset(_, _) => s.ownerRef && s.created && !s.detachedAttr && s.data.joinedOrDetached && Finished(s)
    case JoinRead(_, _) => !s.ownerRef && s.created && !s.detachedAttr && s.data.joinedOrDetached && Finished(s)
    case DetachSet => s.ownerRef && s.created && !s.detachedAttr && s.data.started
    case DetachReset => s.ownerRef && s.created && s.data.joinedOrDetached && s.data.started
    case Destroyed => !s.ownerRef
  }

  predicate Progressed(s: State) {
    && (s.data.started <==> (s.child.Main? || s.child.Publish? || s.child.Leave? || s.child.Gone?))
    && (!s.ending.Running? <==> (s.child.Publish? || s.child.Leave? || s.child.Gone?))
    && StoredResult(s)
    // while the owner can still join, only the child sets joinedOrDetached_, after storing its result
    && (s.data.joinedOrDetached && s.ownerRef && !s.detachedAttr && !s.owner.DetachReset? ==> Finished(s))
  }

  predicate Answered(s: State) {
    match s.answer
    case Joined(v) => s.ending == Returned(v) && !s.ownerRef
    case JoinThrew => s.ending.Threw? && !s.ownerRef
    case Detached => !s.ownerRef
    case Interrupted => s.owner.Outside? ==> IsJoinable(s)
    case WaitFailed => s.owner.Outside? ==> IsJoinable(s)
    case NotYet => s.owner.Outside? ==> IsJoinable(s)
    case _ => true
  }

  predicate Inv(s: State) {
    References(s) && Owner(s) && Progressed(s) && Answered(s)
  }

  lemma EnterKeepsInv(s: State, call: Call)
    requires Inv(s) && s.owner.Outside?
    ensures Inv(Enter(s, call))
  {
  }

  lemma ChildStarts(s: State, ending: Ending)
    requires Inv(s) && (s.child.RawPointer? || s.child.Announce?)
    ensures Inv(ChildStep(s, ending))
  {
  }

  lemma ChildRuns(s: State, ending: Ending)
    requires Inv(s) && (s.child.Main?)
    ensures Inv(ChildStep(s, ending))
  {
  }

  lemma ChildPublishes(s: State, ending: Ending)
    requires Inv(s) && s.child.Publish?
    ensures Inv(ChildStep(s, ending))
  {
  }

  lemma ChildLeaves(s: State, ending: Ending)
    requires Inv(s) && s.child.Leave?
    ensures Inv(ChildStep(s, ending))
  {
  }

  lemma OwnerStarts(s: State, choice: Choice)
    requires Inv(s) && (s.owner.Create? || s.owner.WaitStart? || s.owner.AfterStart?)
    ensures Inv(OwnerStep(s, choice))
  {
  }

  lemma OwnerWaits(s: State, choice: Choice)
    requires Inv(s) && (s.owner.JoinWait?)
    ensures Inv(OwnerStep(s, choice))
  {
  }

  lemma OwnerJoins(s: State, choice: Choice)
    requires Inv(s) && (s.owner.JoinReset? || s.owner.JoinRead?)
    ensures Inv(OwnerStep(s, choice))
  {
  }

  lemma OwnerDetaches(s: State, choice: Choice)
    requires Inv(s) && (s.owner.DetachSet? || s.owner.DetachReset?)
    ensures Inv(OwnerStep(s, choice))
  {
  }

  lemma OwnerKeepsInv(s: State, choice: Choice)
    requires Inv(s)
    ensures Inv(OwnerStep(s, choice))
  {
    if s.owner.Create? || s.owner.WaitStart? || s.owner.AfterStart? {
      OwnerStarts(s, choice);
    } else if s.owner.JoinWait? {
      OwnerWaits(s, choice);
    } else if s.owner.JoinReset? || s.owner.JoinRead? {
      OwnerJoins(s, choice);
    } else if s.owner.DetachSet? || s.owner.DetachReset? {
      OwnerDetaches(s, choice);
    }
  }

  lemma ChildKeepsInv(s: State, ending: Ending)
    requires Inv(s)
    ensures Inv(ChildStep(s, ending))
  {
    if s.child.RawPointer? || s.child.Announce? {
      ChildStarts(s, ending);
    } else if s.child.Main? {
      ChildRuns(s, ending);
    } else if s.child.Publish? {
      ChildPublishes(s, ending);
    } else if s.child.Leave? {
      ChildLeaves(s, ending);
    }
  }

  lemma ApplyKeepsInv(s: State, a: Action)
    requires Inv(s)
    ensures Inv(Apply(s, a))
  {
    match a
    case Invoke(call) => if s.owner.Outside? { EnterKeepsInv(s, call); }
    case OwnerTick(choice) => OwnerKeepsInv(s, choice);
    case ChildTick(ending) => ChildKeepsInv(s, ending);
  }

  lemma {:induction false} RunKeepsInv(detachedAttr: bool, acts: seq<Action>)
    ensures Inv(Run(detachedAttr, acts))
  {
    if acts != [] {
      RunKeepsInv(detachedAttr, acts[..|acts| - 1]);
      ApplyKeepsInv(Run(detachedAttr, acts[..|acts| - 1]), acts[|acts| - 1]);
    }
  }

  // ---------- main results ----------

  // Nobody ever touches the data after it was freed; in particular the raw pointer handed to
  // the child always has a live shared owner.
  lemma {:induction false} DataOutlivesItsUsers(detachedAttr: bool, acts: seq<Action>)
    ensures !Run(detachedAttr, acts).useAfterFree
    ensures Run(detachedAttr, acts).child.RawPointer? ==>
              Run(detachedAttr, acts).ownerRef && Run(detachedAttr, acts).tmpRef
  {
    RunKeepsInv(detachedAttr, acts);
  }

  // What Join(), TryJoin() and TryJoinFor() answer is what the main function did, and only after it ended.
  lemma {:induction false} JoinAnswers(detachedAttr: bool, acts: seq<Action>, choice: Choice)
    requires var s := Run(detachedAttr, acts); !s.dead && s.owner.JoinRead?
    ensures var s := Run(detachedAttr, acts);
            var t := Run(detachedAttr, acts + [OwnerTick(choice)]);
            && !s.ending.Running?
            && (t.answer.Joined? || t.answer.JoinThrew?)
            && (t.answer.Joined? <==> s.ending.Returned?)
            && (t.answer.Joined? ==> t.answer.retCode == s.ending.value)
            && !IsJoinable(t)
  {
    RunKeepsInv(detachedAttr, acts);
    assert (acts + [OwnerTick(choice)])[..|acts|] == acts;
  }

  // An interrupted or timed-out join leaves the thread joinable; a completed one or a detach does not.
  lemma {:induction false} AfterTheCall(detachedAttr: bool, acts: seq<Action>)
    requires Run(detachedAttr, acts).owner.Outside?
    ensures var s := Run(detachedAttr, acts);
            && (s.answer.Interrupted? || s.answer.WaitFailed? || s.answer.NotYet? ==> IsJoinable(s))
            && (s.answer.Joined? || s.answer.JoinThrew? || s.answer.Detached? ==> !IsJoinable(s))
            && (s.answer.Joined? ==> s.ending == Returned(s.answer.retCode))
            && (s.answer.JoinThrew? ==> s.ending.Threw?)
  {
    RunKeepsInv(detachedAttr, acts);
  }

  // Once both sides are done with it the data is freed: there is no leak either.
  lemma {:induction false} DataIsFreed(detachedAttr: bool, acts: seq<Action>)
    requires var s := Run(detachedAttr, acts); s.owner.Destroyed? && (s.child.Gone? || s.child.NotCreated?)
    ensures Run(detachedAttr, acts).freed
  {
    RunKeepsInv(detachedAttr, acts);
  }
}
