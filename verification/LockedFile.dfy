/** The Windows reader/writer lock of QtLockedFile, one atomic Win32 call per step.

    Any number of lock objects, each in a thread of its own, share one named "writer" mutex
    and MAX_READERS named slot mutexes.  A run is an arbitrary sequence of actions; whatever
    the schedule, every action is applied by `Apply`.
 */
module LockedFile {

  // MAXIMUM_WAIT_OBJECTS of the Win32 API.
  const MAX_READERS: nat := 64

  // The name of the writer mutex; slot mutexes are named 0 .. MAX_READERS - 1.
  const WRITER: int := -1

  // The null handle in `rmutex`.
  const NULL_HANDLE: int := -2

  type ObjId = int

  datatype LockMode = NoLock | ReadLock | WriteLock

  datatype Call = LockCall(lmode: LockMode, block: bool) | UnlockCall

  // Who called unlock(): the user (also through lock(NoLock)), lock() when it changes the mode,
  // or the clean-up of a failed write attempt.
  datatype Caller = ByUser | ByLock | ByFailedWrite

  datatype Pc =
    | Idle
    | UReadRelease(caller: Caller)
    | UReadClose(caller: Caller)
    | UWriteRelease(caller: Caller, i: nat)
    | UWriteClose(caller: Caller, i: nat)
    | LCreate
    | LWait
    | RScanOpen(idx: nat)
    | RScanWait(idx: nat)
    | RScanClose(idx: nat)
    | RCreate(idx: nat)
    | RCreateWait(idx: nat)
    | RFailClose(idx: nat)
    | RReleaseW(ok: bool)
    | WScan(j: nat)
    | WWaitAll

  datatype Outcome = NoCallYet | Returned(ok: bool)

  // One QtLockedFile object together with its thread and the handles its process has open.
  // `seen` is a history variable: the slots that readers owned when this object last took the writer mutex.
  datatype Obj = Obj(
    mode: LockMode, wmutex: bool, rmutex: int, rmutexes: seq<int>,
    handles: set<int>, pc: Pc, call: Call, isOpen: bool, outcome: Outcome, seen: map<int, ObjId>)

  // The kernel keeps the owning object of each owned mutex.  A named mutex exists while some handle to it is open.
  datatype State = State(objs: map<ObjId, Obj>, owner: map<int, ObjId>)

  datatype Action =
    | Construct(o: ObjId)
    | Destroy(o: ObjId)
    | Invoke(o: ObjId, call: Call, isOpen: bool)
    | Tick(o: ObjId)

  const INIT := State(map[], map[])

  const FRESH := Obj(NoLock, false, NULL_HANDLE, [], {}, Idle, UnlockCall, true, NoCallYet, map[])

  // ---------- kernel primitives ----------

  ghost predicate Exists(s: State, n: int) {
    exists o :: o in s.objs && n in s.objs[o].handles
  }

  // A wait succeeds on an unowned mutex; Windows mutexes are recursive for their owner.
  predicate Available(s: State, o: ObjId, n: int) {
    n !in s.owner || s.owner[n] == o
  }

  // OpenMutex on an existing mutex, or CreateMutex: one more handle for object `o`.
  function OpenHandle(x: Obj, n: int): Obj {
    x.(handles := x.handles + {n})
  }

  // ReleaseMutex by a thread that does not own the mutex has no effect.
  function Release(s: State, o: ObjId, n: int): map<int, ObjId> {
    if n in s.owner && s.owner[n] == o then s.owner - {n} else s.owner
  }

  // CloseHandle: closing the last handle destroys the named mutex, and with it any ownership.
  ghost function Close(s: State, o: ObjId, n: int): map<int, ObjId> {
    if exists p :: p in s.objs && p != o && n in s.objs[p].handles then s.owner else s.owner - {n}
  }

  function Closed(x: Obj, n: int): Obj {
    x.(handles := x.handles - {n})
  }

  function Put(s: State, o: ObjId, x: Obj): State {
    s.(objs := s.objs[o := x])
  }

  // ---------- the object's code ----------

  function Return(x: Obj, ok: bool): Obj {
    x.(pc := Idle, outcome := Returned(ok))
  }

  // What follows the last statement of unlock().
  function AfterUnlock(x: Obj, caller: Caller): Obj {
    match caller
    case ByUser => Return(x, true)
    case ByLock => x.(pc := LCreate)
    case ByFailedWrite => Return(x, false)
  }

  // Entry of unlock() on an open file.
  function EnterUnlock(x: Obj, caller: Caller): Obj {
    match x.mode
    case NoLock => AfterUnlock(x, caller)
    case ReadLock => x.(pc := UReadRelease(caller))
    case WriteLock => x.(pc := UWriteRelease(caller, 0))
  }

  // Entry of lock() and unlock().
  function Enter(x: Obj, call: Call, isOpen: bool): Obj {
    var y := x.(call := call, isOpen := isOpen);
    if !isOpen then Return(y, false)
    else
      match call
      case UnlockCall => EnterUnlock(y, ByUser)
      case LockCall(m, _) =>
        if m == NoLock then EnterUnlock(y, ByUser)
        else if m == y.mode then Return(y, true)
        else EnterUnlock(y, ByLock)
  }

  ghost predicate ReadOwner(x: Obj) {
    x.mode == ReadLock && (x.pc == Idle || x.pc.UReadRelease?)
  }

  ghost function ReadersNow(s: State): map<int, ObjId> {
    map n | n in s.owner && n != WRITER && s.owner[n] in s.objs && ReadOwner(s.objs[s.owner[n]]) :: s.owner[n]
  }

  function Elems(q: seq<int>): set<int> {
    set n | n in q
  }

  function MultiAcquire(owner: map<int, ObjId>, names: seq<int>, o: ObjId): map<int, ObjId> {
    owner + map n | n in Elems(names) :: o
  }

  // The object cannot take its next step: a blocking wait on a mutex another thread owns.
  ghost predicate Blocked(s: State, o: ObjId)
    requires o in s.objs
  {
    var x := s.objs[o];
    && x.call.LockCall? && x.call.block
    && ((x.pc == LWait && !Available(s, o, WRITER))
        || (x.pc == WWaitAll && exists n :: n in x.rmutexes && !Available(s, o, n)))
  }

  // The next atomic step of object `o`, which is inside a call: its own fields and the owner table.
  ghost function Step(s: State, o: ObjId): (Obj, map<int, ObjId>)
    requires o in s.objs
  {
    var x := s.objs[o];
    var block := x.call.LockCall? && x.call.block;
    match x.pc
    case Idle => (x, s.owner)
    case UReadRelease(c) => (x.(pc := UReadClose(c)), Release(s, o, x.rmutex))
    case UReadClose(c) =>
      (AfterUnlock(Closed(x, x.rmutex).(rmutex := NULL_HANDLE, mode := NoLock), c), Close(s, o, x.rmutex))
    case UWriteRelease(c, i) =>
      if i < |x.rmutexes| then (x.(pc := UWriteClose(c, i)), Release(s, o, x.rmutexes[i]))
      else (AfterUnlock(x.(rmutexes := [], mode := NoLock), c), Release(s, o, WRITER))
    case UWriteClose(c, i) =>
      var n := if i < |x.rmutexes| then x.rmutexes[i] else NULL_HANDLE;
      (Closed(x, n).(pc := UWriteRelease(c, i + 1)), Close(s, o, n))
    case LCreate =>
      (if x.wmutex then x.(pc := LWait) else OpenHandle(x, WRITER).(wmutex := true, pc := LWait), s.owner)
    case LWait =>
      if Available(s, o, WRITER) then
        var next := if x.call.LockCall? && x.call.lmode == ReadLock then RScanOpen(0) else WScan(0);
        (x.(pc := next, seen := ReadersNow(s)), s.owner[WRITER := o])
      else (if block then x else Return(x, false), s.owner)
    case RScanOpen(i) =>
      (if i >= MAX_READERS then x.(rmutex := NULL_HANDLE, pc := RReleaseW(false))
       else if Exists(s, i) then OpenHandle(x, i).(rmutex := i, pc := RScanWait(i))
       else x.(rmutex := NULL_HANDLE, pc := RCreate(i)), s.owner)
    case RScanWait(i) =>
      if Available(s, o, i) then (x.(pc := RReleaseW(true)), s.owner[i := o])
      else (x.(pc := RScanClose(i)), s.owner)
    case RScanClose(i) => (Closed(x, i).(pc := RScanOpen(i + 1)), Close(s, o, i))
    case RCreate(i) => (OpenHandle(x, i).(rmutex := i, pc := RCreateWait(i)), s.owner)
    case RCreateWait(i) =>
      if Available(s, o, i) then (x.(pc := RReleaseW(true)), s.owner[i := o])
      else (x.(pc := RFailClose(i)), s.owner)
    case RFailClose(i) => (Closed(x, i).(rmutex := NULL_HANDLE, pc := RReleaseW(false)), Close(s, o, i))
    case RReleaseW(ok) => (Return(if ok then x.(mode := ReadLock) else x, ok), Release(s, o, WRITER))
    case WScan(j) =>
      (if j < MAX_READERS then
         (if Exists(s, j) then OpenHandle(x, j).(rmutexes := x.rmutexes + [j]) else x).(pc := WScan(j + 1))
       else if x.rmutexes == [] then Return(x.(mode := WriteLock), true)
       else x.(pc := WWaitAll), s.owner)
    case WWaitAll =>
      if forall n :: n in x.rmutexes ==> Available(s, o, n) then
        (Return(x.(mode := WriteLock), true), MultiAcquire(s.owner, x.rmutexes, o))
      else (if block then x else x.(mode := WriteLock, pc := UWriteRelease(ByFailedWrite, 0)), s.owner)
  }

  ghost function Exec(s: State, o: ObjId): State
    requires o in s.objs
  {
    State(s.objs[o := Step(s, o).0], Step(s, o).1)
  }

  // One action of the system.  An action that is not possible leaves the state as it is.
  ghost function Apply(s: State, a: Action): State {
    match a
    case Construct(o) =>
      if o in s.objs then s else Put(s, o, FRESH)
    case Destroy(o) =>
      if o in s.objs && s.objs[o].pc == Idle && s.objs[o].mode == NoLock then
        State(s.objs - {o}, if s.objs[o].wmutex then Close(s, o, WRITER) else s.owner)
      else s
    case Invoke(o, call, isOpen) =>
      if o in s.objs && s.objs[o].pc == Idle then Put(s, o, Enter(s.objs[o], call, isOpen)) else s
    case Tick(o) =>
      if o in s.objs then Exec(s, o) else s
  }

  ghost function Run(acts: seq<Action>): State {
    if acts == [] then INIT else Apply(Run(acts[..|acts| - 1]), acts[|acts| - 1])
  }

  // ---------- invariant ----------

  function SlotHandles(x: Obj): set<int> {
    match x.pc
    case UWriteRelease(_, i) => if i <= |x.rmutexes| then Elems(x.rmutexes[i..]) else {}
    case UWriteClose(_, i) => if i <= |x.rmutexes| then Elems(x.rmutexes[i..]) else {}
    case RScanOpen(_) => {}
    case _ => (if x.rmutex == NULL_HANDLE then {} else {x.rmutex}) + Elems(x.rmutexes)
  }

  function HandlesOf(x: Obj): set<int> {
    (if x.wmutex then {WRITER} else {}) + SlotHandles(x)
  }

  function OwnsOf(x: Obj): set<int> {
    match x.pc
    case Idle =>
      (match x.mode
       case NoLock => {}
       case ReadLock => {x.rmutex}
       case WriteLock => {WRITER} + Elems(x.rmutexes))
    case UReadRelease(_) => {x.rmutex}
    case UReadClose(_) => {}
    case UWriteRelease(c, i) =>
      if c == ByFailedWrite || i > |x.rmutexes| then {WRITER} else {WRITER} + Elems(x.rmutexes[i..])
    case UWriteClose(c, i) =>
      if c == ByFailedWrite || i >= |x.rmutexes| then {WRITER} else {WRITER} + Elems(x.rmutexes[i + 1..])
    case LCreate => {}
    case LWait => {}
    case RReleaseW(ok) => if ok then {WRITER, x.rmutex} else {WRITER}
    case _ => {WRITER}
  }

  predicate IsSlot(n: int) {
    0 <= n < MAX_READERS
  }

  predicate Ascending(q: seq<int>, bound: int) {
    && (forall k :: 0 <= k < |q| ==> 0 <= q[k] < bound)
    && (forall k, l :: 0 <= k < l < |q| ==> q[k] < q[l])
  }

  predicate ReadScanning(pc: Pc) {
    pc.RScanOpen? || pc.RScanWait? || pc.RScanClose? || pc.RCreate? || pc.RCreateWait?
  }

  // What the program counter says about the object's own fields.
  predicate Local(x: Obj) {
    && x.handles == HandlesOf(x)
    && Ascending(x.rmutexes, MAX_READERS)
    && (x.pc != Idle ==> x.isOpen)
    && match x.pc
       case Idle =>
         && (x.isOpen && x.outcome.Returned? ==> Answered(x))
         && (x.mode == NoLock ==> x.rmutex == NULL_HANDLE && x.rmutexes == [])
         && (x.mode == ReadLock ==> IsSlot(x.rmutex) && x.rmutexes == [])
         && (x.mode == WriteLock ==> x.wmutex && x.rmutex == NULL_HANDLE)
       case UReadRelease(c) => x.mode == ReadLock && IsSlot(x.rmutex) && x.rmutexes == [] && CallerOk(x, c)
       case UReadClose(c) => x.mode == ReadLock && IsSlot(x.rmutex) && x.rmutexes == [] && CallerOk(x, c)
       case UWriteRelease(c, i) =>
         x.mode == WriteLock && x.wmutex && x.rmutex == NULL_HANDLE && i <= |x.rmutexes| && CallerOk(x, c)
       case UWriteClose(c, i) =>
         x.mode == WriteLock && x.wmutex && x.rmutex == NULL_HANDLE && i < |x.rmutexes| && CallerOk(x, c)
       case LCreate => Fresh(x)
       case LWait => Fresh(x) && x.wmutex
       case RScanOpen(i) => Reading(x) && i <= MAX_READERS
       case RScanWait(i) => Reading(x) && x.rmutex == i < MAX_READERS
       case RScanClose(i) => Reading(x) && x.rmutex == i < MAX_READERS
       case RCreate(i) => Reading(x) && i < MAX_READERS && x.rmutex == NULL_HANDLE
       case RCreateWait(i) => Reading(x) && x.rmutex == i < MAX_READERS
       case RFailClose(i) => Reading(x) && x.rmutex == i < MAX_READERS
       case RReleaseW(ok) => Reading(x) && (if ok then IsSlot(x.rmutex) else x.rmutex == NULL_HANDLE)
       case WScan(j) => Writing(x) && j <= MAX_READERS && Ascending(x.rmutexes, j)
       case WWaitAll => Writing(x)
  }

  // lock() answers true exactly when the object now holds the mode asked for, and otherwise holds nothing;
  // unlock() answers true and leaves nothing held.
  predicate Answered(x: Obj)
    requires x.outcome.Returned?
  {
    match x.call
    case UnlockCall => x.outcome.ok && x.mode == NoLock
    case LockCall(m, _) => (x.outcome.ok <==> x.mode == m) && (!x.outcome.ok ==> x.mode == NoLock)
  }

  predicate CallerOk(x: Obj, c: Caller) {
    match c
    case ByUser => x.call.UnlockCall? || x.call.lmode == NoLock
    case ByLock => x.call.LockCall? && x.call.lmode != NoLock && x.call.lmode != x.mode
    case ByFailedWrite => x.call.LockCall? && x.call.lmode == WriteLock && !x.call.block
  }

  predicate Fresh(x: Obj) {
    x.mode == NoLock && x.rmutex == NULL_HANDLE && x.rmutexes == [] && x.call.LockCall? && x.call.lmode != NoLock
  }

  predicate Reading(x: Obj) {
    x.mode == NoLock && x.wmutex && x.rmutexes == [] && x.call.LockCall? && x.call.lmode == ReadLock
  }

  predicate Writing(x: Obj) {
    x.mode == NoLock && x.wmutex && x.rmutex == NULL_HANDLE && x.call.LockCall? && x.call.lmode == WriteLock
  }

  // Facts about slots owned by others that hold while the object keeps the writer mutex.
  ghost predicate SlotView(s: State, o: ObjId, x: Obj) {
    match x.pc
    case WScan(j) => forall n :: n in s.owner && 0 <= n < j ==> n in x.rmutexes
    case WWaitAll => forall n :: n in s.owner && 0 <= n ==> n in x.rmutexes
    case Idle => x.mode == WriteLock ==> forall n :: n in s.owner && 0 <= n ==> s.owner[n] == o
    case RScanOpen(i) => SeenUpTo(s, x, i)
    case RScanWait(i) => SeenUpTo(s, x, i)
    case RScanClose(i) => SeenUpTo(s, x, i + 1)
    case RCreate(i) => SeenUpTo(s, x, i) && i !in s.owner
    case RCreateWait(i) => SeenUpTo(s, x, i) && i !in s.owner
    case RFailClose(_) => false
    case RReleaseW(ok) => ok || SeenUpTo(s, x, MAX_READERS)
    case _ => true
  }

  ghost predicate SeenUpTo(s: State, x: Obj, i: nat) {
    && (forall n :: n in s.owner && 0 <= n ==> n in x.seen)
    && (forall n :: 0 <= n < i ==> n in x.seen)
  }

  ghost predicate Locals(s: State) {
    forall o :: o in s.objs ==> Local(s.objs[o])
  }

  // The kernel's owner table agrees with what each program counter says its object owns.
  ghost predicate Owners(s: State) {
    && (forall n :: n in s.owner ==> WRITER <= n < MAX_READERS && s.owner[n] in s.objs)
    && (forall o, n :: o in s.objs ==> (Owned(s, o, n) <==> n in OwnsOf(s.objs[o])))
  }

  ghost predicate Views(s: State) {
    forall o :: o in s.objs ==> SlotView(s, o, s.objs[o])
  }

  ghost predicate Inv(s: State) {
    Locals(s) && Owners(s) && Views(s)
  }

  ghost predicate Owned(s: State, o: ObjId, n: int) {
    n in s.owner && s.owner[n] == o
  }

  // ---------- every action keeps the invariant ----------

  lemma OwnsAreOpen(x: Obj)
    requires Local(x) && !x.pc.RFailClose?
    ensures OwnsOf(x) <= x.handles
  {
    match x.pc
    case UWriteClose(c, i) => assert x.rmutexes[i + 1..] == x.rmutexes[i..][1..];
    case _ =>
  }

  // Closing a handle to a mutex the closer does not own never destroys an owned mutex.
  lemma CloseKeepsOwners(s: State, o: ObjId, n: int)
    requires Inv(s) && o in s.objs && !Owned(s, o, n)
    ensures Close(s, o, n) == s.owner
  {
    if n in s.owner {
      var p := s.owner[n];
      assert Owned(s, p, n) && SlotView(s, p, s.objs[p]);
      OwnsAreOpen(s.objs[p]);
    }
  }

  // What a step of `o` may do: change its own fields and its own mutexes, taking slots only under the writer mutex.
  ghost predicate OwnStep(s: State, t: State, o: ObjId) {
    && o in t.objs && t.objs.Keys == s.objs.Keys + {o}
    && (forall p :: p in s.objs && p != o ==> t.objs[p] == s.objs[p])
    && (forall p, n :: p != o ==> (Owned(s, p, n) <==> Owned(t, p, n)))
    && ((forall n :: n != WRITER && Owned(t, o, n) ==> Owned(s, o, n)) || Owned(s, o, WRITER))
  }

  lemma OwnersKept(s: State, t: State, o: ObjId, owns: set<int>)
    requires Owners(s) && OwnStep(s, t, o)
    requires owns == OwnsOf(t.objs[o]) && forall n :: Owned(t, o, n) <==> n in owns
    requires forall n :: n in owns ==> WRITER <= n < MAX_READERS
    ensures Owners(t)
  {
    forall n | n in t.owner ensures WRITER <= n < MAX_READERS && t.owner[n] in t.objs {
      assert Owned(t, t.owner[n], n);
      if t.owner[n] != o { assert Owned(s, t.owner[n], n); }
    }
    forall p, n | p in t.objs ensures Owned(t, p, n) <==> n in OwnsOf(t.objs[p]) {
      if p != o { assert Owned(s, p, n) <==> n in OwnsOf(s.objs[p]); }
    }
  }

  lemma ViewKept(s: State, t: State, o: ObjId, p: ObjId)
    requires Owners(s) && OwnStep(s, t, o) && p in s.objs && p != o && SlotView(s, p, s.objs[p])
    ensures SlotView(t, p, s.objs[p])
  {
    var x := s.objs[p];
    if WRITER in OwnsOf(x) {
      assert Owned(s, p, WRITER);
      forall n | n in t.owner && 0 <= n ensures n in s.owner && t.owner[n] == s.owner[n] {
        assert Owned(t, t.owner[n], n);
        assert Owned(s, t.owner[n], n);
      }
    }
  }

  lemma Preserve(s: State, t: State, o: ObjId, owns: set<int>)
    requires Inv(s) && OwnStep(s, t, o)
    requires owns == OwnsOf(t.objs[o]) && forall n :: Owned(t, o, n) <==> n in owns
    requires forall n :: n in owns ==> WRITER <= n < MAX_READERS
    requires Local(t.objs[o]) && SlotView(t, o, t.objs[o])
    ensures Inv(t)
  {
    OwnersKept(s, t, o, owns);
    assert Views(t) by {
      forall p | p in t.objs && p != o ensures SlotView(t, p, t.objs[p]) {
        ViewKept(s, t, o, p);
      }
    }
  }

  lemma ReleaseOwned(s: State, o: ObjId, n: int)
    ensures forall p, k :: Owned(s.(owner := Release(s, o, n)), p, k) <==> Owned(s, p, k) && !(p == o && k == n)
  {
  }

  lemma UnlockReadStep(s: State, o: ObjId)
    requires Inv(s) && o in s.objs && (s.objs[o].pc.UReadRelease? || s.objs[o].pc.UReadClose?)
    ensures Inv(Exec(s, o))
  {
    var x, t := s.objs[o], Exec(s, o);
    assert forall n :: Owned(s, o, n) <==> n in OwnsOf(x);
    if x.pc.UReadRelease? {
      ReleaseOwned(s, o, x.rmutex);
    } else {
      CloseKeepsOwners(s, o, x.rmutex);
    }
    Preserve(s, t, o, {});
  }

  lemma UnlockWriteReleaseStep(s: State, o: ObjId)
    requires Inv(s) && o in s.objs && s.objs[o].pc.UWriteRelease?
    ensures Inv(Exec(s, o))
  {
    var x, t := s.objs[o], Exec(s, o);
    var i := x.pc.i;
    assert forall n :: Owned(s, o, n) <==> n in OwnsOf(x);
    if i < |x.rmutexes| {
      ReleaseOwned(s, o, x.rmutexes[i]);
      TailElems(x.rmutexes, i);
      Preserve(s, t, o, OwnsOf(t.objs[o]));
    } else {
      assert x.rmutexes[i..] == [];
      ReleaseOwned(s, o, WRITER);
      Preserve(s, t, o, {});
    }
  }

  lemma UnlockWriteCloseStep(s: State, o: ObjId)
    requires Inv(s) && o in s.objs && s.objs[o].pc.UWriteClose?
    ensures Inv(Exec(s, o))
  {
    var x, t := s.objs[o], Exec(s, o);
    assert forall n :: Owned(s, o, n) <==> n in OwnsOf(x);
    TailElems(x.rmutexes, x.pc.i);
    CloseKeepsOwners(s, o, x.rmutexes[x.pc.i]);
    Preserve(s, t, o, OwnsOf(x));
  }

  // Slot numbers in `rmutexes` are distinct, so each is released and closed once.
  lemma TailElems(q: seq<int>, i: nat)
    requires i < |q| && Ascending(q, MAX_READERS)
    ensures Elems(q[i..]) == {q[i]} + Elems(q[i + 1..]) && q[i] !in Elems(q[i + 1..])
    ensures WRITER !in Elems(q[i..])
  {
    assert q[i..] == [q[i]] + q[i + 1..];
  }

  lemma ScanOpenStep(s: State, o: ObjId)
    requires Inv(s) && o in s.objs && s.objs[o].pc.RScanOpen?
    ensures Inv(Exec(s, o))
  {
    var x, t := s.objs[o], Exec(s, o);
    assert forall n :: Owned(s, o, n) <==> n in OwnsOf(x);
    assert SlotView(s, o, x);
    OwnedExists(s, x.pc.idx);
    Preserve(s, t, o, {WRITER});
  }

  lemma ScanCloseStep(s: State, o: ObjId)
    requires Inv(s) && o in s.objs && s.objs[o].pc.RScanClose?
    ensures Inv(Exec(s, o))
  {
    var x, t := s.objs[o], Exec(s, o);
    assert forall n :: Owned(s, o, n) <==> n in OwnsOf(x);
    assert SlotView(s, o, x);
    CloseKeepsOwners(s, o, x.pc.idx);
    Preserve(s, t, o, {WRITER});
  }

  lemma ReadReleaseWriterStep(s: State, o: ObjId)
    requires Inv(s) && o in s.objs && s.objs[o].pc.RReleaseW?
    ensures Inv(Exec(s, o))
  {
    var x, t := s.objs[o], Exec(s, o);
    assert forall n :: Owned(s, o, n) <==> n in OwnsOf(x);
    ReleaseOwned(s, o, WRITER);
    assert OwnsOf(t.objs[o]) == OwnsOf(x) - {WRITER};
    Preserve(s, t, o, OwnsOf(t.objs[o]));
  }

  lemma ScanTakeStep(s: State, o: ObjId)
    requires Inv(s) && o in s.objs && (s.objs[o].pc.RScanWait? || s.objs[o].pc.RCreate? || s.objs[o].pc.RCreateWait?)
    ensures Inv(Exec(s, o))
  {
    var x, t := s.objs[o], Exec(s, o);
    assert forall n :: Owned(s, o, n) <==> n in OwnsOf(x);
    assert SlotView(s, o, x);
    Preserve(s, t, o, OwnsOf(t.objs[o]));
  }

  lemma OwnedExists(s: State, n: int)
    requires Inv(s)
    ensures n in s.owner ==> Exists(s, n)
  {
    if n in s.owner {
      var p := s.owner[n];
      assert Owned(s, p, n) && SlotView(s, p, s.objs[p]);
      OwnsAreOpen(s.objs[p]);
    }
  }

  // While `o` waits for the writer mutex and finds it free, every owned slot belongs to a reader.
  lemma SlotsAreReaders(s: State)
    requires Inv(s) && WRITER !in s.owner
    ensures forall n :: n in s.owner ==> n in ReadersNow(s)
  {
    forall n | n in s.owner ensures n in ReadersNow(s) {
      var p := s.owner[n];
      assert Owned(s, p, n) && !Owned(s, p, WRITER);
    }
  }

  lemma LockCreateStep(s: State, o: ObjId)
    requires Inv(s) && o in s.objs && s.objs[o].pc.LCreate?
    ensures Inv(Exec(s, o))
  {
    assert forall n :: Owned(s, o, n) <==> n in OwnsOf(s.objs[o]);
    Preserve(s, Exec(s, o), o, {});
  }

  lemma LockTakesWriter(s: State, o: ObjId)
    requires Inv(s) && o in s.objs && s.objs[o].pc.LWait? && WRITER !in s.owner
    ensures Inv(Exec(s, o))
  {
    assert forall n :: Owned(s, o, n) <==> n in OwnsOf(s.objs[o]);
    SlotsAreReaders(s);
    Preserve(s, Exec(s, o), o, {WRITER});
  }

  lemma LockWaitStep(s: State, o: ObjId)
    requires Inv(s) && o in s.objs && s.objs[o].pc.LWait?
    ensures Inv(Exec(s, o))
  {
    assert forall n :: Owned(s, o, n) <==> n in OwnsOf(s.objs[o]);
    if WRITER !in s.owner {
      LockTakesWriter(s, o);
    } else {
      assert !Owned(s, o, WRITER);
      if s.objs[o].call.block {
        assert Exec(s, o) == s;
      } else {
        Preserve(s, Exec(s, o), o, {});
      }
    }
  }

  lemma AppendAscending(q: seq<int>, j: nat)
    requires Ascending(q, j)
    ensures Ascending(q + [j], j + 1) && Ascending(q, j + 1) && Elems(q + [j]) == Elems(q) + {j}
  {
  }

  lemma WriteScanLocal(s: State, o: ObjId)
    requires o in s.objs && s.objs[o].pc.WScan? && Local(s.objs[o])
    ensures Local(Step(s, o).0)
    ensures Step(s, o).0.pc == Idle ==> s.objs[o].pc.j == MAX_READERS && s.objs[o].rmutexes == []
  {
    AppendAscending(s.objs[o].rmutexes, s.objs[o].pc.j);
  }

  lemma WriteScanView(s: State, o: ObjId)
    requires o in s.objs && s.objs[o].pc.WScan? && SlotView(s, o, s.objs[o]) && s.objs[o].pc.j <= MAX_READERS
    requires s.objs[o].pc.j in s.owner ==> Exists(s, s.objs[o].pc.j)
    requires forall n :: n in s.owner ==> n < MAX_READERS
    ensures SlotView(Exec(s, o), o, Step(s, o).0)
  {
  }

  lemma WriteScanStep(s: State, o: ObjId)
    requires Inv(s) && o in s.objs && s.objs[o].pc.WScan?
    ensures Inv(Exec(s, o))
  {
    OwnedExists(s, s.objs[o].pc.j);
    WriteScanView(s, o) by { assert SlotView(s, o, s.objs[o]); }
    WriteScanLocal(s, o);
    assert forall n :: Owned(s, o, n) <==> n in OwnsOf(s.objs[o]);
    Preserve(s, Exec(s, o), o, {WRITER});
  }

  lemma WaitAllTakes(s: State, o: ObjId)
    requires Inv(s) && o in s.objs && s.objs[o].pc == WWaitAll
    requires forall n :: n in s.objs[o].rmutexes ==> Available(s, o, n)
    ensures Inv(Exec(s, o))
  {
    var x, t := s.objs[o], Exec(s, o);
    assert forall n :: Owned(s, o, n) <==> n in OwnsOf(x);
    assert SlotView(s, o, x);
    forall p, n | p != o ensures Owned(s, p, n) <==> Owned(t, p, n) {
      if n in Elems(x.rmutexes) { assert Available(s, o, n); }
    }
    Preserve(s, t, o, {WRITER} + Elems(x.rmutexes));
  }

  lemma WaitAllStep(s: State, o: ObjId)
    requires Inv(s) && o in s.objs && s.objs[o].pc == WWaitAll
    ensures Inv(Exec(s, o))
  {
    var x, t := s.objs[o], Exec(s, o);
    if forall n :: n in x.rmutexes ==> Available(s, o, n) {
      WaitAllTakes(s, o);
    } else if !x.call.block {
      assert forall n :: Owned(s, o, n) <==> n in OwnsOf(x);
      assert x.rmutexes[0..] == x.rmutexes;
      Preserve(s, t, o, {WRITER});
    } else {
      assert t == s;
    }
  }

  // Entering a call changes no ownership: what was held is handed to unlock() or kept.
  lemma EnterOwns(x: Obj, call: Call, isOpen: bool)
    requires Local(x) && x.pc == Idle
    ensures Local(Enter(x, call, isOpen)) && OwnsOf(Enter(x, call, isOpen)) == OwnsOf(x)
    ensures var y := Enter(x, call, isOpen);
            (y.pc == Idle && y.mode == x.mode) || y.pc.UReadRelease? || y.pc.UWriteRelease? || y.pc.LCreate?
  {
    assert x.rmutexes[0..] == x.rmutexes;
  }

  lemma InvokeStep(s: State, o: ObjId, call: Call, isOpen: bool)
    requires Inv(s) && o in s.objs && s.objs[o].pc == Idle
    ensures Inv(Apply(s, Invoke(o, call, isOpen)))
  {
    var x := s.objs[o];
    assert forall n :: Owned(s, o, n) <==> n in OwnsOf(x);
    assert SlotView(s, o, x);
    EnterOwns(x, call, isOpen);
    Preserve(s, Apply(s, Invoke(o, call, isOpen)), o, OwnsOf(x));
  }

  lemma DestroyStep(s: State, o: ObjId)
    requires Inv(s) && o in s.objs && s.objs[o].pc == Idle && s.objs[o].mode == NoLock
    ensures Inv(Apply(s, Destroy(o)))
  {
    var x, t := s.objs[o], Apply(s, Destroy(o));
    assert forall n :: Owned(s, o, n) <==> n in OwnsOf(x);
    assert !Owned(s, o, WRITER);
    CloseKeepsOwners(s, o, WRITER);
    assert t.owner == s.owner;
    assert Owners(t) by {
      forall p, n | p in t.objs ensures Owned(t, p, n) <==> n in OwnsOf(t.objs[p]) {
        assert Owned(s, p, n) <==> n in OwnsOf(s.objs[p]);
      }
      forall n | n in t.owner ensures WRITER <= n < MAX_READERS && t.owner[n] in t.objs {
        assert Owned(s, t.owner[n], n);
      }
    }
    forall p | p in t.objs ensures SlotView(t, p, t.objs[p]) {
      assert SlotView(s, p, s.objs[p]);
    }
  }

  lemma NoFailClose(s: State, o: ObjId)
    requires Inv(s) && o in s.objs
    ensures !s.objs[o].pc.RFailClose?
  {
    assert SlotView(s, o, s.objs[o]);
  }

  lemma TickKeepsInv(s: State, o: ObjId)
    requires Inv(s) && o in s.objs
    ensures Inv(Exec(s, o))
  {
    NoFailClose(s, o);
    match s.objs[o].pc
    case Idle => assert Exec(s, o) == s;
    case UReadRelease(_) => UnlockReadStep(s, o);
    case UReadClose(_) => UnlockReadStep(s, o);
    case UWriteRelease(_, _) => UnlockWriteReleaseStep(s, o);
    case UWriteClose(_, _) => UnlockWriteCloseStep(s, o);
    case LCreate => LockCreateStep(s, o);
    case LWait => LockWaitStep(s, o);
    case RScanOpen(_) => ScanOpenStep(s, o);
    case RScanWait(_) => ScanTakeStep(s, o);
    case RScanClose(_) => ScanCloseStep(s, o);
    case RCreate(_) => ScanTakeStep(s, o);
    case RCreateWait(_) => ScanTakeStep(s, o);
    case RReleaseW(_) => ReadReleaseWriterStep(s, o);
    case WScan(_) => WriteScanStep(s, o);
    case WWaitAll => WaitAllStep(s, o);
  }

  lemma ApplyKeepsInv(s: State, a: Action)
    requires Inv(s)
    ensures Inv(Apply(s, a))
  {
    match a
    case Construct(o) =>
      if o !in s.objs { Preserve(s, Apply(s, a), o, {}); }
    case Destroy(o) =>
      if o in s.objs && s.objs[o].pc == Idle && s.objs[o].mode == NoLock { DestroyStep(s, o); }
    case Invoke(o, call, isOpen) =>
      if o in s.objs && s.objs[o].pc == Idle { InvokeStep(s, o, call, isOpen); }
    case Tick(o) =>
      if o in s.objs { TickKeepsInv(s, o); }
  }

  lemma {:induction false} RunKeepsInv(acts: seq<Action>)
    ensures Inv(Run(acts))
  {
    if acts != [] {
      RunKeepsInv(acts[..|acts| - 1]);
      ApplyKeepsInv(Run(acts[..|acts| - 1]), acts[|acts| - 1]);
    }
  }

  // ---------- what the invariant gives ----------

  // From the moment lock() returned true until unlock() is called (by the user or by lock() itself).
  ghost predicate InSection(s: State, o: ObjId, m: LockMode) {
    o in s.objs && s.objs[o].pc == Idle && s.objs[o].mode == m
  }

  lemma SectionOwns(s: State, o: ObjId)
    requires Inv(s)
    ensures InSection(s, o, ReadLock) ==> IsSlot(s.objs[o].rmutex) && Owned(s, o, s.objs[o].rmutex)
    ensures InSection(s, o, WriteLock) ==>
              Owned(s, o, WRITER) && forall p, n :: 0 <= n && Owned(s, p, n) ==> p == o
  {
    if o in s.objs {
      assert forall n :: Owned(s, o, n) <==> n in OwnsOf(s.objs[o]);
      assert SlotView(s, o, s.objs[o]);
    }
  }

  lemma {:induction false} MutualExclusion(acts: seq<Action>, w: ObjId, p: ObjId)
    requires InSection(Run(acts), w, WriteLock) && p != w
    ensures !InSection(Run(acts), p, WriteLock) && !InSection(Run(acts), p, ReadLock)
  {
    RunKeepsInv(acts);
    SectionOwns(Run(acts), w);
    SectionOwns(Run(acts), p);
  }

  lemma {:induction false} ReadersHaveDistinctSlots(acts: seq<Action>, p: ObjId, q: ObjId)
    requires InSection(Run(acts), p, ReadLock) && InSection(Run(acts), q, ReadLock) && p != q
    ensures IsSlot(Run(acts).objs[p].rmutex) && Run(acts).objs[p].rmutex != Run(acts).objs[q].rmutex
  {
    RunKeepsInv(acts);
    SectionOwns(Run(acts), p);
    SectionOwns(Run(acts), q);
  }

  // lock() and unlock() on an open file answer what their documentation promises.
  lemma {:induction false} AnswersAreTrue(acts: seq<Action>, o: ObjId)
    requires o in Run(acts).objs && Run(acts).objs[o].pc == Idle
    requires Run(acts).objs[o].isOpen && Run(acts).objs[o].outcome.Returned?
    ensures Answered(Run(acts).objs[o])
  {
    RunKeepsInv(acts);
  }

  // A freshly created slot mutex is always free, so a read attempt that has the writer mutex
  // fails only by running out of slots; and no thread ever waits for a mutex it already owns.
  lemma {:induction false} WaitsAreClean(acts: seq<Action>, o: ObjId)
    requires o in Run(acts).objs
    ensures !Run(acts).objs[o].pc.RFailClose?
    ensures Run(acts).objs[o].pc.LWait? ==> !Owned(Run(acts), o, WRITER)
    ensures ReadScanning(Run(acts).objs[o].pc) && !Run(acts).objs[o].pc.RScanClose? ==>
              !Owned(Run(acts), o, Run(acts).objs[o].pc.idx)
    ensures Run(acts).objs[o].pc.RCreateWait? ==> Exec(Run(acts), o).objs[o].pc == RReleaseW(true)
    ensures Run(acts).objs[o].pc == WWaitAll ==>
              forall n :: n in Run(acts).objs[o].rmutexes ==> !Owned(Run(acts), o, n)
  {
    RunKeepsInv(acts);
    var s := Run(acts);
    assert SlotView(s, o, s.objs[o]);
    assert forall n :: Owned(s, o, n) <==> n in OwnsOf(s.objs[o]);
  }

  // The wait-all call never gets more handles than the API allows.
  lemma {:induction false} WaitAllFits(acts: seq<Action>, o: ObjId)
    requires o in Run(acts).objs
    ensures |Run(acts).objs[o].rmutexes| <= MAX_READERS
  {
    RunKeepsInv(acts);
    AscendingFits(Run(acts).objs[o].rmutexes, MAX_READERS);
  }

  lemma {:induction false} AscendingFits(q: seq<int>, bound: nat)
    requires Ascending(q, bound)
    ensures |q| <= bound
  {
    if q != [] {
      var r := q[..|q| - 1];
      assert Ascending(r, q[|q| - 1]);
      AscendingFits(r, q[|q| - 1]);
    }
  }

  // The history variable records the readers at the moment the writer mutex was taken.
  lemma {:induction false} SeenIsASnapshot(acts: seq<Action>, o: ObjId) returns (k: nat)
    requires o in Run(acts).objs
    requires ReadScanning(Run(acts).objs[o].pc) || Run(acts).objs[o].pc.RReleaseW?
    ensures k < |acts| && acts[k] == Tick(o)
    ensures o in Run(acts[..k]).objs && Run(acts[..k]).objs[o].pc == LWait && WRITER !in Run(acts[..k]).owner
    ensures Owned(Run(acts[..k + 1]), o, WRITER)
    ensures Run(acts).objs[o].seen == ReadersNow(Run(acts[..k]))
  {
    var n := |acts| - 1;
    var s := Run(acts[..n]);
    RunKeepsInv(acts[..n]);
    if acts[n] == Tick(o) && s.objs[o].pc == LWait {
      k := n;
      assert acts[..k + 1] == acts;
      TakesWriter(s, o);
    } else {
      SeenStep(s, acts[n], o);
      NoFailClose(s, o);
      k := SeenIsASnapshot(acts[..n], o);
      assert acts[..n][..k] == acts[..k] && acts[..n][..k + 1] == acts[..k + 1];
    }
  }

  lemma TakesWriter(s: State, o: ObjId)
    requires Inv(s) && o in s.objs && s.objs[o].pc == LWait
    requires ReadScanning(Step(s, o).0.pc) || Step(s, o).0.pc.RReleaseW?
    ensures WRITER !in s.owner && Owned(Exec(s, o), o, WRITER) && Step(s, o).0.seen == ReadersNow(s)
  {
    assert !Owned(s, o, WRITER);
  }

  lemma SeenStep(s: State, a: Action, o: ObjId)
    requires o in Apply(s, a).objs && !(o in s.objs && a == Tick(o) && s.objs[o].pc == LWait)
    requires ReadScanning(Apply(s, a).objs[o].pc) || Apply(s, a).objs[o].pc.RReleaseW?
    ensures o in s.objs && (ReadScanning(s.objs[o].pc) || s.objs[o].pc.RReleaseW? || s.objs[o].pc.RFailClose?)
    ensures s.objs[o].seen == Apply(s, a).objs[o].seen
  {
    OthersUntouched(s, a);
    if a == Tick(o) && o in s.objs {
      ScanTick(s, o);
      SeenTick(s, o);
    }
  }

  lemma SeenTick(s: State, o: ObjId)
    requires o in s.objs && (ReadScanning(s.objs[o].pc) || s.objs[o].pc.RReleaseW? || s.objs[o].pc.RFailClose?)
    ensures s.objs[o].seen == Step(s, o).0.seen
  {
  }

  lemma ScanTick(s: State, o: ObjId)
    requires o in s.objs && s.objs[o].pc != LWait
    ensures ReadScanning(Step(s, o).0.pc) || Step(s, o).0.pc.RReleaseW? ==>
              ReadScanning(s.objs[o].pc) || s.objs[o].pc.RReleaseW? || s.objs[o].pc.RFailClose?
  {
  }

  // "Too many readers" is reported only if readers owned every slot when the attempt took the writer mutex.
  lemma {:induction false} TooManyReaders(acts: seq<Action>, o: ObjId) returns (k: nat)
    requires o in Run(acts).objs && Run(acts).objs[o].pc == RReleaseW(false)
    ensures k < |acts| && acts[k] == Tick(o)
    ensures o in Run(acts[..k]).objs && Run(acts[..k]).objs[o].pc == LWait
    ensures Owned(Run(acts[..k + 1]), o, WRITER)
    ensures forall i :: IsSlot(i) ==> i in ReadersNow(Run(acts[..k]))
  {
    RunKeepsInv(acts);
    var s := Run(acts);
    assert SlotView(s, o, s.objs[o]);
    k := SeenIsASnapshot(acts, o);
  }

  // ---------- refinement of the documented lock ----------

  // The documented lock: either any number of readers or exactly one writer.
  datatype Spec = Spec(readers: set<ObjId>, writers: set<ObjId>)

  datatype SpecOp =
    | Invisible
    | AcquireRead(o: ObjId)
    | AcquireWrite(o: ObjId)
    | ReleaseRead(o: ObjId)
    | ReleaseWrite(o: ObjId)

  predicate Enabled(a: Spec, op: SpecOp) {
    match op
    case Invisible => true
    case AcquireRead(o) => a.writers == {} && o !in a.readers
    case AcquireWrite(o) => a.writers == {} && a.readers == {}
    case ReleaseRead(o) => o in a.readers
    case ReleaseWrite(o) => o in a.writers
  }

  function SpecApply(a: Spec, op: SpecOp): Spec {
    match op
    case Invisible => a
    case AcquireRead(o) => a.(readers := a.readers + {o})
    case AcquireWrite(o) => a.(writers := a.writers + {o})
    case ReleaseRead(o) => a.(readers := a.readers - {o})
    case ReleaseWrite(o) => a.(writers := a.writers - {o})
  }

  predicate HoldsRead(x: Obj) {
    (x.pc == Idle && x.mode == ReadLock) || x.pc == RReleaseW(true)
  }

  predicate HoldsWrite(x: Obj) {
    x.pc == Idle && x.mode == WriteLock
  }

  ghost function Abs(s: State): Spec {
    Spec(set o | o in s.objs && HoldsRead(s.objs[o]), set o | o in s.objs && HoldsWrite(s.objs[o]))
  }

  // The abstract operation that an action performs, read off the acting object before and after.
  ghost function OpOf(s: State, a: Action): SpecOp {
    var o := a.o;
    var t := Apply(s, a);
    if o !in s.objs || o !in t.objs then Invisible
    else if HoldsRead(s.objs[o]) != HoldsRead(t.objs[o]) then
      if HoldsRead(t.objs[o]) then AcquireRead(o) else ReleaseRead(o)
    else if HoldsWrite(s.objs[o]) != HoldsWrite(t.objs[o]) then
      if HoldsWrite(t.objs[o]) then AcquireWrite(o) else ReleaseWrite(o)
    else Invisible
  }

  lemma OthersUntouched(s: State, a: Action)
    ensures Apply(s, a).objs.Keys - {a.o} == s.objs.Keys - {a.o}
    ensures forall p :: p in s.objs && p != a.o ==> Apply(s, a).objs[p] == s.objs[p]
  {
  }

  // No action changes both holdings of an object at once.
  lemma OneHolding(s: State, a: Action)
    requires Inv(s)
    ensures a.o in s.objs && a.o in Apply(s, a).objs ==>
              var x, y := s.objs[a.o], Apply(s, a).objs[a.o];
              HoldsRead(x) == HoldsRead(y) || HoldsWrite(x) == HoldsWrite(y)
    ensures a.o in s.objs && a.o !in Apply(s, a).objs ==> !HoldsRead(s.objs[a.o]) && !HoldsWrite(s.objs[a.o])
    ensures a.o !in s.objs && a.o in Apply(s, a).objs ==>
              !HoldsRead(Apply(s, a).objs[a.o]) && !HoldsWrite(Apply(s, a).objs[a.o])
  {
  }

  lemma ReadAcquireFrom(s: State, o: ObjId)
    requires o in s.objs && Local(s.objs[o]) && !HoldsRead(s.objs[o]) && HoldsRead(Step(s, o).0)
    ensures WRITER in OwnsOf(s.objs[o]) && !HoldsWrite(s.objs[o])
  {
  }

  lemma ReadAcquireIsLegal(s: State, o: ObjId)
    requires Inv(s) && o in s.objs && !HoldsRead(s.objs[o]) && HoldsRead(Step(s, o).0)
    ensures Abs(s).writers == {}
  {
    ReadAcquireFrom(s, o);
    assert Owned(s, o, WRITER);
    forall p | p in s.objs ensures !HoldsWrite(s.objs[p]) {
      HolderOwns(s, p);
    }
  }

  lemma WriteAcquireIsLegal(s: State, o: ObjId)
    requires Inv(s) && o in s.objs && !HoldsWrite(s.objs[o]) && HoldsWrite(Step(s, o).0)
    ensures Abs(s).writers == {} && Abs(s).readers == {}
  {
    WriteAcquireIsExclusive(s, o);
    forall p | p in s.objs ensures !HoldsWrite(s.objs[p]) && !HoldsRead(s.objs[p]) {
      HolderOwns(s, p);
    }
  }

  lemma HolderOwns(s: State, p: ObjId)
    requires Inv(s) && p in s.objs
    ensures HoldsWrite(s.objs[p]) ==> Owned(s, p, WRITER)
    ensures HoldsRead(s.objs[p]) ==> Owned(s, p, s.objs[p].rmutex)
  {
  }

  lemma WriteAcquireIsExclusive(s: State, o: ObjId)
    requires Inv(s) && o in s.objs && !HoldsWrite(s.objs[o]) && HoldsWrite(Step(s, o).0)
    ensures !HoldsRead(s.objs[o]) && forall p, n :: Owned(s, p, n) ==> p == o
  {
    assert s.objs[o].pc.WScan? || s.objs[o].pc == WWaitAll;
    assert SlotView(s, o, s.objs[o]) && Owned(s, o, WRITER);
  }

  lemma StepRefines(s: State, a: Action)
    requires Inv(s)
    ensures Enabled(Abs(s), OpOf(s, a)) && Abs(Apply(s, a)) == SpecApply(Abs(s), OpOf(s, a))
  {
    OthersUntouched(s, a);
    OneHolding(s, a);
    OnlyTicksAcquire(s, a);
    if a.Tick? && a.o in s.objs {
      if !HoldsRead(s.objs[a.o]) && HoldsRead(Step(s, a.o).0) { ReadAcquireIsLegal(s, a.o); }
      if !HoldsWrite(s.objs[a.o]) && HoldsWrite(Step(s, a.o).0) { WriteAcquireIsLegal(s, a.o); }
    }
    AbsMoves(s, Apply(s, a), a);
  }

  lemma OnlyTicksAcquire(s: State, a: Action)
    ensures OpOf(s, a).AcquireRead? || OpOf(s, a).AcquireWrite? ==> a.Tick? && a.o in s.objs
  {
  }

  lemma AbsMoves(s: State, t: State, a: Action)
    requires t == Apply(s, a)
    requires t.objs.Keys - {a.o} == s.objs.Keys - {a.o}
    requires forall p :: p in s.objs && p != a.o ==> t.objs[p] == s.objs[p]
    requires a.o in s.objs && a.o in t.objs ==>
               HoldsRead(s.objs[a.o]) == HoldsRead(t.objs[a.o]) || HoldsWrite(s.objs[a.o]) == HoldsWrite(t.objs[a.o])
    requires a.o in s.objs && a.o !in t.objs ==> !HoldsRead(s.objs[a.o]) && !HoldsWrite(s.objs[a.o])
    requires a.o !in s.objs && a.o in t.objs ==> !HoldsRead(t.objs[a.o]) && !HoldsWrite(t.objs[a.o])
    ensures Abs(t) == SpecApply(Abs(s), OpOf(s, a))
  {
    assert forall p :: p != a.o ==> (p in Abs(t).readers <==> p in Abs(s).readers);
    assert forall p :: p != a.o ==> (p in Abs(t).writers <==> p in Abs(s).writers);
  }

  ghost function Ops(acts: seq<Action>): seq<SpecOp> {
    if acts == [] then [] else Ops(acts[..|acts| - 1]) + [OpOf(Run(acts[..|acts| - 1]), acts[|acts| - 1])]
  }

  function SpecRun(ops: seq<SpecOp>): Spec {
    if ops == [] then Spec({}, {}) else SpecApply(SpecRun(ops[..|ops| - 1]), ops[|ops| - 1])
  }

  predicate SpecLegal(ops: seq<SpecOp>) {
    ops == [] || (SpecLegal(ops[..|ops| - 1]) && Enabled(SpecRun(ops[..|ops| - 1]), ops[|ops| - 1]))
  }

  // Every run of the slot protocol is a run of the documented lock.
  lemma {:induction false} Refinement(acts: seq<Action>)
    ensures SpecLegal(Ops(acts)) && SpecRun(Ops(acts)) == Abs(Run(acts))
  {
    if acts != [] {
      var front := acts[..|acts| - 1];
      Refinement(front);
      RunKeepsInv(front);
      StepRefines(Run(front), acts[|acts| - 1]);
      assert Ops(acts)[..|Ops(acts)| - 1] == Ops(front);
    }
  }

  // ---------- progress ----------

  // An upper bound on the steps left in the current call.
  function Rank(x: Obj): nat {
    match x.pc
    case Idle => 0
    case UReadRelease(c) => 2 + AfterRank(c)
    case UReadClose(c) => 1 + AfterRank(c)
    case UWriteRelease(c, i) => 1 + (if i <= |x.rmutexes| then 2 * (|x.rmutexes| - i) else 0) + AfterRank(c)
    case UWriteClose(c, i) => (if i < |x.rmutexes| then 2 * (|x.rmutexes| - i) else 0) + AfterRank(c)
    case LCreate => LOCK_RANK
    case LWait => LOCK_RANK - 1
    case RScanOpen(i) => (if i <= MAX_READERS then 3 * (MAX_READERS - i) else 0) + 5
    case RScanWait(i) => (if i < MAX_READERS then 3 * (MAX_READERS - i) else 0) + 4
    case RScanClose(i) => (if i < MAX_READERS then 3 * (MAX_READERS - i) else 0) + 3
    case RCreate(_) => 4
    case RCreateWait(_) => 3
    case RFailClose(_) => 2
    case RReleaseW(_) => 1
    case WScan(j) => (if j <= MAX_READERS then MAX_READERS - j else 0) + 2 * MAX_READERS + 4
    case WWaitAll => 2 * MAX_READERS + 3
  }

  const LOCK_RANK: nat := 3 * MAX_READERS + 20

  function AfterRank(c: Caller): nat {
    if c == ByLock then LOCK_RANK else 0
  }

  lemma RankDrops(s: State, o: ObjId)
    requires o in s.objs && Local(s.objs[o]) && s.objs[o].pc != Idle && !Blocked(s, o)
    requires |s.objs[o].rmutexes| <= MAX_READERS
    ensures Rank(Step(s, o).0) < Rank(s.objs[o])
  {
  }

  lemma OthersDoNotDelay(s: State, a: Action, o: ObjId)
    requires o in s.objs && s.objs[o].pc != Idle && a != Tick(o)
    ensures o in Apply(s, a).objs && Rank(Apply(s, a).objs[o]) == Rank(s.objs[o])
  {
    OthersUntouched(s, a);
  }

  // Every step of a call that is not blocked brings it closer to its return, and no action of others takes it
  // further away; only a blocking wait can block.
  lemma {:induction false} EveryStepCounts(acts: seq<Action>, o: ObjId)
    requires o in Run(acts).objs && Run(acts).objs[o].pc != Idle
    ensures !Blocked(Run(acts), o) ==>
              o in Exec(Run(acts), o).objs && Rank(Exec(Run(acts), o).objs[o]) < Rank(Run(acts).objs[o])
    ensures forall a :: a != Tick(o) ==>
              o in Apply(Run(acts), a).objs && Rank(Apply(Run(acts), a).objs[o]) == Rank(Run(acts).objs[o])
  {
    WaitAllFits(acts, o);
    RunKeepsInv(acts);
    if !Blocked(Run(acts), o) { RankDrops(Run(acts), o); }
    forall a | a != Tick(o)
      ensures o in Apply(Run(acts), a).objs && Rank(Apply(Run(acts), a).objs[o]) == Rank(Run(acts).objs[o])
    {
      OthersDoNotDelay(Run(acts), a, o);
    }
  }
}
