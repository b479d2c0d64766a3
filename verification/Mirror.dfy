/** The whole copier in clean runs: the worker, the signals not delivered yet, and the GUI side's forest.

    The GUI side sees each signal some time after it was emitted.  What it will hold once everything on the
    way has been delivered is compared with the worker's queue.
 */
module Mirror {
  import opened Forest
  import opened CopyThread
  import opened CleanRuns
  import opened LinkFreeRuns
  import opened StartOrder
  import opened FileCopier

  // `delivered` is a history variable: the signals delivered so far, latest first.
  datatype System = System(w: State, gui: Pending, inbox: seq<Event>, delivered: Log)

  datatype SystemAction = Thread(a: Action) | Deliver

  const START := System(INIT, Pending(map[], Nil), [], Silent)

  function EmittedBy(before: Log, after: Log): seq<Event> {
    if after.Log? && after.past == before then [after.last] else []
  }

  ghost function SystemApply(s: System, x: SystemAction): System {
    match x
    case Thread(a) =>
      var t := Apply(s.w, a);
      var accepted := a.Submit? && t.issued.nextId != s.w.issued.nextId;
      s.(w := t, gui := if accepted then s.gui.(requests := s.gui.requests + a.batch) else s.gui,
         inbox := s.inbox + EmittedBy(s.w.events, t.events))
    case Deliver =>
      if s.inbox == [] then s
      else System(s.w, OnSignal(s.gui, s.inbox[0]), s.inbox[1..], Log(s.inbox[0], s.delivered))
  }

  ghost function SystemRun(acts: seq<SystemAction>): System {
    if acts == [] then START else SystemApply(SystemRun(acts[..|acts| - 1]), acts[|acts| - 1])
  }

  ghost predicate CleanRun(acts: seq<SystemAction>) {
    acts == [] ||
    (CleanRun(acts[..|acts| - 1]) &&
     (acts[|acts| - 1].Thread? ==> CleanAction(SystemRun(acts[..|acts| - 1]).w, acts[|acts| - 1].a)))
  }

  // No directory turns into a link while its children are queued.
  ghost predicate LinkFreeRun(acts: seq<SystemAction>) {
    acts == [] ||
    (LinkFreeRun(acts[..|acts| - 1]) &&
     (acts[|acts| - 1].Thread? && acts[|acts| - 1].a.Work? ==>
        !LeavesChildren(SystemRun(acts[..|acts| - 1]).w, acts[|acts| - 1].a.choice)))
  }

  // The signals in `inbox` emitted after those in `past`.
  function LogOf(past: Log, inbox: seq<Event>): Log
    decreases |inbox|
  {
    if inbox == [] then past else LogOf(Log(inbox[0], past), inbox[1..])
  }

  // ---------- the history of started requests ----------

  predicate StartedIn(events: Log, x: int) {
    events.Log? && ((events.last.Started? && events.last.id == x) || StartedIn(events.past, x))
  }

  predicate StartsOnce(events: Log) {
    match events
    case Silent => true
    case Log(e, past) => (e.Started? ==> !StartedIn(past, e.id)) && StartsOnce(past)
  }

  function LastStarted(events: Log): int {
    match events
    case Silent => NONE
    case Log(e, past) => if e.Started? then e.id else LastStarted(past)
  }

  // The request finished as canceled, and nothing below it had started.
  predicate CutShort(e: Event, past: Log) {
    e.Finished? && e.error && LastStarted(past) == e.id && past.Log? && past.last == Reported(e.id, Canceled, false)
  }

  // `x` is a proper descendant of a request that was canceled or skipped before its children were reached.
  predicate Dropped(events: Log, ends: Ends, x: int) {
    events.Log? &&
    ((CutShort(events.last, events.past) && events.last.id in ends && events.last.id < x < ends[events.last.id])
     || Dropped(events.past, ends, x))
  }

  // Every number in use has started, or was dropped, or is in `v`; no two of these.
  ghost predicate Fate(events: Log, ends: Ends, v: set<int>, n: int, x: int) {
    && (0 <= x < n <==> StartedIn(events, x) || Dropped(events, ends, x) || x in v)
    && !(StartedIn(events, x) && Dropped(events, ends, x))
    && (x in v ==> !StartedIn(events, x) && !Dropped(events, ends, x))
  }

  ghost predicate History(events: Log, ends: Ends, v: set<int>, n: int) {
    StartsOnce(events) && forall x :: Fate(events, ends, v, n, x)
  }

  // ---------- what the signals say so far ----------

  predicate Between(lo: int, x: int, hi: int) {
    lo < x < hi
  }

  // The numbers below `id` in its block.
  function Interior(id: int, end: int): (ids: set<int>)
    ensures forall x :: x in ids <==> id < x < end
  {
    set x | id < x < end && Between(id, x, end)
  }

  // The rest of the block of `id` has left the queue, which finished() has not told yet.
  predicate Lagging(i: Issued, id: int, waiting: set<int>, v: set<int>) {
    && id in i.ends && v == waiting + Interior(id, i.ends[id])
    && forall x :: x in waiting ==> !(id < x < i.ends[id])
  }

  // What waits in the queue or is about to be handed over.
  function ToCome(s: State): set<int> {
    Unstarted(s) + Registered(s)
  }

  // `v` is what, going by the signals emitted, was neither started nor dropped.
  predicate LagOk(s: State, v: set<int>) {
    if s.stack.Bottom? then v == ToCome(s)
    else
      match s.stack.pc
      case Start => v == ToCome(s) + {s.stack.id}
      case Result(done, e) =>
        v == ToCome(s) || (done && e == Canceled && Lagging(s.issued, s.stack.id, ToCome(s), v))
      case Finish(e) =>
        v == ToCome(s) || (e == Canceled && Lagging(s.issued, s.stack.id, ToCome(s), v)
                          && s.events.Log? && s.events.last == Reported(s.stack.id, Canceled, false))
      case _ => v == ToCome(s)
  }

  predicate LastOk(s: State, v: set<int>) {
    s.stack.Frame? && !s.stack.pc.Start? ==>
      && s.stack.id in s.issued.ends && s.stack.id <= LastStarted(s.events) < s.issued.ends[s.stack.id]
      && (LastStarted(s.events) == s.stack.id && !s.stack.pc.Leave? ==>
            BlockIn(s.issued, s.stack.id, s.stack.id + 1, v))
  }

  ghost predicate Told(s: State, v: set<int>) {
    LagOk(s, v) && LastOk(s, v) && History(s.events, s.issued.ends, v, s.issued.nextId)
  }

  function OpenSet(k: Stack): set<int> {
    if k.Frame? && (k.pc.Start? || k.pc.Leave?) then StackIds(k.below) else StackIds(k)
  }

  // The requests a listener should hold.
  ghost predicate Matches(p: Pending, i: Issued, k: Stack, v: set<int>) {
    && p.stack == OpenIds(k)
    && p.requests.Keys == OpenSet(k) + v
    && (forall x :: x in p.requests && x in i.requests ==> p.requests[x] == i.requests[x])
  }

  lemma {:induction false} LastWasStarted(events: Log)
    ensures LastStarted(events) == NONE || StartedIn(events, LastStarted(events))
  {
    if events.Log? && !events.last.Started? { LastWasStarted(events.past); }
  }

  lemma HistoryStart(events: Log, ends: Ends, v: set<int>, n: int, id: int)
    requires History(events, ends, v, n) && id in v
    ensures History(Log(Started(id), events), ends, v - {id}, n)
  {
    var log := Log(Started(id), events);
    assert Fate(events, ends, v, n, id);
    forall x ensures Fate(log, ends, v - {id}, n, x) {
      assert Fate(events, ends, v, n, x);
      assert Dropped(log, ends, x) == Dropped(events, ends, x);
      assert StartedIn(log, x) == (x == id || StartedIn(events, x));
    }
  }

  lemma HistoryQuiet(events: Log, e: Event, ends: Ends, v: set<int>, n: int)
    requires History(events, ends, v, n) && !e.Started? && !CutShort(e, events)
    ensures History(Log(e, events), ends, v, n)
  {
    forall x ensures Fate(Log(e, events), ends, v, n, x) {
      assert Fate(events, ends, v, n, x);
      assert Dropped(Log(e, events), ends, x) == Dropped(events, ends, x)
             && StartedIn(Log(e, events), x) == StartedIn(events, x);
    }
  }

  // finished(id, true) after nothing below `id` has started.
  lemma HistoryCut(events: Log, ends: Ends, v: set<int>, n: int, id: int)
    requires History(events, ends, v, n) && CutShort(Finished(id, true), events)
    requires id in ends && forall x :: id < x < ends[id] ==> x in v
    ensures History(Log(Finished(id, true), events), ends, v - Interior(id, ends[id]), n)
  {
    var log, w := Log(Finished(id, true), events), v - Interior(id, ends[id]);
    forall x ensures Fate(log, ends, w, n, x) {
      assert Fate(events, ends, v, n, x);
      assert Dropped(log, ends, x) == (Dropped(events, ends, x) || id < x < ends[id]);
      assert StartedIn(log, x) == StartedIn(events, x);
    }
  }

  // Later batches do not change what was dropped.
  lemma {:induction false} DroppedGrows(events: Log, i: Issued, j: Issued, x: int)
    requires IssuedOk(i) && IssuedOk(j) && forall y :: StartedIn(events, y) ==> y in i.ends
    requires forall id :: id in i.requests ==> id in j.requests && j.ends[id] == i.ends[id]
    ensures Dropped(events, i.ends, x) == Dropped(events, j.ends, x)
  {
    if events.Log? {
      assert forall y :: StartedIn(events.past, y) ==> StartedIn(events, y);
      DroppedGrows(events.past, i, j, x);
      if CutShort(events.last, events.past) { LastWasStarted(events.past); }
    }
  }

  // ---------- one step of the worker ----------

  // What one step of the worker means to a listener who has heard everything before it.
  ghost predicate Reflects(s: State, t: State, p: Pending, v: set<int>) {
    && Told(t, v)
    && (t.events == s.events ==> Matches(p, t.issued, t.stack, v))
    && (t.events != s.events ==>
          && t.events.Log? && t.events.past == s.events && Expected(p, t.events.last)
          && Matches(OnSignal(p, t.events.last), t.issued, t.stack, v))
  }

  lemma TopOpen(i: Issued, k: Stack, u: set<int>)
    requires Tower(i, k, u) && k.Frame? && k.below.Frame?
    ensures OpenIds(k.below).Cons? && OpenIds(k.below).head == k.below.id < k.id
            && OpenSet(k.below) == StackIds(k.below)
  {
  }

  // The request in the worker's hands is registered no more, and nothing registered is inside its block.
  lemma NotRegistered(s: State)
    requires Clean(s) && s.stack.Frame?
    ensures s.stack.id in s.issued.ends && s.stack.id < s.issued.ends[s.stack.id]
    ensures forall x :: x in Registered(s) ==> s.issued.ends[s.stack.id] <= x
    ensures s.stack.id !in ToCome(s) && OnStack(s.stack, s.stack.id)
    ensures forall x :: OnStack(s.stack, x) ==> x <= s.stack.id
  {
    ChildrenInside(s.issued, s.stack.id);
    forall x | OnStack(s.stack, x) ensures x <= s.stack.id { TowerOrder(s.issued, s.stack, Unstarted(s), x); }
  }

  lemma StartHeard(s: State, p: Pending, v: set<int>)
    requires Clean(s) && Told(s, v) && Matches(p, s.issued, s.stack, v)
    requires s.stack.Frame? && s.stack.pc.Start?
    ensures Reflects(s, FrameStep(s, Proceed), p, v - {s.stack.id})
  {
    var k, t := s.stack, FrameStep(s, Proceed);
    NotRegistered(s);
    StartMatches(s.issued, k, p, t.stack.pc, Unstarted(s), v);
    HistoryStart(s.events, s.issued.ends, v, s.issued.nextId, k.id);
    assert StackIds(t.stack) == StackIds(k);
    assert v - {k.id} == ToCome(t);
  }

  lemma StartMatches(i: Issued, k: Stack, p: Pending, pc: Pc, u: set<int>, v: set<int>)
    requires Tower(i, k, u) && k.Frame? && k.pc.Start? && Matches(p, i, k, v) && k.id in v
    requires !pc.Start? && !pc.Leave?
    ensures Expected(p, Started(k.id)) && Matches(OnSignal(p, Started(k.id)), i, k.(pc := pc), v - {k.id})
  {
    assert OpenIds(k) == OpenIds(k.below);
    if k.below.Frame? { TopOpen(i, k, u); }
    assert StackIds(k.(pc := pc)) == {k.id} + StackIds(k.below);
  }

  // A step inside handle() that tells the listener nothing about what is pending.
  predicate Quiet(s: State, t: State) {
    && s.stack.Frame? && t.stack.Frame? && t.stack == s.stack.(pc := t.stack.pc) && t.issued == s.issued
    && !s.stack.pc.Start? && !s.stack.pc.Leave? && !t.stack.pc.Start? && !t.stack.pc.Leave?
    && OneMore(s.events, t.events)
    && (t.events != s.events ==>
          (t.events.last.Reported? || t.events.last.Progressed?) && t.events.last.id == s.stack.id)
  }

  lemma QuietHeard(s: State, t: State, p: Pending, v: set<int>)
    requires Told(s, v) && Matches(p, s.issued, s.stack, v) && Quiet(s, t) && LagOk(t, v)
    ensures Reflects(s, t, p, v)
  {
    if t.events != s.events { HistoryQuiet(s.events, t.events.last, s.issued.ends, v, s.issued.nextId); }
    assert LastStarted(t.events) == LastStarted(s.events);
    assert StackIds(t.stack) == StackIds(s.stack);
  }

  lemma CutHeard(s: State, p: Pending, v: set<int>)
    requires Clean(s) && Told(s, v) && Matches(p, s.issued, s.stack, v)
    requires s.stack.Frame? && s.stack.pc.Chain? && s.stack.pc.canceled
    ensures Reflects(s, FrameStep(s, Proceed), p, v)
  {
    var t, id := FrameStep(s, Proceed), s.stack.id;
    CutQueue(s);
    CutStep(s);
    NotRegistered(s);
    CutLags(s, t, v);
    QuietHeard(s, t, p, v);
  }

  lemma CutLags(s: State, t: State, v: set<int>)
    requires Clean(s) && v == ToCome(s) && s.stack.Frame? && s.stack.pc.Chain?
    requires t == s.(queue := t.queue, stack := s.stack.(pc := Result(true, Canceled)))
    requires forall x :: x in Registered(s) ==> s.issued.ends[s.stack.id] <= x
    requires Unstarted(t) == if s.queue[s.stack.id].moveError then Unstarted(s)
                             else Unstarted(s) - set x | x in Unstarted(s) && s.stack.id < x < s.issued.ends[s.stack.id]
    ensures LagOk(t, v)
  {
    var id := s.stack.id;
    if !s.queue[id].moveError {
      assert BlockIn(s.issued, id, id + 1, Unstarted(s));
      assert v == ToCome(t) + Interior(id, s.issued.ends[id]);
    }
  }

  lemma ChainHeard(s: State, p: Pending, v: set<int>, choice: Choice)
    requires Clean(s) && Told(s, v) && Matches(p, s.issued, s.stack, v)
    requires s.stack.Frame? && s.stack.pc.Chain? && !s.stack.pc.canceled
    ensures Reflects(s, FrameStep(s, choice), p, v)
  {
    assert StackIds(FrameStep(s, choice).stack) == StackIds(s.stack);
    QuietHeard(s, FrameStep(s, choice), p, v);
  }

  lemma SmallStepHeard(s: State, p: Pending, v: set<int>, choice: Choice)
    requires Clean(s) && Told(s, v) && Matches(p, s.issued, s.stack, v)
    requires s.stack.Frame? && (s.stack.pc.Attempt? || s.stack.pc.AfterKids? || s.stack.pc.RemoveSource?
                                || s.stack.pc.Waiting?)
    ensures Reflects(s, FrameStep(s, choice), p, v)
  {
    assert StackIds(FrameStep(s, choice).stack) == StackIds(s.stack);
    QuietHeard(s, FrameStep(s, choice), p, v);
  }

  lemma ResultHeard(s: State, p: Pending, v: set<int>, choice: Choice)
    requires Clean(s) && Told(s, v) && Matches(p, s.issued, s.stack, v)
    requires s.stack.Frame? && s.stack.pc.Result?
    ensures Reflects(s, FrameStep(s, choice), p, v)
  {
    assert StackIds(FrameStep(s, choice).stack) == StackIds(s.stack);
    QuietHeard(s, FrameStep(s, choice), p, v);
  }

  // ---------- finished() ----------

  // What a listener holds of the block of a request when finished() comes for it: all of it if the request
  // failed before anything below it started, and otherwise no child of it.
  ghost predicate Settled(pending: set<int>, past: Log, e: Event, i: Issued, inOrder: bool) {
    e.Finished? ==>
      && e.id in i.ends && e.id in i.requests
      && (e.error && LastStarted(past) == e.id ==> BlockIn(i, e.id, e.id, pending))
      && (e.error && LastStarted(past) != e.id ==> Handled(i, e.id, i.ends[e.id], pending))
      && (inOrder && !(e.error && LastStarted(past) == e.id) ==>
            forall x :: x in pending ==> !(e.id < x < i.ends[e.id]))
  }

  // Nothing lags if a later start was heard.
  lemma FinishKinds(s: State, v: set<int>)
    requires Clean(s) && Told(s, v) && s.stack.Frame? && s.stack.pc.Finish?
    ensures LastStarted(s.events) != s.stack.id ==> v == ToCome(s)
    ensures LastStarted(s.events) == s.stack.id && v == ToCome(s) && s.stack.pc.outcome != NoError ==>
              s.issued.ends[s.stack.id] == s.stack.id + 1
    ensures s.stack.pc.outcome != NoError ==> Handled(s.issued, s.stack.id, s.issued.ends[s.stack.id], ToCome(s))
  {
    var i, id := s.issued, s.stack.id;
    NotRegistered(s);
    LastWasStarted(s.events);
    assert Fate(s.events, i.ends, v, i.nextId, LastStarted(s.events));
    ChildrenInside(i, id);
    FirstChild(i, id);
    if LastStarted(s.events) == id && i.requests[id].childrenQueue != [] {
      assert id + 1 in i.requests[id].childrenQueue && id + 1 in v;
    }
  }

  lemma FinishSettled(s: State, p: Pending, v: set<int>, inOrder: bool)
    requires Clean(s) && Told(s, v) && Matches(p, s.issued, s.stack, v) && s.stack.Frame? && s.stack.pc.Finish?
    requires inOrder ==> InOrder(s)
    ensures Settled(p.requests.Keys, s.events, Finished(s.stack.id, s.stack.pc.outcome != NoError), s.issued, inOrder)
  {
    FinishKinds(s, v);
    NotRegistered(s);
    ChildrenInside(s.issued, s.stack.id);
  }

  // What removeChildren() finds below a request that failed.
  lemma ReachHeard(s: State, p: Pending, v: set<int>)
    requires Clean(s) && Told(s, v) && Matches(p, s.issued, s.stack, v) && s.stack.Frame? && s.stack.pc.Finish?
    requires s.stack.pc.outcome != NoError
    ensures Reach(p.requests, p.requests.Keys, s.stack.id) - {s.stack.id} ==
            if v == ToCome(s) then {} else set x | x in p.requests.Keys && s.stack.id < x < s.issued.ends[s.stack.id]
  {
    var i, id := s.issued, s.stack.id;
    FinishKinds(s, v);
    NotRegistered(s);
    ChildrenInside(i, id);
    forall x | x in p.requests ensures x in i.requests {
      assert Fate(s.events, i.ends, v, i.nextId, x);
      if OnStack(s.stack, x) { TowerOrder(i, s.stack, Unstarted(s), x); }
    }
    ReachAgrees(p.requests, i.requests, p.requests.Keys, id);
    if v == ToCome(s) {
      ReachAlone(i, p.requests.Keys, id);
    } else {
      assert BlockIn(i, id, id, p.requests.Keys);
      ReachWhole(i, p.requests.Keys, id);
    }
  }

  lemma FinishMatches(s: State, p: Pending, v: set<int>)
    requires Clean(s) && Told(s, v) && Matches(p, s.issued, s.stack, v) && s.stack.Frame? && s.stack.pc.Finish?
    ensures var e := Finished(s.stack.id, s.stack.pc.outcome != NoError);
            Expected(p, e) && Matches(OnSignal(p, e), s.issued, s.stack.(pc := Leave), ToCome(s))
  {
    var k, e := s.stack, Finished(s.stack.id, s.stack.pc.outcome != NoError);
    NotRegistered(s);
    TopNotBelow(s.issued, k, Unstarted(s));
    forall x | x in StackIds(k.below) ensures OnStack(k, x) && x < k.id { TowerOrder(s.issued, k, Unstarted(s), x); }
    if e.error { ReachHeard(s, p, v); }
    assert OnSignal(p, e).requests.Keys == StackIds(k.below) + ToCome(s);
  }

  lemma FinishTold(s: State, v: set<int>)
    requires Clean(s) && Told(s, v) && s.stack.Frame? && s.stack.pc.Finish?
    ensures History(Log(Finished(s.stack.id, s.stack.pc.outcome != NoError), s.events), s.issued.ends, ToCome(s),
                    s.issued.nextId)
  {
    var i, id, error := s.issued, s.stack.id, s.stack.pc.outcome != NoError;
    FinishKinds(s, v);
    NotRegistered(s);
    if error && CutShort(Finished(id, true), s.events) {
      HistoryCut(s.events, i.ends, v, i.nextId, id);
      assert v - Interior(id, i.ends[id]) == ToCome(s);
    } else {
      HistoryQuiet(s.events, Finished(id, error), i.ends, v, i.nextId);
    }
  }

  lemma FinishHeard(s: State, p: Pending, v: set<int>)
    requires Clean(s) && Told(s, v) && Matches(p, s.issued, s.stack, v)
    requires s.stack.Frame? && s.stack.pc.Finish?
    ensures Reflects(s, FrameStep(s, Proceed), p, ToCome(s))
    ensures FrameStep(s, Proceed).events == Log(Finished(s.stack.id, s.stack.pc.outcome != NoError), s.events)
  {
    var t := FrameStep(s, Proceed);
    FinishMatches(s, p, v);
    FinishTold(s, v);
    assert StackIds(t.stack) == StackIds(s.stack);
    assert ToCome(t) == ToCome(s);
  }

  lemma LeaveHeard(s: State, p: Pending, v: set<int>)
    requires Clean(s) && Told(s, v) && Matches(p, s.issued, s.stack, v)
    requires s.stack.Frame? && s.stack.pc.Leave?
    ensures Reflects(s, FrameStep(s, Proceed), p, v)
  {
    LeaveStep(s);
    if s.stack.below.Frame? {
      TopOpen(s.issued, s.stack, Unstarted(s));
      LoopEnds(s.issued, s.stack.below.id, s.stack.below.pc, s.issued.ends[s.stack.id], Unstarted(s));
    }
  }

  // The activation that was pushed has not told anything yet.
  lemma PushHeard(s: State, t: State, p: Pending, v: set<int>)
    requires Clean(s) && Told(s, v) && Matches(p, s.issued, s.stack, v) && v == ToCome(s)
    requires t.stack.Frame? && t.stack.pc.Start? && t.issued == s.issued && t.events == s.events
             && Registered(t) == Registered(s)
    requires t.stack.id in Unstarted(s) && Unstarted(t) == Unstarted(s) - {t.stack.id}
    requires OpenIds(t.stack.below) == OpenIds(s.stack) && StackIds(t.stack.below) == OpenSet(s.stack)
    ensures Reflects(s, t, p, v)
  {
  }

  lemma LoopHeard(s: State, p: Pending, v: set<int>)
    requires Clean(s) && Told(s, v) && Matches(p, s.issued, s.stack, v)
    requires s.stack.Frame? && (s.stack.pc.Kids? || s.stack.pc.RenameKids?)
    ensures Reflects(s, FrameStep(s, Proceed), p, v)
  {
    var t := FrameStep(s, Proceed);
    LoopStep(s);
    if s.stack.pc.todo == [] {
      assert StackIds(t.stack) == StackIds(s.stack);
      QuietHeard(s, t, p, v);
    } else {
      PushHeard(s, t, p, v);
    }
  }

  lemma RunHeard(s: State, p: Pending, v: set<int>)
    requires Clean(s) && Told(s, v) && Matches(p, s.issued, s.stack, v) && s.stack.Bottom?
    ensures Reflects(s, RunStep(s), p, v)
  {
    RunCleanStep(s);
    if RunStep(s).stack.Frame? { PushHeard(s, RunStep(s), p, v); }
  }

  // Any step inside handle() or renameChildren() keeps the worker's invariant ...
  lemma FrameClean(s: State, choice: Choice)
    requires Clean(s) && CleanChoice(s, choice) && s.stack.Frame?
    ensures Clean(FrameStep(s, choice))
  {
    match s.stack.pc
    case Start => StartStep(s);
    case Attempt => StartStep(s);
    case Chain(canceled, _) => if canceled { CutStep(s); } else { ChainCleanStep(s, choice); }
    case Kids(_) => LoopStep(s);
    case RenameKids(_) => LoopStep(s);
    case Result(_, _) => DialogueStep(s, choice);
    case Waiting(_) => DialogueStep(s, choice);
    case Leave => LeaveStep(s);
    case _ => EndStep(s, choice);
  }

  // ... and reaches the listener: the handler chain and the loops,
  lemma ReachingHeard(s: State, p: Pending, v: set<int>, choice: Choice)
    requires Clean(s) && Told(s, v) && Matches(p, s.issued, s.stack, v)
    requires s.stack.Frame? && (s.stack.pc.Chain? || s.stack.pc.Kids? || s.stack.pc.RenameKids?)
    ensures Reflects(s, FrameStep(s, choice), p, v)
  {
    if !s.stack.pc.Chain? {
      LoopHeard(s, p, v);
    } else if s.stack.pc.canceled {
      CutHeard(s, p, v);
    } else {
      ChainHeard(s, p, v, choice);
    }
  }

  // the attempts, their outcomes and the dialogue with the user,
  lemma AttemptHeard(s: State, p: Pending, v: set<int>, choice: Choice)
    requires Clean(s) && Told(s, v) && Matches(p, s.issued, s.stack, v) && s.stack.Frame?
    requires s.stack.pc.Attempt? || s.stack.pc.Result? || s.stack.pc.Waiting? || s.stack.pc.AfterKids?
             || s.stack.pc.RemoveSource?
    ensures Reflects(s, FrameStep(s, choice), p, v)
  {
    if s.stack.pc.Result? { ResultHeard(s, p, v, choice); } else { SmallStepHeard(s, p, v, choice); }
  }

  // and all of them.
  lemma FrameHeard(s: State, p: Pending, v: set<int>, choice: Choice) returns (w: set<int>)
    requires Clean(s) && Told(s, v) && Matches(p, s.issued, s.stack, v) && s.stack.Frame?
    ensures Reflects(s, FrameStep(s, choice), p, w)
  {
    w := v;
    match s.stack.pc
    case Start => w := v - {s.stack.id}; StartHeard(s, p, v);
    case Chain(_, _) => ReachingHeard(s, p, v, choice);
    case Kids(_) => ReachingHeard(s, p, v, choice);
    case RenameKids(_) => ReachingHeard(s, p, v, choice);
    case Finish(_) => w := ToCome(s); FinishHeard(s, p, v);
    case Leave => LeaveHeard(s, p, v);
    case _ => AttemptHeard(s, p, v, choice);
  }

  lemma WorkHeard(s: State, p: Pending, v: set<int>, choice: Choice) returns (w: set<int>)
    requires Clean(s) && Told(s, v) && Matches(p, s.issued, s.stack, v) && CleanChoice(s, choice)
    ensures Clean(WorkStep(s, choice)) && Reflects(s, WorkStep(s, choice), p, w)
  {
    if s.stack.Bottom? {
      w := v;
      RunCleanStep(s);
      RunHeard(s, p, v);
    } else {
      FrameClean(s, choice);
      w := FrameHeard(s, p, v, choice);
    }
  }

  // ---------- the whole system ----------

  ghost predicate AllSettled(p: Pending, past: Log, inbox: seq<Event>, i: Issued, inOrder: bool)
    decreases |inbox|
  {
    inbox == [] ||
    (Settled(p.requests.Keys, past, inbox[0], i, inOrder)
     && AllSettled(OnSignal(p, inbox[0]), Log(inbox[0], past), inbox[1..], i, inOrder))
  }

  ghost predicate GuiOk(s: System, inOrder: bool) {
    && AllExpected(s.gui, s.inbox) && StackPending(s.gui.stack, s.gui.requests)
    && FromForest(s.gui.requests, s.w.issued.requests, s.w.issued.ends)
    && AllSettled(s.gui, s.delivered, s.inbox, s.w.issued, inOrder)
    && LogOf(s.delivered, s.inbox) == s.w.events
  }

  ghost predicate Mirrored(s: System, v: set<int>, inOrder: bool) {
    && Clean(s.w) && (inOrder ==> InOrder(s.w)) && Told(s.w, v)
    && Matches(Play(s.gui, s.inbox), s.w.issued, s.w.stack, v)
    && GuiOk(s, inOrder)
  }

  lemma {:induction false} LogAppend(past: Log, inbox: seq<Event>, e: Event)
    ensures LogOf(past, inbox + [e]) == Log(e, LogOf(past, inbox))
    decreases |inbox|
  {
    if inbox == [] {
      assert ([] + [e])[1..] == [];
    } else {
      assert (inbox + [e])[1..] == inbox[1..] + [e];
      LogAppend(Log(inbox[0], past), inbox[1..], e);
    }
  }

  lemma {:induction false} SettledAppend(p: Pending, past: Log, inbox: seq<Event>, e: Event, i: Issued, inOrder: bool)
    requires AllSettled(p, past, inbox, i, inOrder)
    requires Settled(Play(p, inbox).requests.Keys, LogOf(past, inbox), e, i, inOrder)
    ensures AllSettled(p, past, inbox + [e], i, inOrder)
    decreases |inbox|
  {
    if inbox == [] {
      assert ([] + [e])[1..] == [];
    } else {
      assert (inbox + [e])[1..] == inbox[1..] + [e];
      SettledAppend(OnSignal(p, inbox[0]), Log(inbox[0], past), inbox[1..], e, i, inOrder);
    }
  }

  // Requests numbered behind a request say nothing of its block.
  lemma {:induction false} BatchKeepsSettled(p: Pending, past: Log, inbox: seq<Event>, batch: Requests, i: Issued,
                                             j: Issued, inOrder: bool)
    requires IssuedOk(i) && FromForest(p.requests, i.requests, i.ends) && AllExpected(p, inbox)
    requires StackPending(p.stack, p.requests) && AllSettled(p, past, inbox, i, inOrder)
    requires forall x :: x in i.requests ==> x < i.ends[x] <= i.nextId
    requires forall x :: x in batch ==> i.nextId <= x
    requires forall x :: x in i.requests ==>
               x in j.requests && j.requests[x] == i.requests[x] && x in j.ends && j.ends[x] == i.ends[x]
    ensures AllSettled(p.(requests := p.requests + batch), past, inbox, j, inOrder)
    decreases |inbox|
  {
    if inbox != [] {
      var e := inbox[0];
      FinishCommutes(p, e, batch, i.requests, i.ends, i.nextId);
      SignalKeepsStack(p, e, i.requests, i.ends);
      BatchKeepsSettled(OnSignal(p, e), Log(e, past), inbox[1..], batch, i, j, inOrder);
      if e.Finished? { ChildrenInside(i, e.id); }
    }
  }

  lemma {:induction false} LogGrows(events: Log)
    ensures !(events.Log? && events.past == events)
  {
    if events.Log? { LogGrows(events.past); }
  }

  // A signal joins those on their way.
  lemma SignalMirrored(s: System, t: State, v: set<int>, inOrder: bool)
    requires GuiOk(s, inOrder) && t.issued == s.w.issued && t.events.Log? && t.events.past == s.w.events
    requires Expected(Play(s.gui, s.inbox), t.events.last)
    requires Settled(Play(s.gui, s.inbox).requests.Keys, s.w.events, t.events.last, t.issued, inOrder)
    ensures GuiOk(s.(w := t, inbox := s.inbox + [t.events.last]), inOrder)
    ensures Play(s.gui, s.inbox + [t.events.last]) == OnSignal(Play(s.gui, s.inbox), t.events.last)
  {
    PlayAppend(s.gui, s.inbox, t.events.last);
    ExpectedAppend(s.gui, s.inbox, t.events.last);
    LogAppend(s.delivered, s.inbox, t.events.last);
    SettledAppend(s.gui, s.delivered, s.inbox, t.events.last, t.issued, inOrder);
  }

  lemma EventIs(s: State, choice: Choice)
    requires Clean(s) && WorkStep(s, choice).events != s.events && WorkStep(s, choice).events.Log?
    ensures var e := WorkStep(s, choice).events.last;
            e.Finished? ==>
              s.stack.Frame? && s.stack.pc.Finish? && e == Finished(s.stack.id, s.stack.pc.outcome != NoError)
  {
  }

  lemma WorkKeepsIssued(s: State, choice: Choice)
    ensures WorkStep(s, choice).issued == s.issued
  {
  }

  lemma WorkMirrored(s: System, v: set<int>, inOrder: bool, choice: Choice) returns (w: set<int>)
    requires Mirrored(s, v, inOrder) && CleanChoice(s.w, choice) && (inOrder ==> !LeavesChildren(s.w, choice))
    ensures Mirrored(SystemApply(s, Thread(Work(choice))), w, inOrder)
  {
    var p, t := Play(s.gui, s.inbox), WorkStep(s.w, choice);
    w := WorkHeard(s.w, p, v, choice);
    if inOrder { WorkInOrder(s.w, choice); }
    WorkKeepsIssued(s.w, choice);
    if t.events != s.w.events {
      EventIs(s.w, choice);
      if t.events.last.Finished? { FinishSettled(s.w, p, v, inOrder); }
      SignalMirrored(s, t, w, inOrder);
    } else {
      assert s.inbox + EmittedBy(s.w.events, t.events) == s.inbox by { LogGrows(t.events); }
    }
  }

  lemma DeliverMirrored(s: System, v: set<int>, inOrder: bool)
    requires Mirrored(s, v, inOrder)
    ensures Mirrored(SystemApply(s, Deliver), v, inOrder)
  {
    if s.inbox != [] { SignalKeepsStack(s.gui, s.inbox[0], s.w.issued.requests, s.w.issued.ends); }
  }

  lemma SubmitMirrored(s: System, v: set<int>, inOrder: bool, a: Action)
    requires Mirrored(s, v, inOrder) && a.Submit? && CleanAction(s.w, a) && s.w.schedule.gui.GuiIdle?
    requires GoodBatch(s.w, a.batch, a.blocks, a.hi)
    ensures Mirrored(s.(w := SubmitStep(s.w, a), gui := s.gui.(requests := s.gui.requests + a.batch)),
                     v + a.batch.Keys, inOrder)
  {
    var i, t := s.w.issued, SubmitStep(s.w, a);
    SubmitCleanStep(s.w, a);
    if inOrder { GuiInOrder(s.w, a); }
    BatchIssued(i, a.batch, a.blocks, a.hi);
    SubmitTold(s.w, t, v, a.batch.Keys);
    BatchJoins(s, t, v, a.batch, inOrder);
  }

  // The listener registers the batch at once, whatever is still on its way.
  lemma BatchJoins(s: System, t: State, v: set<int>, batch: Requests, inOrder: bool)
    requires GuiOk(s, inOrder) && Matches(Play(s.gui, s.inbox), s.w.issued, s.w.stack, v)
    requires IssuedOk(s.w.issued) && IssuedOk(t.issued) && t.issued.requests == s.w.issued.requests + batch
    requires t.stack == s.w.stack && t.events == s.w.events
    requires forall x :: x in batch ==> s.w.issued.nextId <= x
    requires forall x :: x in s.w.issued.requests ==>
               x !in batch && x in t.issued.ends && t.issued.ends[x] == s.w.issued.ends[x] <= s.w.issued.nextId
    ensures var g := s.gui.(requests := s.gui.requests + batch);
            && GuiOk(s.(w := t, gui := g), inOrder)
            && Matches(Play(g, s.inbox), t.issued, t.stack, v + batch.Keys)
  {
    var i := s.w.issued;
    forall x | x in i.requests ensures x < i.ends[x] <= i.nextId { ChildrenInside(i, x); }
    BatchCommutes(s.gui, s.inbox, batch, i.requests, i.ends, i.nextId);
    BatchKeepsSettled(s.gui, s.delivered, s.inbox, batch, i, t.issued, inOrder);
    SubmitGui(s.gui, i, t.issued, batch);
    BatchMatches(Play(s.gui, s.inbox), i, t.issued, s.w.stack, v, batch);
  }

  lemma BatchMatches(p: Pending, i: Issued, j: Issued, k: Stack, v: set<int>, batch: Requests)
    requires Matches(p, i, k, v) && j.requests == i.requests + batch && i.requests.Keys !! batch.Keys
    ensures Matches(p.(requests := p.requests + batch), j, k, v + batch.Keys)
  {
  }

  lemma SubmitTold(s: State, t: State, v: set<int>, ids: set<int>)
    requires Told(s, v) && IssuedOk(s.issued) && IssuedOk(t.issued) && s.issued.nextId <= t.issued.nextId
    requires forall x :: x in ids <==> s.issued.nextId <= x < t.issued.nextId
    requires t.stack == s.stack && t.events == s.events && ToCome(t) == ToCome(s) + ids
    requires forall id :: id in s.issued.requests ==>
               id in t.issued.requests && t.issued.ends[id] == s.issued.ends[id] <= s.issued.nextId
    ensures Told(t, v + ids)
  {
    forall y | StartedIn(s.events, y) ensures y in s.issued.ends {
      assert Fate(s.events, s.issued.ends, v, s.issued.nextId, y);
    }
    forall x ensures Fate(t.events, t.issued.ends, v + ids, t.issued.nextId, x) {
      assert Fate(s.events, s.issued.ends, v, s.issued.nextId, x);
      DroppedGrows(s.events, s.issued, t.issued, x);
    }
  }

  lemma SubmitGui(gui: Pending, i: Issued, j: Issued, batch: Requests)
    requires StackPending(gui.stack, gui.requests) && FromForest(gui.requests, i.requests, i.ends)
    requires IssuedOk(j) && j.requests == i.requests + batch && i.requests.Keys !! batch.Keys
    ensures StackPending(gui.stack, gui.requests + batch) && FromForest(gui.requests + batch, j.requests, j.ends)
  {
    StackBound(gui.stack, gui.requests, if gui.stack.Cons? then gui.stack.head + 1 else 0);
  }

  lemma QuietThread(s: System, a: Action)
    requires Apply(s.w, a).events == s.w.events && (a.Submit? ==> Apply(s.w, a).issued == s.w.issued)
    ensures SystemApply(s, Thread(a)) == s.(w := Apply(s.w, a))
  {
    LogGrows(s.w.events);
    assert s.inbox + [] == s.inbox;
  }

  lemma AcceptedThread(s: System, a: Action)
    requires a.Submit? && s.w.schedule.gui.GuiIdle? && GoodBatch(s.w, a.batch, a.blocks, a.hi)
    requires !s.w.undefined && !s.w.control.stopRequest
    ensures SystemApply(s, Thread(a))
            == s.(w := SubmitStep(s.w, a), gui := s.gui.(requests := s.gui.requests + a.batch))
  {
    LogGrows(s.w.events);
    assert s.inbox + [] == s.inbox;
  }

  lemma BatchMirrored(s: System, v: set<int>, inOrder: bool, a: Action) returns (w: set<int>)
    requires Mirrored(s, v, inOrder) && CleanAction(s.w, a) && a.Submit?
    ensures Mirrored(SystemApply(s, Thread(a)), w, inOrder)
  {
    w := v;
    if s.w.schedule.gui.GuiIdle? && GoodBatch(s.w, a.batch, a.blocks, a.hi) {
      w := v + a.batch.Keys;
      SubmitMirrored(s, v, inOrder, a);
      AcceptedThread(s, a);
    } else {
      QuietThread(s, a);
    }
  }

  // The other steps of the GUI thread emit nothing, and leave the stack and what is to come alone.
  lemma GuiStepKeeps(s: State, a: Action, inOrder: bool)
    requires Clean(s) && CleanAction(s, a) && !a.Work? && !a.Submit? && (inOrder ==> InOrder(s))
    ensures var t := Apply(s, a);
            && t.issued == s.issued && t.stack == s.stack && t.events == s.events && ToCome(t) == ToCome(s)
            && Clean(t) && (inOrder ==> InOrder(t))
  {
    if a.Enqueue? {
      if s.schedule.gui.MustEnqueue? { EnqueueCleanStep(s); }
    } else if !a.ScheduleRestart? && !a.Restart? && s.schedule.gui.GuiIdle? {
      SlotCleanStep(s, a);
    }
    if inOrder { GuiInOrder(s, a); }
  }

  lemma GuiStepMirrored(s: System, v: set<int>, inOrder: bool, a: Action)
    requires Mirrored(s, v, inOrder) && CleanAction(s.w, a) && !a.Work? && !a.Submit?
    ensures Mirrored(SystemApply(s, Thread(a)), v, inOrder)
  {
    GuiStepKeeps(s.w, a, inOrder);
    QuietThread(s, a);
  }

  lemma {:induction false} RunMirrored(acts: seq<SystemAction>, inOrder: bool) returns (v: set<int>)
    requires CleanRun(acts) && (inOrder ==> LinkFreeRun(acts))
    ensures Mirrored(SystemRun(acts), v, inOrder)
  {
    if acts == [] {
      v := {};
    } else {
      var s, x := SystemRun(acts[..|acts| - 1]), acts[|acts| - 1];
      v := RunMirrored(acts[..|acts| - 1], inOrder);
      if x.Deliver? {
        DeliverMirrored(s, v, inOrder);
      } else if x.a.Work? {
        v := WorkMirrored(s, v, inOrder, x.a.choice);
      } else if x.a.Submit? {
        v := BatchMirrored(s, v, inOrder, x.a);
      } else {
        GuiStepMirrored(s, v, inOrder, x.a);
      }
    }
  }

  // ---------- what holds in every clean run ----------

  // Whenever the worker is between two top-level requests, a listener who has heard every signal holds exactly
  // what is queued (and what is about to be), and its stack of open requests is empty.
  lemma {:induction false} MirrorHolds(acts: seq<SystemAction>)
    requires CleanRun(acts) && SystemRun(acts).w.stack.Bottom?
    ensures var s := SystemRun(acts); var p := Play(s.gui, s.inbox);
            && p.requests.Keys == s.w.queue.Keys + Registered(s.w)
            && (forall x :: x in p.requests ==> x in s.w.issued.requests && p.requests[x] == s.w.issued.requests[x])
            && p.stack == Nil
  {
    var v := RunMirrored(acts, false);
    QueueIssued(SystemRun(acts).w);
  }

  // A delivered signal announces the end of a batch exactly when it empties the pending set, and then no
  // request is open.
  lemma {:induction false} DoneOncePerBatch(acts: seq<SystemAction>)
    requires CleanRun(acts) && SystemRun(acts).inbox != []
    ensures var s, t := SystemRun(acts), SystemRun(acts + [Deliver]);
            && (EmitsDone(s.gui, s.inbox[0]) <==> s.gui.requests.Keys != {} && t.gui.requests.Keys == {})
            && (EmitsDone(s.gui, s.inbox[0]) ==> t.gui.stack == Nil)
  {
    var v := RunMirrored(acts, false);
    var s := SystemRun(acts);
    assert (acts + [Deliver])[..|acts|] == acts;
    SignalKeepsStack(s.gui, s.inbox[0], s.w.issued.requests, s.w.issued.ends);
  }

  // What finished() takes out of the pending set: a request that failed before anything below it had started
  // goes with its whole block, every other one goes alone.
  function Taken(id: int, error: bool, past: Log, ends: Ends): set<int>
    requires id in ends
  {
    {id} + if error && LastStarted(past) == id then Interior(id, ends[id]) else {}
  }

  lemma {:induction false} FinishedTakes(acts: seq<SystemAction>)
    requires CleanRun(acts) && SystemRun(acts).inbox != [] && SystemRun(acts).inbox[0].Finished?
    ensures var s, t := SystemRun(acts), SystemRun(acts + [Deliver]);
            var id, error := s.inbox[0].id, s.inbox[0].error;
            && id in s.gui.requests && id in s.w.issued.ends
            && Taken(id, error, s.delivered, s.w.issued.ends) <= s.gui.requests.Keys
            && t.gui.requests.Keys == s.gui.requests.Keys - Taken(id, error, s.delivered, s.w.issued.ends)
  {
    var v := RunMirrored(acts, false);
    var s := SystemRun(acts);
    assert (acts + [Deliver])[..|acts|] == acts;
    TakesFrom(s.gui, s.inbox[0], s.delivered, s.w.issued);
  }

  // It takes the whole block if and only if the request failed early, or nothing below it is pending.
  lemma {:induction false} FinishedTakesTheBlockExactly(acts: seq<SystemAction>)
    requires CleanRun(acts) && SystemRun(acts).inbox != [] && SystemRun(acts).inbox[0].Finished?
    ensures var s, t := SystemRun(acts), SystemRun(acts + [Deliver]);
            var id, error := s.inbox[0].id, s.inbox[0].error;
            && id in s.w.issued.ends
            && (t.gui.requests.Keys == (set x | x in s.gui.requests && !(id <= x < s.w.issued.ends[id])) <==>
                (error && LastStarted(s.delivered) == id)
                || forall x :: x in s.gui.requests ==> !(id < x < s.w.issued.ends[id]))
  {
    var v := RunMirrored(acts, false);
    var s := SystemRun(acts);
    FinishedTakes(acts);
    ChildrenInside(s.w.issued, s.inbox[0].id);
    TakenIsTheBlock(s.gui.requests.Keys, s.inbox[0].id, s.inbox[0].error, s.delivered, s.w.issued.ends);
  }

  lemma TakenIsTheBlock(pending: set<int>, id: int, error: bool, past: Log, ends: Ends)
    requires id in ends && id < ends[id] && Taken(id, error, past, ends) <= pending
    ensures pending - Taken(id, error, past, ends) == (set x | x in pending && !(id <= x < ends[id])) <==>
            (error && LastStarted(past) == id) || forall x :: x in pending ==> !(id < x < ends[id])
  {
    var taken, rest := Taken(id, error, past, ends), set x | x in pending && !(id <= x < ends[id]);
    if (error && LastStarted(past) == id) || forall x :: x in pending ==> !(id < x < ends[id]) {
      assert forall x :: x in pending ==> (x in taken <==> id <= x < ends[id]);
    } else {
      var x :| x in pending && id < x < ends[id];
      assert x in pending - taken && x !in rest;
    }
  }

  lemma TakesFrom(gui: Pending, e: Event, past: Log, i: Issued)
    requires IssuedOk(i) && FromForest(gui.requests, i.requests, i.ends) && StackPending(gui.stack, gui.requests)
    requires e.Finished? && Expected(gui, e) && Settled(gui.requests.Keys, past, e, i, false)
    ensures Taken(e.id, e.error, past, i.ends) <= gui.requests.Keys
    ensures OnSignal(gui, e).requests.Keys == gui.requests.Keys - Taken(e.id, e.error, past, i.ends)
  {
    ReachAgrees(gui.requests, i.requests, gui.requests.Keys, e.id);
    ChildrenInside(i, e.id);
    if e.error {
      if LastStarted(past) == e.id {
        ReachWhole(i, gui.requests.Keys, e.id);
      } else {
        ReachAlone(i, gui.requests.Keys, e.id);
      }
    }
  }

  // A clean run never looks up a request that is not there.
  lemma {:induction false} NothingUndefined(acts: seq<SystemAction>)
    requires CleanRun(acts)
    ensures !SystemRun(acts).w.undefined
  {
    var v := RunMirrored(acts, false);
  }

  lemma {:induction false} EachStartsOnce(acts: seq<SystemAction>)
    requires CleanRun(acts)
    ensures StartsOnce(SystemRun(acts).w.events)
    ensures forall x :: StartedIn(SystemRun(acts).w.events, x) ==> 0 <= x < SystemRun(acts).w.issued.nextId
  {
    var v := RunMirrored(acts, false);
    var w := SystemRun(acts).w;
    forall x | StartedIn(w.events, x) ensures 0 <= x < w.issued.nextId {
      assert Fate(w.events, w.issued.ends, v, w.issued.nextId, x);
    }
  }

  predicate InIds(ids: Ids, x: int) {
    ids.Cons? && (ids.head == x || InIds(ids.tail, x))
  }

  lemma {:induction false} OpenIsStarted(events: Log, x: int)
    requires Nest(events).Open? && InIds(Nest(events).ids, x)
    ensures StartedIn(events, x)
  {
    if !(events.last.Started? && events.last.id == x) { OpenIsStarted(events.past, x); }
  }

  lemma {:induction false} OpenSetIds(k: Stack, currentId: int, x: int)
    requires CallStack(k, currentId) && x in OpenSet(k)
    ensures InIds(OpenIds(k), x)
  {
    if k.pc.Start? || k.pc.Leave? {
      OpenSetIds(k.below, k.previous, x);
    } else if x != k.id {
      OpenSetIds(k.below, k.previous, x);
    }
  }

  // The worker of the whole system runs as in CopyThread.
  function Projected(acts: seq<SystemAction>): seq<Action> {
    if acts == [] then []
    else
      var x := acts[|acts| - 1];
      Projected(acts[..|acts| - 1]) + if x.Thread? then [x.a] else []
  }

  lemma {:induction false} WorkerRuns(acts: seq<SystemAction>)
    ensures SystemRun(acts).w == CopyThread.Run(Projected(acts))
  {
    if acts != [] {
      WorkerRuns(acts[..|acts| - 1]);
      var x, before := acts[|acts| - 1], Projected(acts[..|acts| - 1]);
      if x.Thread? {
        assert (before + [x.a])[..|before|] == before;
      } else {
        assert before + [] == before;
      }
    }
  }

  // The ids that never start are exactly those dropped with a directory canceled or skipped before its
  // children were reached; all other ids have started or are still pending.
  lemma {:induction false} NeverStartedIsDropped(acts: seq<SystemAction>, x: int)
    requires CleanRun(acts) && 0 <= x < SystemRun(acts).w.issued.nextId
    ensures var s := SystemRun(acts);
            Dropped(s.w.events, s.w.issued.ends, x) <==>
            !StartedIn(s.w.events, x) && x !in Play(s.gui, s.inbox).requests
  {
    var v := RunMirrored(acts, false);
    var s := SystemRun(acts);
    assert Fate(s.w.events, s.w.issued.ends, v, s.w.issued.nextId, x);
    if x in OpenSet(s.w.stack) {
      WorkerRuns(acts);
      RunBracketed(Projected(acts));
      OpenSetIds(s.w.stack, s.w.currentId, x);
      OpenIsStarted(s.w.events, x);
    }
  }

  // ---------- what holds if no directory turns into a link ----------

  // finished() takes the request and its whole block out of the pending set, and nothing else.
  lemma {:induction false} FinishedTakesTheBlock(acts: seq<SystemAction>)
    requires CleanRun(acts) && LinkFreeRun(acts) && SystemRun(acts).inbox != [] && SystemRun(acts).inbox[0].Finished?
    ensures var s, t := SystemRun(acts), SystemRun(acts + [Deliver]);
            var id := s.inbox[0].id;
            && id in s.gui.requests && id in s.w.issued.ends
            && t.gui.requests.Keys == set x | x in s.gui.requests && !(id <= x < s.w.issued.ends[id])
  {
    var v := RunMirrored(acts, true);
    var s, e := SystemRun(acts), SystemRun(acts).inbox[0];
    FinishedTakes(acts);
    FinishedTakesTheBlockExactly(acts);
    assert Settled(s.gui.requests.Keys, s.delivered, e, s.w.issued, true);
  }

  // The walks of the worker reach every pending number of the block if and only if nothing in it has left with
  // something below it still queued; they never reach anything else.
  lemma {:induction false} WalksTakeTheBlockExactly(acts: seq<SystemAction>, id: int)
    requires CleanRun(acts) && id in SystemRun(acts).w.queue
    ensures var w := SystemRun(acts).w; var i, pending := w.issued, w.queue.Keys;
            && id in i.ends && i.requests.Keys == i.ends.Keys
            && Reach(i.requests, pending, id) <= (set x | x in pending && id <= x < i.ends[id])
            && (Reach(i.requests, pending, id) == (set x | x in pending && id <= x < i.ends[id])
                <==> NoGap(i.requests, i.ends, pending, id))
  {
    var v := RunMirrored(acts, false);
    var w := SystemRun(acts).w;
    QueueIssued(w);
    ReachInside(w.issued.requests, w.issued.ends, w.queue.Keys, id);
    ReachIsTheBlockExactly(w.issued.requests, w.issued.ends, w.queue.Keys, id);
  }

  // So they do if no directory has become a link.
  lemma {:induction false} WalksTakeTheBlock(acts: seq<SystemAction>, id: int)
    requires CleanRun(acts) && LinkFreeRun(acts) && id in SystemRun(acts).w.queue
    ensures var w := SystemRun(acts).w;
            && id in w.issued.ends
            && Reach(w.issued.requests, w.queue.Keys, id) == set x | x in w.queue.Keys && id <= x < w.issued.ends[id]
  {
    var v := RunMirrored(acts, true);
    PendingDescendants(SystemRun(acts).w, id);
  }
}
