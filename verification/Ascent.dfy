/** The order in which requests start, over whole clean runs.

    A directory that has become a link leaves its children behind, for run() to take later.  That breaks the order
    exactly if something of the same top-level request comes after the directory.
 */
module Ascent {
  import opened Forest
  import opened CopyThread
  import opened CleanRuns
  import opened StartOrder
  import opened FileCopier
  import opened Mirror
  import opened Numbering

  // Every directory that leaves children behind is the last of its top-level request.
  ghost predicate LinksLast(acts: seq<SystemAction>) {
    acts == [] ||
    (LinksLast(acts[..|acts| - 1]) &&
     (acts[|acts| - 1].Thread? && acts[|acts| - 1].a.Work? ==>
        LineChoice(SystemRun(acts[..|acts| - 1]).w, acts[|acts| - 1].a.choice, true)))
  }

  lemma {:induction false} SystemInLine(acts: seq<SystemAction>)
    requires CleanRun(acts) && LinksLast(acts)
    ensures InLine(SystemRun(acts).w, true)
  {
    if acts != [] {
      var s, x := SystemRun(acts[..|acts| - 1]).w, acts[|acts| - 1];
      var v := RunMirrored(acts[..|acts| - 1], false);
      SystemInLine(acts[..|acts| - 1]);
      if x.Thread? {
        if x.a.Work? { WorkInLine(s, x.a.choice, true); } else { GuiInLine(s, x.a, true); }
      }
    }
  }

  // Every started id is below `m`, and larger than all started before it.
  predicate Ascending(events: Log, m: int) {
    match events
    case Silent => true
    case Log(e, past) => (e.Started? ==> e.id < m) && Ascending(past, if e.Started? then e.id else m)
  }

  // What was neither started nor dropped is larger than everything started.
  ghost predicate Rising(events: Log, ends: Ends) {
    forall m :: 0 <= m && !StartedIn(events, m) && !Dropped(events, ends, m) ==> Ascending(events, m)
  }

  lemma StartRises(s: State, v: set<int>, id: int)
    requires Clean(s) && InLine(s, true) && Told(s, v) && Rising(s.events, s.issued.ends)
    requires s.stack.Frame? && s.stack.pc.Start? && s.stack.id == id
    ensures Rising(Log(Started(id), s.events), s.issued.ends)
  {
    var log, ends, n := Log(Started(id), s.events), s.issued.ends, s.issued.nextId;
    NotRegistered(s);
    assert Fate(s.events, ends, v, n, id);
    forall m | 0 <= m && !StartedIn(log, m) && !Dropped(log, ends, m) ensures Ascending(log, m) {
      assert Fate(s.events, ends, v, n, m);
      assert m in v ==> m in ToCome(s);
    }
  }

  lemma OtherRises(events: Log, e: Event, ends: Ends)
    requires Rising(events, ends) && !e.Started?
    ensures Rising(Log(e, events), ends)
  {
    forall m | 0 <= m && !StartedIn(Log(e, events), m) && !Dropped(Log(e, events), ends, m)
      ensures Ascending(Log(e, events), m)
    {
      assert !StartedIn(events, m) && !Dropped(events, ends, m);
    }
  }

  lemma StartedIs(s: State, choice: Choice)
    requires Clean(s) && WorkStep(s, choice).events != s.events && WorkStep(s, choice).events.Log?
    ensures var e := WorkStep(s, choice).events.last;
            e.Started? ==> s.stack.Frame? && s.stack.pc.Start? && e.id == s.stack.id
  {
  }

  lemma BatchRises(s: State, t: State, v: set<int>)
    requires Told(s, v) && IssuedOk(s.issued) && IssuedOk(t.issued) && t.events == s.events
             && Rising(s.events, s.issued.ends)
    requires forall id :: id in s.issued.requests ==> id in t.issued.requests && t.issued.ends[id] == s.issued.ends[id]
    ensures Rising(t.events, t.issued.ends)
  {
    forall y | StartedIn(s.events, y) ensures y in s.issued.ends {
      assert Fate(s.events, s.issued.ends, v, s.issued.nextId, y);
    }
    forall x ensures Dropped(s.events, s.issued.ends, x) == Dropped(t.events, t.issued.ends, x) {
      DroppedGrows(s.events, s.issued, t.issued, x);
    }
  }

  lemma {:induction false} RunRises(acts: seq<SystemAction>)
    requires CleanRun(acts) && LinksLast(acts)
    ensures Rising(SystemRun(acts).w.events, SystemRun(acts).w.issued.ends)
  {
    if acts != [] {
      var s, x := SystemRun(acts[..|acts| - 1]).w, acts[|acts| - 1];
      var v := RunMirrored(acts[..|acts| - 1], false);
      SystemInLine(acts[..|acts| - 1]);
      RunRises(acts[..|acts| - 1]);
      if x.Thread? {
        if x.a.Work? {
          var t := WorkStep(s, x.a.choice);
          var w := WorkHeard(s, Play(SystemRun(acts[..|acts| - 1]).gui, SystemRun(acts[..|acts| - 1]).inbox), v,
                             x.a.choice);
          WorkKeepsIssued(s, x.a.choice);
          if t.events != s.events {
            StartedIs(s, x.a.choice);
            if t.events.last.Started? {
              StartRises(s, v, s.stack.id);
            } else {
              OtherRises(s.events, t.events.last, s.issued.ends);
            }
          }
        } else if x.a.Submit? {
          SubmitRises(s, v, x.a);
        } else {
          GuiStepKeeps(s, x.a, false);
        }
      }
    }
  }

  lemma SubmitRises(s: State, v: set<int>, a: Action)
    requires Clean(s) && Told(s, v) && CleanAction(s, a) && a.Submit? && Rising(s.events, s.issued.ends)
    ensures Rising(Apply(s, a).events, Apply(s, a).issued.ends)
  {
    if s.schedule.gui.GuiIdle? && GoodBatch(s, a.batch, a.blocks, a.hi) {
      BatchIssued(s.issued, a.batch, a.blocks, a.hi);
      BatchRises(s, SubmitStep(s, a), v);
    }
  }

  // The ids start in increasing order over the whole run if only directories that end their top-level request leave
  // children behind.
  lemma {:induction false} LinksLastAscend(acts: seq<SystemAction>)
    requires CleanRun(acts) && LinksLast(acts)
    ensures Ascending(SystemRun(acts).w.events, SystemRun(acts).w.issued.nextId)
  {
    var v := RunMirrored(acts, false);
    var w := SystemRun(acts).w;
    RunRises(acts);
    assert Fate(w.events, w.issued.ends, v, w.issued.nextId, w.issued.nextId);
  }

  // ---------- what a directory that is not the last leaves behind ----------

  // `x` started after `c`.
  predicate Overtook(events: Log, x: int, c: int) {
    events.Log? && ((events.last == Started(x) && StartedIn(events.past, c)) || Overtook(events.past, x, c))
  }

  lemma {:induction false} AscendingBound(events: Log, m: int, x: int)
    requires Ascending(events, m) && StartedIn(events, x)
    ensures x < m
  {
    if !(events.last.Started? && events.last.id == x) {
      AscendingBound(events.past, if events.last.Started? then events.last.id else m, x);
    }
  }

  lemma {:induction false} OvertookDescends(events: Log, m: int, x: int, c: int)
    requires Overtook(events, x, c) && x < c
    ensures !Ascending(events, m)
  {
    if Ascending(events, m) {
      if events.last == Started(x) && StartedIn(events.past, c) {
        AscendingBound(events.past, x, c);
      } else {
        OvertookDescends(events.past, if events.last.Started? then events.last.id else m, x, c);
      }
    }
  }

  // An activation on the stack will get to its child `c`.
  predicate Awaited(k: Stack, c: int) {
    k.Frame? && (((k.pc.Kids? || k.pc.RenameKids?) && c in k.pc.todo) || Awaited(k.below, c))
  }

  // `c` starts before run() takes another request, or has started.
  predicate Sooner(s: State, c: int) {
    Awaited(s.stack, c) || (s.stack.Frame? && s.stack.id == c && s.stack.pc.Start?) || StartedIn(s.events, c)
  }

  // `d` has ended, or is about to, with its first child waiting.
  predicate Orphaned(s: State, d: int) {
    && d in s.issued.requests && d + 1 in s.issued.requests[d].childrenQueue && d + 1 in Unstarted(s)
    && (d !in s.queue
        || (s.stack.Frame? && s.stack.id == d
            && (s.stack.pc == Result(true, NoError) || s.stack.pc == Finish(NoError) || s.stack.pc.Leave?)))
  }

  // The first child of `d` comes after `c`, or has come.
  predicate Overtaken(s: State, d: int, c: int) {
    d + 1 < c &&
    (Overtook(s.events, d + 1, c)
     || (Orphaned(s, d) && Sooner(s, c))
     || (s.stack.Frame? && s.stack.id == d + 1 && s.stack.pc.Start? && StartedIn(s.events, c)))
  }

  // What follows the block of a request inside its top-level request is awaited by an activation below.
  lemma {:induction false} NextIsAwaited(i: Issued, k: Stack, u: set<int>)
    requires Tower(i, k, u) && k.Frame? && BottomId(k) in i.ends && i.ends[k.id] != i.ends[BottomId(k)]
    ensures Awaited(k.below, i.ends[k.id])
  {
    LoopEnds(i, k.below.id, k.below.pc, i.ends[k.id], u);
    if k.below.pc.todo == [] { NextIsAwaited(i, k.below, u); }
  }

  lemma LinkOrphans(s: State)
    requires Clean(s) && LeavesChildren(s, Linked) && !IsLast(s)
    ensures Overtaken(FrameStep(s, Linked), s.stack.id, s.issued.ends[s.stack.id])
  {
    var i, id := s.issued, s.stack.id;
    FirstChild(i, id);
    ChildrenInside(i, id);
    TopInside(i, s.stack, Unstarted(s));
    NextIsAwaited(i, s.stack, Unstarted(s));
    assert i.requests[id].childrenQueue[0] in i.requests[id].childrenQueue;
    assert StackIds(FrameStep(s, Linked).stack) == StackIds(s.stack);
  }

  lemma SamePlaceOvertaken(s: State, t: State, d: int, c: int)
    requires Clean(s) && Orphaned(s, d) && Sooner(s, c) && SamePlace(s, t) && OneMore(s.events, t.events)
    requires s.stack.pc.Start? ==> StartedIn(t.events, s.stack.id)
    requires s.stack.pc.Kids? || s.stack.pc.RenameKids? ==> s.stack.pc.todo == []
    requires s.stack.pc == Result(true, NoError) ==> t.stack.pc == Finish(NoError)
    requires s.stack.pc == Finish(NoError) ==> t.stack.pc.Leave?
    requires !s.stack.pc.Leave?
    ensures Orphaned(t, d) && Sooner(t, c)
  {
    assert StackIds(t.stack) == StackIds(s.stack);
  }

  lemma CutOvertaken(s: State, d: int, c: int)
    requires Clean(s) && Orphaned(s, d) && Sooner(s, c) && s.stack.Frame? && s.stack.pc.Chain? && s.stack.pc.canceled
    ensures var t := FrameStep(s, Proceed); Orphaned(t, d) && Sooner(t, c)
  {
    CutQueue(s);
    CutStep(s);
  }

  lemma LoopOvertaken(s: State, d: int, c: int)
    requires Clean(s) && Orphaned(s, d) && Sooner(s, c)
    requires s.stack.Frame? && (s.stack.pc.Kids? || s.stack.pc.RenameKids?) && s.stack.pc.todo != []
    ensures var t := FrameStep(s, Proceed); Orphaned(t, d) && Sooner(t, c)
  {
    var i, id, y := s.issued, s.stack.id, s.stack.pc.todo[0];
    LoopStep(s);
    assert y in s.stack.pc.todo && y in i.requests[id].childrenQueue;
    if y == d + 1 { ParentUnique(i.requests, i.ends, id, d, y); }
  }

  lemma LeaveOvertaken(s: State, d: int, c: int)
    requires Clean(s) && Orphaned(s, d) && Sooner(s, c) && s.stack.Frame? && s.stack.pc.Leave?
    ensures var t := FrameStep(s, Proceed); Orphaned(t, d) && Sooner(t, c)
  {
    LeaveStep(s);
  }

  lemma ChainOvertaken(s: State, choice: Choice, d: int, c: int)
    requires Clean(s) && Orphaned(s, d) && Sooner(s, c) && s.stack.Frame? && s.stack.pc.Chain? && !s.stack.pc.canceled
    ensures var t := FrameStep(s, choice); Orphaned(t, d) && Sooner(t, c)
  {
    SamePlaceOvertaken(s, FrameStep(s, choice), d, c);
  }

  lemma DialogueOvertaken(s: State, choice: Choice, d: int, c: int)
    requires Clean(s) && Orphaned(s, d) && Sooner(s, c) && s.stack.Frame? && (s.stack.pc.Result? || s.stack.pc.Waiting?)
    ensures var t := FrameStep(s, choice); Orphaned(t, d) && Sooner(t, c)
  {
    SamePlaceOvertaken(s, FrameStep(s, choice), d, c);
  }

  lemma SmallStepOvertaken(s: State, choice: Choice, d: int, c: int)
    requires Clean(s) && Orphaned(s, d) && Sooner(s, c) && s.stack.Frame?
    requires s.stack.pc.Start? || s.stack.pc.Attempt? || s.stack.pc.AfterKids? || s.stack.pc.RemoveSource?
             || s.stack.pc.Finish? || s.stack.pc == Kids([]) || s.stack.pc == RenameKids([])
    ensures var t := FrameStep(s, choice); Orphaned(t, d) && Sooner(t, c)
  {
    SamePlaceOvertaken(s, FrameStep(s, choice), d, c);
  }

  lemma FrameOvertaken(s: State, choice: Choice, d: int, c: int)
    requires Clean(s) && s.stack.Frame? && Orphaned(s, d) && Sooner(s, c)
    ensures var t := FrameStep(s, choice); Orphaned(t, d) && Sooner(t, c)
  {
    match s.stack.pc
    case Chain(canceled, _) =>
      if canceled { CutOvertaken(s, d, c); } else { ChainOvertaken(s, choice, d, c); }
    case Kids(todo) => if todo == [] { SmallStepOvertaken(s, choice, d, c); } else { LoopOvertaken(s, d, c); }
    case RenameKids(todo) => if todo == [] { SmallStepOvertaken(s, choice, d, c); } else { LoopOvertaken(s, d, c); }
    case Result(_, _) => DialogueOvertaken(s, choice, d, c);
    case Waiting(_) => DialogueOvertaken(s, choice, d, c);
    case Leave => LeaveOvertaken(s, d, c);
    case _ => SmallStepOvertaken(s, choice, d, c);
  }

  lemma WorkOvertaken(s: State, choice: Choice, d: int, c: int)
    requires Clean(s) && CleanChoice(s, choice) && Overtaken(s, d, c)
    ensures Overtaken(WorkStep(s, choice), d, c)
  {
    if s.stack.Bottom? {
      RunCleanStep(s);
    } else if Orphaned(s, d) && Sooner(s, c) {
      FrameOvertaken(s, choice, d, c);
    }
  }

  // A step that leaves the worker in its place, and gives it only requests with larger numbers.
  lemma GrownOvertaken(s: State, t: State, d: int, c: int)
    requires Overtaken(s, d, c) && t.stack == s.stack && t.events == s.events && s.queue.Keys <= t.queue.Keys
    requires forall x :: x in s.issued.requests ==>
               x in t.issued.requests && t.issued.requests[x] == s.issued.requests[x]
    requires d + 1 in s.queue && d in t.queue ==> d in s.queue
    ensures Overtaken(t, d, c)
  {
  }

  lemma GuiOvertaken(s: State, a: Action, d: int, c: int)
    requires Clean(s) && CleanAction(s, a) && !a.Work? && Overtaken(s, d, c)
    ensures Overtaken(Apply(s, a), d, c)
  {
    var t := Apply(s, a);
    if a.Submit? {
      if s.schedule.gui.GuiIdle? && GoodBatch(s, a.batch, a.blocks, a.hi) {
        BatchIssued(s.issued, a.batch, a.blocks, a.hi);
      }
      assert t.queue == s.queue;
    } else {
      QueueIssued(s);
      if a.Enqueue? && s.schedule.gui.MustEnqueue? && d + 1 in s.queue { ChildrenInside(s.issued, d + 1); }
      GuiStepKeeps(s, a, false);
    }
    GrownOvertaken(s, t, d, c);
  }

  lemma {:induction false} NotLastOvertakes(acts: seq<SystemAction>) returns (d: int, c: int)
    requires CleanRun(acts) && !LinksLast(acts)
    ensures Overtaken(SystemRun(acts).w, d, c)
  {
    var s, x, before := SystemRun(acts[..|acts| - 1]).w, acts[|acts| - 1], acts[..|acts| - 1];
    var v := RunMirrored(before, false);
    if LinksLast(before) {
      d, c := s.stack.id, s.issued.ends[s.stack.id];
      LinkOrphans(s);
    } else {
      d, c := NotLastOvertakes(before);
      if x.Thread? {
        if x.a.Work? { WorkOvertaken(s, x.a.choice, d, c); } else { GuiOvertaken(s, x.a, d, c); }
      }
    }
  }

  // Once everything queued has been dealt with, the ids have started in increasing order if and only if each directory
  // that left children behind was the last of its top-level request.
  lemma {:induction false} AscendsExactly(acts: seq<SystemAction>)
    requires CleanRun(acts) && SystemRun(acts).w.queue == map[]
    ensures Ascending(SystemRun(acts).w.events, SystemRun(acts).w.issued.nextId) <==> LinksLast(acts)
  {
    if LinksLast(acts) {
      LinksLastAscend(acts);
    } else {
      var d, c := NotLastOvertakes(acts);
      var v := RunMirrored(acts, false);
      OvertookDescends(SystemRun(acts).w.events, SystemRun(acts).w.issued.nextId, d + 1, c);
    }
  }

  // In particular they do if no directory becomes a link.
  lemma {:induction false} StartsAscend(acts: seq<SystemAction>)
    requires CleanRun(acts) && LinkFreeRun(acts)
    ensures LinksLast(acts) && Ascending(SystemRun(acts).w.events, SystemRun(acts).w.issued.nextId)
  {
    LinkFreeIsLast(acts);
    LinksLastAscend(acts);
  }

  lemma {:induction false} LinkFreeIsLast(acts: seq<SystemAction>)
    requires LinkFreeRun(acts)
    ensures LinksLast(acts)
  {
    if acts != [] { LinkFreeIsLast(acts[..|acts| - 1]); }
  }
}
