/** The order in which the worker takes the requests.

    Everything that waits lies ahead of the worker, except what a directory that has become a link leaves behind:
    MakeLinksNode and FollowLinksNode end it without handling the children that were listed before.
 */
module StartOrder {
  import opened Forest
  import opened CopyThread
  import opened CleanRuns

  // The innermost directory is found to have become a link, and ends with its children still queued.
  predicate LeavesChildren(s: State, choice: Choice) {
    && s.stack.Frame? && s.stack.pc.Chain? && !s.stack.pc.canceled && choice.Linked?
    && s.stack.id in s.queue && !s.queue[s.stack.id].moveError
    && s.stack.id in s.issued.requests && s.issued.requests[s.stack.id].childrenQueue != []
  }

  // The top-level request in the worker's hands.
  function BottomId(k: Stack): int
    requires k.Frame?
  {
    if k.below.Frame? then BottomId(k.below) else k.id
  }

  // Nothing of the top-level request comes after the directory.
  predicate IsLast(s: State) {
    && s.stack.Frame? && s.stack.id in s.issued.ends && BottomId(s.stack) in s.issued.ends
    && s.issued.ends[s.stack.id] == s.issued.ends[BottomId(s.stack)]
  }

  // Where the part of the innermost block begins that the worker has not reached.
  function Cursor(i: Issued, k: Stack, moveError: bool): int
    requires k.Frame? && k.id in i.ends
  {
    match k.pc
    case Start => k.id + 1
    case Attempt => if moveError then i.ends[k.id] else k.id + 1
    case Chain(_, _) => if moveError then i.ends[k.id] else k.id + 1
    case Kids(todo) => if todo == [] then i.ends[k.id] else todo[0]
    case RenameKids(todo) => if todo == [] then i.ends[k.id] else todo[0]
    case Result(done, _) => if done || moveError then i.ends[k.id] else k.id + 1
    case Waiting(_) => if moveError then i.ends[k.id] else k.id + 1
    case _ => i.ends[k.id]
  }

  function TopMoveError(s: State): bool {
    s.stack.Frame? && s.stack.id in s.queue && s.queue[s.stack.id].moveError
  }

  predicate Ahead(i: Issued, k: Stack, moveError: bool, u: set<int>) {
    k.Frame? ==> k.id in i.ends && forall x :: x in u ==> Cursor(i, k, moveError) <= x
  }

  // The worker is through with its top-level request and all below it.
  predicate Through(i: Issued, k: Stack, moveError: bool) {
    && k.Frame? && k.id in i.ends && BottomId(k) in i.ends && !k.pc.Start?
    && i.ends[BottomId(k)] <= Cursor(i, k, moveError)
  }

  // Whatever is taken next is the least of what waits.  With `last`, directories that end their top-level request may
  // leave their children behind.
  predicate InLine(s: State, last: bool) {
    || Ahead(s.issued, s.stack, TopMoveError(s), Unstarted(s))
    || (last && Through(s.issued, s.stack, TopMoveError(s)))
  }

  predicate LineChoice(s: State, choice: Choice, last: bool) {
    LeavesChildren(s, choice) ==> last && IsLast(s)
  }

  lemma {:induction false} TopInside(i: Issued, k: Stack, u: set<int>)
    requires Tower(i, k, u) && k.Frame?
    ensures BottomId(k) in i.ends && i.ends[k.id] <= i.ends[BottomId(k)]
  {
    if k.below.Frame? {
      LoopEnds(i, k.below.id, k.below.pc, i.ends[k.id], u);
      TopInside(i, k.below, u);
    }
  }

  lemma CursorInside(i: Issued, k: Stack, moveError: bool, u: set<int>)
    requires IssuedOk(i) && k.Frame? && k.id in i.requests && TopAt(i, k, moveError, u)
    ensures k.id < i.ends[k.id] && Cursor(i, k, moveError) <= i.ends[k.id]
  {
    ChildrenInside(i, k.id);
    if k.pc.Kids? || k.pc.RenameKids? {
      LoopEnds(i, k.id, k.pc, if k.pc.todo == [] then i.ends[k.id] else k.pc.todo[0], u);
    }
  }

  lemma FirstChild(i: Issued, id: int)
    requires IssuedOk(i) && id in i.requests
    ensures i.requests[id].childrenQueue != [] ==> i.requests[id].childrenQueue[0] == id + 1
    ensures i.requests[id].childrenQueue == [] ==> i.ends[id] == id + 1
    ensures !i.requests[id].dir ==> i.ends[id] == id + 1
  {
    assert Node(i.requests, i.ends, id);
  }

  // ---------- the worker's steps ----------

  lemma SamePlaceInLine(s: State, t: State, last: bool)
    requires Clean(s) && InLine(s, last) && SamePlace(s, t) && t.stack.id in t.queue && !t.stack.pc.Start?
    requires Cursor(t.issued, t.stack, TopMoveError(t)) == Cursor(s.issued, s.stack, TopMoveError(s))
             || (last && IsLast(s) && Cursor(t.issued, t.stack, TopMoveError(t)) == s.issued.ends[s.stack.id])
    ensures InLine(t, last) && Unstarted(t) == Unstarted(s)
  {
    assert StackIds(t.stack) == StackIds(s.stack) && BottomId(t.stack) == BottomId(s.stack);
    TopInside(s.issued, s.stack, Unstarted(s));
  }

  lemma SmallStepInLine(s: State, choice: Choice, last: bool)
    requires Clean(s) && InLine(s, last) && s.stack.Frame?
    requires s.stack.pc.Start? || s.stack.pc.Attempt? || s.stack.pc.AfterKids? || s.stack.pc.RemoveSource?
             || s.stack.pc.Finish?
    ensures InLine(FrameStep(s, choice), last)
  {
    FirstChild(s.issued, s.stack.id);
    SamePlaceInLine(s, FrameStep(s, choice), last);
  }

  lemma DialogueInLine(s: State, choice: Choice, last: bool)
    requires Clean(s) && InLine(s, last) && s.stack.Frame? && (s.stack.pc.Result? || s.stack.pc.Waiting?)
    ensures InLine(FrameStep(s, choice), last)
  {
    SamePlaceInLine(s, FrameStep(s, choice), last);
  }

  lemma ChainInLine(s: State, choice: Choice, last: bool)
    requires Clean(s) && InLine(s, last) && s.stack.Frame? && s.stack.pc.Chain? && !s.stack.pc.canceled
    requires CleanChoice(s, choice) && LineChoice(s, choice, last)
    ensures InLine(FrameStep(s, choice), last)
  {
    FirstChild(s.issued, s.stack.id);
    SamePlaceInLine(s, FrameStep(s, choice), last);
  }

  lemma CutInLine(s: State, last: bool)
    requires Clean(s) && InLine(s, last) && s.stack.Frame? && s.stack.pc.Chain? && s.stack.pc.canceled
    ensures InLine(FrameStep(s, Proceed), last)
  {
    CutQueue(s);
    CutStep(s);
    ChildrenInside(s.issued, s.stack.id);
    assert BottomId(FrameStep(s, Proceed).stack) == BottomId(s.stack);
  }

  lemma LeaveInLine(s: State, last: bool)
    requires Clean(s) && InLine(s, last) && s.stack.Frame? && s.stack.pc.Leave?
    ensures InLine(FrameStep(s, Proceed), last)
  {
    LeaveStep(s);
    if s.stack.below.Frame? {
      LoopEnds(s.issued, s.stack.below.id, s.stack.below.pc, s.issued.ends[s.stack.id], Unstarted(s));
    }
  }

  lemma LoopInLine(s: State, last: bool)
    requires Clean(s) && InLine(s, last) && s.stack.Frame? && (s.stack.pc.Kids? || s.stack.pc.RenameKids?)
    ensures InLine(FrameStep(s, Proceed), last)
  {
    LoopStep(s);
    if s.stack.pc.todo == [] {
      SamePlaceInLine(s, FrameStep(s, Proceed), last);
    } else {
      LoopEnds(s.issued, s.stack.id, s.stack.pc, s.stack.pc.todo[0], Unstarted(s));
      TopInside(s.issued, s.stack, Unstarted(s));
    }
  }

  lemma RunInLine(s: State, last: bool)
    requires Clean(s) && s.stack.Bottom?
    ensures InLine(RunStep(s), last)
  {
    RunCleanStep(s);
    if RunStep(s).stack.Frame? { assert Clean(RunStep(s)); }
  }

  lemma WorkInLine(s: State, choice: Choice, last: bool)
    requires Clean(s) && InLine(s, last) && CleanChoice(s, choice) && LineChoice(s, choice, last)
    ensures InLine(WorkStep(s, choice), last)
  {
    if s.stack.Bottom? {
      RunInLine(s, last);
    } else {
      match s.stack.pc
      case Chain(canceled, _) => if canceled { CutInLine(s, last); } else { ChainInLine(s, choice, last); }
      case Kids(_) => LoopInLine(s, last);
      case RenameKids(_) => LoopInLine(s, last);
      case Result(_, _) => DialogueInLine(s, choice, last);
      case Waiting(_) => DialogueInLine(s, choice, last);
      case Leave => LeaveInLine(s, last);
      case _ => SmallStepInLine(s, choice, last);
    }
  }

  // ---------- the GUI thread's steps ----------

  // A larger forest does not move what is issued already.
  lemma GrownInLine(s: State, t: State, last: bool)
    requires Clean(s) && InLine(s, last) && t.stack == s.stack && t.queue == s.queue
    requires forall x :: x in s.issued.ends ==> x in t.issued.ends && t.issued.ends[x] == s.issued.ends[x]
    ensures InLine(t, last)
  {
    if s.stack.Frame? { TopInside(s.issued, s.stack, Unstarted(s)); }
  }

  lemma SubmitInLine(s: State, a: Action, last: bool)
    requires Clean(s) && InLine(s, last) && CleanAction(s, a) && a.Submit? && s.schedule.gui.GuiIdle?
    ensures InLine(SubmitStep(s, a), last)
  {
    if GoodBatch(s, a.batch, a.blocks, a.hi) {
      BatchIssued(s.issued, a.batch, a.blocks, a.hi);
      GrownInLine(s, SubmitStep(s, a), last);
    }
  }

  lemma EnqueueInLine(s: State, last: bool)
    requires Clean(s) && InLine(s, last) && s.schedule.gui.MustEnqueue?
    ensures InLine(SubmitStep(s, Enqueue), last)
  {
    EnqueueCleanStep(s);
    if s.stack.Frame? { CursorInside(s.issued, s.stack, TopMoveError(s), Unstarted(s)); }
  }

  lemma SlotInLine(s: State, a: Action, last: bool)
    requires Clean(s) && InLine(s, last) && CleanAction(s, a) && s.schedule.gui.GuiIdle?
    ensures InLine(SlotStep(s, a), last)
  {
    var t := SlotStep(s, a);
    assert t.queue.Keys == s.queue.Keys;
    assert forall x :: x in s.queue ==> t.queue[x].moveError == s.queue[x].moveError;
  }

  lemma GuiInLine(s: State, a: Action, last: bool)
    requires Clean(s) && InLine(s, last) && CleanAction(s, a) && !a.Work?
    ensures InLine(Apply(s, a), last)
  {
    if a.Enqueue? {
      if s.schedule.gui.MustEnqueue? { EnqueueInLine(s, last); }
    } else if a.Submit? {
      if s.schedule.gui.GuiIdle? { SubmitInLine(s, a, last); }
    } else if !a.ScheduleRestart? && !a.Restart? && s.schedule.gui.GuiIdle? {
      SlotInLine(s, a, last);
    }
  }
}
