/** Clean runs in which no directory turns into a link while its children are queued.

    In these everything that waits is ahead of the worker, and nothing below a request that left the queue stays
    queued.
 */
module LinkFreeRuns {
  import opened Forest
  import opened CopyThread
  import opened CleanRuns
  import opened StartOrder

  // Everything waiting is still ahead, and nothing below a departed request is pending.
  ghost predicate InOrder(s: State) {
    && InLine(s, false)
    && s.issued.requests.Keys == s.issued.ends.Keys
    && Closed(s.issued.requests, s.issued.ends, s.queue.Keys + Registered(s))
  }

  // ---------- the worker's steps ----------

  // A closed set stays closed without a whole block.
  lemma ClosedWithout(i: Issued, pending: set<int>, id: int, lo: int)
    requires IssuedOk(i) && id in i.requests && id <= lo && Closed(i.requests, i.ends, pending)
    ensures Closed(i.requests, i.ends, pending - set x | x in pending && lo <= x < i.ends[id])
  {
    var rest := pending - set x | x in pending && lo <= x < i.ends[id];
    forall a, x | a in i.requests && a !in rest && x in rest ensures !(a < x < i.ends[a]) {
      if a in pending { BlocksNest(i.requests, i.ends, id, a); }
    }
  }

  lemma CutClosed(s: State)
    requires Clean(s) && InOrder(s) && s.stack.Frame? && s.stack.pc.Chain? && s.stack.pc.canceled
    ensures var t := FrameStep(s, Proceed); Closed(t.issued.requests, t.issued.ends, t.queue.Keys + Registered(t))
  {
    var i, id, t, pending := s.issued, s.stack.id, FrameStep(s, Proceed), s.queue.Keys + Registered(s);
    CutQueue(s);
    assert s.queue - {} == s.queue;
    ChildrenInside(i, id);
    if !TopMoveError(s) {
      ClosedWithout(i, pending, id, id + 1);
      forall x | x in Registered(s) ensures i.ends[id] <= x {}
      assert t.queue.Keys + Registered(t) == pending - set x | x in pending && id + 1 <= x < i.ends[id];
    }
  }

  lemma LeaveClosed(s: State)
    requires Clean(s) && InOrder(s) && s.stack.Frame? && s.stack.pc.Leave?
    ensures var t := FrameStep(s, Proceed); Closed(t.issued.requests, t.issued.ends, t.queue.Keys + Registered(t))
  {
    var i, k, t, u := s.issued, s.stack, FrameStep(s, Proceed), Unstarted(s);
    var pending := s.queue.Keys + Registered(s);
    forall x | OnStack(k, x) ensures x <= k.id { TowerOrder(i, k, u, x); }
    ClosedWithout(i, pending, k.id, k.id);
    ChildrenInside(i, k.id);
    forall x | x in pending && k.id <= x < i.ends[k.id] ensures x == k.id {
      assert x in s.queue && !OnStack(k, x) ==> x in u;
    }
    assert t.queue.Keys + Registered(t) == pending - set x | x in pending && k.id <= x < i.ends[k.id];
  }

  // The other steps leave the keys of the queue alone.
  lemma OthersKeepKeys(s: State, choice: Choice)
    requires Clean(s) && (s.stack.Frame? ==> !s.stack.pc.Leave? && !(s.stack.pc.Chain? && s.stack.pc.canceled))
    ensures var t := WorkStep(s, choice);
            t.queue.Keys == s.queue.Keys && Registered(t) == Registered(s) && t.issued == s.issued
  {
  }

  lemma WorkInOrder(s: State, choice: Choice)
    requires Clean(s) && InOrder(s) && CleanChoice(s, choice) && !LeavesChildren(s, choice)
    ensures InOrder(WorkStep(s, choice))
  {
    WorkInLine(s, choice, false);
    if s.stack.Frame? && s.stack.pc.Leave? {
      LeaveClosed(s);
    } else if s.stack.Frame? && s.stack.pc.Chain? && s.stack.pc.canceled {
      CutClosed(s);
    } else {
      OthersKeepKeys(s, choice);
    }
  }

  // ---------- the GUI thread's steps ----------

  lemma GuiInOrder(s: State, a: Action)
    requires Clean(s) && InOrder(s) && CleanAction(s, a) && !a.Work?
    ensures InOrder(Apply(s, a))
  {
    var t := Apply(s, a);
    GuiInLine(s, a, false);
    if a.Enqueue? {
      assert t.queue.Keys + Registered(t) == s.queue.Keys + Registered(s);
    } else if a.Submit? {
      if s.schedule.gui.GuiIdle? && GoodBatch(s, a.batch, a.blocks, a.hi) {
        BatchIssued(s.issued, a.batch, a.blocks, a.hi);
        assert t.queue.Keys + Registered(t) == s.queue.Keys + a.batch.Keys;
      }
    } else {
      assert t.queue.Keys == s.queue.Keys && Registered(t) == Registered(s) && t.issued == s.issued;
    }
  }

  // ---------- the walks ----------

  lemma QueueClosed(s: State)
    requires Clean(s) && InOrder(s)
    ensures Closed(s.issued.requests, s.issued.ends, s.queue.Keys)
  {
    QueueIssued(s);
    forall a, x | a in s.issued.requests && a !in s.queue.Keys && x in s.queue.Keys
      ensures !(a < x < s.issued.ends[a])
    {
      if a in Registered(s) { ChildrenInside(s.issued, x); }
    }
  }

  // The pending descendants of a pending request are the queued numbers of its block.
  lemma PendingDescendants(s: State, id: int)
    requires Clean(s) && InOrder(s) && id in s.queue
    ensures id in s.issued.requests
    ensures Reach(s.issued.requests, s.queue.Keys, id) == set x | x in s.queue.Keys && id <= x < s.issued.ends[id]
  {
    QueueClosed(s);
    QueueIssued(s);
    ReachIsTheBlock(s.issued.requests, s.issued.ends, s.queue.Keys, id);
  }
}
