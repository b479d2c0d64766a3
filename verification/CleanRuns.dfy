/** Clean runs of the copier: what the worker's queue and its call stack look like in them.

    A clean run has no NonInteractive request, no skipAll(), no cancelAll(), no destruction of the copier, and
    no successful rename after the removal of the source failed.  Cancelling, skipping, overwriting and
    retrying single requests is allowed, and so is a directory that turns into a link while its children are
    queued.
 */
module CleanRuns {
  import opened Forest
  import opened CopyThread

  // ---------- clean actions ----------

  predicate CleanChoice(s: State, choice: Choice) {
    s.stack.Frame? && s.stack.pc.Chain? && s.stack.id in s.queue && choice.Renamed? ==> !s.queue[s.stack.id].moveError
  }

  predicate CleanAction(s: State, a: Action) {
    match a
    case Work(choice) => CleanChoice(s, choice)
    case Submit(batch, _, _) => forall id :: id in batch ==> !batch[id].copyFlags.nonInteractive
    case SkipAll => false
    case CancelAll => false
    case Destroy => false
    case _ => true
  }

  // ---------- the worker in a clean run ----------

  function StackIds(k: Stack): set<int> {
    if k.Bottom? then {} else {k.id} + StackIds(k.below)
  }

  predicate OnStack(k: Stack, x: int) {
    x in StackIds(k)
  }

  // The numbers of a batch the GUI thread has registered but not handed to the worker yet.
  function Registered(s: State): set<int> {
    if s.schedule.gui.MustEnqueue? then s.schedule.gui.ids else {}
  }

  // What is queued and not in the worker's hands yet.
  function Unstarted(s: State): set<int> {
    s.queue.Keys - StackIds(s.stack)
  }

  predicate CleanControl(control: Control, requests: Requests) {
    && !control.stopRequest && !control.skipAllRequest && control.skipAllError == {} && !control.cancelRequest
    && forall id :: id in requests ==> !requests[id].copyFlags.nonInteractive
  }

  ghost predicate IssuedOk(i: Issued) {
    && Numbered(i.requests, i.ends) && 0 <= i.nextId
    && (forall id :: id in i.requests <==> 0 <= id < i.nextId)
  }

  // The numbers from `from` to the end of the block of `id` are in `ids`.
  predicate BlockIn(i: Issued, id: int, from: int, ids: set<int>) {
    id in i.ends && forall x :: from <= x < i.ends[id] ==> x in ids
  }

  // Every request in `ids` is there with its whole block.
  predicate Whole(i: Issued, ids: set<int>) {
    forall x :: x in ids ==> BlockIn(i, x, x, ids)
  }

  // No child of `id` numbered below `pos` is in `ids`.
  predicate Handled(i: Issued, id: int, pos: int, ids: set<int>) {
    id in i.requests && forall c :: c in i.requests[id].childrenQueue && c < pos ==> c !in ids
  }

  // An activation loops over children whose blocks start at `pos`; the earlier ones are gone, the others wait.
  ghost predicate Loops(i: Issued, id: int, pc: Pc, pos: int, u: set<int>) {
    && id in i.ends && BlockIn(i, id, pos, u) && Handled(i, id, pos, u)
    && (pc.Kids? || pc.RenameKids?) && Blocks(i.requests, i.ends, pc.todo, pos, i.ends[id])
    && forall c :: c in pc.todo ==> c in i.requests[id].childrenQueue
  }

  // Each activation below the innermost one has handled everything up to the end of its current child.
  ghost predicate Tower(i: Issued, k: Stack, u: set<int>) {
    k.Frame? ==>
      && k.id in i.requests && k.id in i.ends && Tower(i, k.below, u)
      && (k.below.Frame? ==> k.below.id < k.id && Loops(i, k.below.id, k.below.pc, i.ends[k.id], u))
  }

  // Before the children are reached the whole block waits; a retried removal of the source comes after them.
  predicate Untried(i: Issued, id: int, moveError: bool, u: set<int>) {
    id in i.ends && if moveError then Handled(i, id, i.ends[id], u) else BlockIn(i, id, id + 1, u)
  }

  // What the innermost activation has left to do.
  ghost predicate TopAt(i: Issued, k: Stack, moveError: bool, u: set<int>)
    requires k.Frame? && k.id in i.ends
  {
    match k.pc
    case Start => !moveError && BlockIn(i, k.id, k.id + 1, u)
    case Attempt => Untried(i, k.id, moveError, u)
    case Chain(_, _) => Untried(i, k.id, moveError, u)
    case Kids(todo) => Loops(i, k.id, k.pc, if todo == [] then i.ends[k.id] else todo[0], u)
    case RenameKids(todo) => Loops(i, k.id, k.pc, if todo == [] then i.ends[k.id] else todo[0], u)
    case Result(done, e) =>
      if !done then Untried(i, k.id, moveError, u) else e != NoError ==> Handled(i, k.id, i.ends[k.id], u)
    case Waiting(_) => Untried(i, k.id, moveError, u)
    case Finish(e) => e != NoError ==> Handled(i, k.id, i.ends[k.id], u)
    case Leave => true
    case _ => Handled(i, k.id, i.ends[k.id], u)
  }

  // What waits in the queue waits with its whole block; the next batch is numbered behind everything queued.
  ghost predicate QueueOk(i: Issued, queue: map<int, Marks>, k: Stack, registered: set<int>) {
    && StackIds(k) <= queue.Keys
    && Whole(i, queue.Keys - StackIds(k))
    && (forall x :: x in queue && !OnStack(k, x) ==> !queue[x].moveError)
    && Whole(i, registered) && registered <= i.requests.Keys
    && forall x, y :: x in queue && y in registered ==> x in i.ends && i.ends[x] <= y
  }

  ghost predicate Clean(s: State) {
    && !s.undefined && CleanControl(s.control, s.issued.requests) && IssuedOk(s.issued)
    && QueueOk(s.issued, s.queue, s.stack, Registered(s))
    && Tower(s.issued, s.stack, Unstarted(s))
    && (s.stack.Frame? ==>
          s.stack.id in s.queue && TopAt(s.issued, s.stack, s.queue[s.stack.id].moveError, Unstarted(s)))
  }

  // ---------- facts about blocks and the stack ----------

  lemma {:induction false} TowerOrder(i: Issued, k: Stack, u: set<int>, x: int)
    requires Tower(i, k, u) && OnStack(k, x)
    ensures x <= k.id && x in i.requests && x in i.ends && (x != k.id ==> k.below.Frame? && x <= k.below.id < k.id)
  {
    if x != k.id { TowerOrder(i, k.below, u, x); }
  }

  lemma TopNotBelow(i: Issued, k: Stack, u: set<int>)
    requires Tower(i, k, u) && k.Frame?
    ensures k.id !in StackIds(k.below)
  {
    if k.id in StackIds(k.below) { TowerOrder(i, k.below, u, k.id); }
  }

  lemma LoopEnds(i: Issued, id: int, pc: Pc, pos: int, u: set<int>)
    requires Loops(i, id, pc, pos, u)
    ensures pos <= i.ends[id] && (pc.Kids? || pc.RenameKids?)
    ensures pc.todo == [] ==> pos == i.ends[id]
    ensures pc.todo != [] ==> pos == pc.todo[0] < i.ends[id] && pos in i.ends && i.ends[pos] <= i.ends[id]
  {
    BlocksOrder(i.requests, i.ends, pc.todo, pos, i.ends[id]);
  }

  // What leaves the waiting requests inside the innermost block does not concern the activations below.
  lemma {:induction false} TowerShrinks(i: Issued, k: Stack, u: set<int>, v: set<int>, lo: int, hi: int)
    requires Tower(i, k, u) && v <= u && forall x :: x in u && x !in v ==> lo <= x < hi
    requires k.Frame? ==> hi <= i.ends[k.id]
    ensures Tower(i, k, v)
  {
    if k.Frame? && k.below.Frame? {
      LoopEnds(i, k.below.id, k.below.pc, i.ends[k.id], u);
      TowerShrinks(i, k.below, u, v, lo, hi);
    }
  }

  // If the whole block waits, a walk meets all of it.
  lemma ReachWhole(i: Issued, pending: set<int>, id: int)
    requires IssuedOk(i) && BlockIn(i, id, id, pending)
    ensures id in i.requests && Reach(i.requests, pending, id) == set x | x in pending && id <= x < i.ends[id]
  {
    assert Node(i.requests, i.ends, id);
    forall x | id <= x < i.ends[id] ensures x in i.requests.Keys { BlocksNest(i.requests, i.ends, id, x); }
    ReachOnBlock(i.requests, i.ends, pending, i.requests.Keys, id);
    ReachIsTheBlock(i.requests, i.ends, i.requests.Keys, id);
  }

  // If no child waits, it meets nothing below.
  lemma ReachAlone(i: Issued, pending: set<int>, id: int)
    requires IssuedOk(i) && id in i.requests && id in pending
    requires forall c :: c in i.requests[id].childrenQueue ==> c !in pending
    ensures Reach(i.requests, pending, id) == {id}
  {
    ReachUnfolds(i.requests, pending, id);
    ReachAllIs(i.requests, pending, i.requests[id].childrenQueue);
    forall c | c in i.requests[id].childrenQueue ensures Reach(i.requests, pending, c) == {} {
      ReachAbsent(i.requests, pending, c);
    }
  }

  lemma ChildrenInside(i: Issued, id: int)
    requires IssuedOk(i) && id in i.requests
    ensures forall c :: c in i.requests[id].childrenQueue ==> id < c < i.ends[id]
    ensures i.requests[id].childrenQueue == [] || i.requests[id].dir
    ensures id < i.ends[id]
  {
    assert Node(i.requests, i.ends, id);
    BlocksOrder(i.requests, i.ends, i.requests[id].childrenQueue, id + 1, i.ends[id]);
  }

  // Taking a block away leaves the other blocks whole if nothing around it waits.
  lemma WholeWithout(i: Issued, u: set<int>, v: set<int>, id: int)
    requires IssuedOk(i) && Whole(i, u) && id in i.requests && id !in u
    requires v == u - set x | x in u && id <= x < i.ends[id]
    ensures Whole(i, v)
  {
    forall x | x in v ensures BlockIn(i, x, x, v) {
      assert BlockIn(i, x, x, u);
    }
  }

  // ---------- the worker's steps ----------

  // A step that moves only the innermost program counter (and flags of queued requests).
  predicate SamePlace(s: State, t: State) {
    && s.stack.Frame? && t.stack.Frame? && t.stack == s.stack.(pc := t.stack.pc)
    && t.issued == s.issued && t.schedule == s.schedule && t.control == s.control && t.undefined == s.undefined
    && t.queue.Keys == s.queue.Keys
    && forall x :: x in s.queue && x != s.stack.id ==> t.queue[x].moveError == s.queue[x].moveError
  }

  lemma SamePlaceClean(s: State, t: State)
    requires Clean(s) && SamePlace(s, t) && t.stack.id in t.queue
    requires TopAt(t.issued, t.stack, t.queue[t.stack.id].moveError, Unstarted(s))
    ensures Clean(t)
  {
    assert StackIds(t.stack) == StackIds(s.stack);
  }

  lemma StartStep(s: State)
    requires Clean(s) && s.stack.Frame? && (s.stack.pc.Start? || s.stack.pc.Attempt?)
    ensures Clean(FrameStep(s, Proceed))
  {
    FirstLoop(s.issued, s.stack.id, RenameKids(s.issued.requests[s.stack.id].childrenQueue), Unstarted(s));
    SamePlaceClean(s, FrameStep(s, Proceed));
  }

  // The loops over the children start with the whole block.
  lemma FirstLoop(i: Issued, id: int, pc: Pc, u: set<int>)
    requires IssuedOk(i) && id in i.requests
    requires pc == RenameKids(i.requests[id].childrenQueue) || pc == Kids(i.requests[id].childrenQueue)
    ensures BlockIn(i, id, id + 1, u) ==>
              Loops(i, id, pc, if pc.todo == [] then i.ends[id] else pc.todo[0], u)
  {
    assert Node(i.requests, i.ends, id);
    ChildrenInside(i, id);
  }

  // What a canceled request leaves in the queue.
  lemma CutQueue(s: State)
    requires Clean(s) && s.stack.Frame? && s.stack.pc.Chain? && s.stack.pc.canceled
    ensures var t := FrameStep(s, Proceed);
            && t == s.(queue := t.queue, stack := s.stack.(pc := Result(true, Canceled)))
            && t.queue == s.queue - (if s.queue[s.stack.id].moveError then {}
                                     else set x | x in s.queue.Keys && s.stack.id < x < s.issued.ends[s.stack.id])
  {
    var i, id := s.issued, s.stack.id;
    ChildrenInside(i, id);
    assert s.queue - {} == s.queue;
    if s.queue[id].moveError {
      forall c | c in i.requests[id].childrenQueue ensures c !in s.queue.Keys {
        if OnStack(s.stack, c) { TowerOrder(i, s.stack, Unstarted(s), c); }
        assert c !in Unstarted(s);
      }
      ReachAlone(i, s.queue.Keys, id);
    } else {
      forall x | id <= x < i.ends[id] ensures x in s.queue.Keys { assert x == id || x in Unstarted(s); }
      ReachWhole(i, s.queue.Keys, id);
      assert Reach(i.requests, s.queue.Keys, id) - {id} == set x | x in s.queue.Keys && id < x < i.ends[id];
    }
  }

  lemma CutPlace(i: Issued, k: Stack, u: set<int>)
    requires IssuedOk(i) && Tower(i, k, u) && Whole(i, u) && k.Frame? && k.id !in u
    ensures var v := u - set x | x in u && k.id < x < i.ends[k.id];
            Whole(i, v) && Tower(i, k, v) && Handled(i, k.id, i.ends[k.id], v)
  {
    var v := u - set x | x in u && k.id < x < i.ends[k.id];
    assert v == u - set x | x in u && k.id <= x < i.ends[k.id];
    WholeWithout(i, u, v, k.id);
    TowerShrinks(i, k, u, v, k.id, i.ends[k.id]);
    ChildrenInside(i, k.id);
  }

  lemma CutStep(s: State)
    requires Clean(s) && s.stack.Frame? && s.stack.pc.Chain? && s.stack.pc.canceled
    ensures Clean(FrameStep(s, Proceed))
    ensures Unstarted(FrameStep(s, Proceed)) ==
            if s.queue[s.stack.id].moveError then Unstarted(s)
            else Unstarted(s) - set x | x in Unstarted(s) && s.stack.id < x < s.issued.ends[s.stack.id]
  {
    var i, id, t, u := s.issued, s.stack.id, FrameStep(s, Proceed), Unstarted(s);
    CutQueue(s);
    assert StackIds(t.stack) == StackIds(s.stack);
    if s.queue[id].moveError {
      assert t.queue == s.queue;
    } else {
      CutPlace(i, s.stack, u);
      forall x | OnStack(s.stack, x) ensures x <= id { TowerOrder(i, s.stack, u, x); }
      assert Unstarted(t) == u - set x | x in u && id < x < i.ends[id];
      TowerPc(i, s.stack, t.stack, Unstarted(t));
    }
  }

  // Only the activations below matter.
  lemma TowerPc(i: Issued, k: Stack, l: Stack, u: set<int>)
    requires k.Frame? && l.Frame? && l == k.(pc := l.pc)
    ensures Tower(i, k, u) == Tower(i, l, u)
  {
  }

  lemma ChainCleanStep(s: State, choice: Choice)
    requires Clean(s) && s.stack.Frame? && s.stack.pc.Chain? && !s.stack.pc.canceled && CleanChoice(s, choice)
    ensures Clean(FrameStep(s, choice))
  {
    var i, id := s.issued, s.stack.id;
    ChildrenInside(i, id);
    FirstLoop(i, id, Kids(i.requests[id].childrenQueue), Unstarted(s));
    FirstLoop(i, id, RenameKids(i.requests[id].childrenQueue), Unstarted(s));
    SamePlaceClean(s, FrameStep(s, choice));
  }

  lemma EndStep(s: State, choice: Choice)
    requires Clean(s) && s.stack.Frame?
    requires s.stack.pc.AfterKids? || s.stack.pc.RemoveSource? || s.stack.pc.Finish?
    ensures Clean(FrameStep(s, choice))
  {
    SamePlaceClean(s, FrameStep(s, choice));
  }

  lemma DialogueStep(s: State, choice: Choice)
    requires Clean(s) && s.stack.Frame? && (s.stack.pc.Result? || s.stack.pc.Waiting?)
    ensures Clean(FrameStep(s, choice))
  {
    SamePlaceClean(s, FrameStep(s, choice));
  }

  lemma LeaveStep(s: State)
    requires Clean(s) && s.stack.Frame? && s.stack.pc.Leave?
    ensures Clean(FrameStep(s, Proceed)) && Unstarted(FrameStep(s, Proceed)) == Unstarted(s)
  {
    var k, t, u := s.stack, FrameStep(s, Proceed), Unstarted(s);
    TopNotBelow(s.issued, k, u);
    assert Unstarted(t) == u;
    if k.below.Frame? {
      LoopEnds(s.issued, k.below.id, k.below.pc, s.issued.ends[k.id], u);
      assert OnStack(k, k.below.id);
    }
  }

  // Calling handle() or renameChildren() on a waiting request that nothing waiting surrounds.
  lemma PushStep(s: State, x: int, below: Stack, rename: bool)
    requires Clean(s) && x in Unstarted(s)
    requires StackIds(below) == StackIds(s.stack) && (below.Frame? <==> s.stack.Frame?)
    requires below.Frame? ==>
               && below.id < x && x in s.issued.ends
               && Loops(s.issued, below.id, below.pc, s.issued.ends[x], Unstarted(s) - {x})
    requires Tower(s.issued, below, Unstarted(s) - {x})
    requires forall y :: y in Unstarted(s) && y < x ==> s.issued.ends[y] <= x
    ensures Clean(Push(s.(stack := below), x, rename))
    ensures var t := Push(s.(stack := below), x, rename);
            && t.stack.Frame? && t.stack.id == x && t.stack.below == below && t.stack.pc.Start?
            && Unstarted(t) == Unstarted(s) - {x}
  {
    var t, u := Push(s.(stack := below), x, rename), Unstarted(s);
    assert BlockIn(s.issued, x, x, u);
    assert x in s.issued.requests;
    assert StackIds(t.stack) == {x} + StackIds(s.stack);
    assert Unstarted(t) == u - {x};
    forall y | y in u - {x} ensures BlockIn(s.issued, y, y, u - {x}) { assert BlockIn(s.issued, y, y, u); }
  }

  // The ancestors of a waiting child are in the worker's hands.
  lemma NothingAround(i: Issued, id: int, u: set<int>, c: int, y: int)
    requires IssuedOk(i) && Whole(i, u) && id in i.requests && id !in u && c in i.requests[id].childrenQueue
    requires y in u && y < c
    ensures c in i.ends && i.ends[y] <= c
  {
    assert Node(i.requests, i.ends, id);
    assert BlockIn(i, y, y, u);
    var cs := i.requests[id].childrenQueue;
    BlocksOrder(i.requests, i.ends, cs, id + 1, i.ends[id]);
    if c < i.ends[y] && id < y {
      var b := BlocksCover(i.requests, i.ends, cs, id + 1, i.ends[id], y);
      BlocksNest(i.requests, i.ends, b, y);
      var j, k :| 0 <= j < |cs| && cs[j] == b && 0 <= k < |cs| && cs[k] == c;
      if j < k {
        BlocksSorted(i.requests, i.ends, cs, id + 1, i.ends[id], j, k);
      } else if k < j {
        BlocksSorted(i.requests, i.ends, cs, id + 1, i.ends[id], k, j);
      }
    }
  }

  // The loop after its next child was taken.
  lemma LoopGoesOn(i: Issued, id: int, pc: Pc, next: Pc, u: set<int>)
    requires IssuedOk(i) && (pc.Kids? || pc.RenameKids?) && pc.todo != [] && Loops(i, id, pc, pc.todo[0], u)
    requires next == if pc.Kids? then Kids(pc.todo[1..]) else RenameKids(pc.todo[1..])
    ensures pc.todo[0] in i.ends && Loops(i, id, next, i.ends[pc.todo[0]], u - {pc.todo[0]})
    ensures id < pc.todo[0] && pc.todo[0] in u
  {
    var c := pc.todo[0];
    assert c in pc.todo;
    LoopEnds(i, id, pc, c, u);
    ChildrenInside(i, id);
    assert Node(i.requests, i.ends, id);
    var cs := i.requests[id].childrenQueue;
    forall b | b in cs && b < i.ends[c] ensures b <= c {
      var j, k :| 0 <= j < |cs| && cs[j] == b && 0 <= k < |cs| && cs[k] == c;
      BlocksOrder(i.requests, i.ends, cs, id + 1, i.ends[id]);
      if k < j {
        BlocksSorted(i.requests, i.ends, cs, id + 1, i.ends[id], k, j);
      } else if j < k {
        BlocksSorted(i.requests, i.ends, cs, id + 1, i.ends[id], j, k);
      }
    }
  }

  lemma LoopStep(s: State)
    requires Clean(s) && s.stack.Frame? && (s.stack.pc.Kids? || s.stack.pc.RenameKids?)
    ensures Clean(FrameStep(s, Proceed))
    ensures s.stack.pc.todo == [] ==> Unstarted(FrameStep(s, Proceed)) == Unstarted(s)
    ensures s.stack.pc.todo != [] ==>
              && FrameStep(s, Proceed)
                 == Push(s.(stack := FrameStep(s, Proceed).stack.below), s.stack.pc.todo[0], s.stack.pc.RenameKids?)
              && FrameStep(s, Proceed).stack.Frame? && FrameStep(s, Proceed).stack.pc.Start?
              && FrameStep(s, Proceed).stack.id == s.stack.pc.todo[0] && s.stack.pc.todo[0] in Unstarted(s)
              && Unstarted(FrameStep(s, Proceed)) == Unstarted(s) - {s.stack.pc.todo[0]}
  {
    var i, id, pc, u := s.issued, s.stack.id, s.stack.pc, Unstarted(s);
    if pc.todo == [] {
      SamePlaceClean(s, FrameStep(s, Proceed));
    } else {
      var x := pc.todo[0];
      var next := if pc.Kids? then Kids(pc.todo[1..]) else RenameKids(pc.todo[1..]);
      var below := s.stack.(pc := next);
      assert StackIds(below) == StackIds(s.stack);
      LoopGoesOn(i, id, pc, next, u);
      LoopEnds(i, id, pc, x, u);
      TowerShrinks(i, below, u, u - {x}, x, x + 1);
      assert x in i.requests[id].childrenQueue by { assert x in pc.todo; }
      forall y | y in u && y < x ensures i.ends[y] <= x { NothingAround(i, id, u, x, y); }
      PushStep(s, x, below, pc.RenameKids?);
    }
  }

  lemma RunCleanStep(s: State)
    requires Clean(s) && s.stack.Bottom?
    ensures Clean(RunStep(s))
    ensures RunStep(s).stack.Bottom? ==> Unstarted(RunStep(s)) == Unstarted(s) && RunStep(s).queue.Keys == s.queue.Keys
    ensures RunStep(s).stack.Frame? ==>
              && RunStep(s).stack.pc.Start? && RunStep(s).stack.below == s.stack
              && IsLeast(Unstarted(s), RunStep(s).stack.id)
              && Unstarted(RunStep(s)) == Unstarted(s) - {RunStep(s).stack.id}
  {
    if s.schedule.run.Ready? && s.queue.Keys != {} {
      var x, t := Least(s.queue.Keys), SetRun(s, Top);
      assert Unstarted(s) == s.queue.Keys && Unstarted(t) == s.queue.Keys;
      assert Clean(t);
      PushStep(t, x, Bottom, false);
    }
  }

  // A good batch makes a larger forest, behind everything queued.
  lemma BatchIssued(i: Issued, batch: Requests, blocks: Ends, hi: int)
    requires IssuedOk(i) && Numbered(batch, blocks) && i.nextId < hi
    requires forall id :: id in batch <==> i.nextId <= id < hi
    ensures var j := Issued(i.requests + batch, i.ends + blocks, hi);
            && IssuedOk(j) && Whole(j, batch.Keys)
            && (forall x :: x in i.requests ==>
                  x !in batch && j.requests[x] == i.requests[x] && j.ends[x] == i.ends[x] <= i.nextId)
  {
    var j := Issued(i.requests + batch, i.ends + blocks, hi);
    forall id | id in batch ensures id !in i.requests {}
    NumberedUnion(i.requests, i.ends, batch, blocks);
    forall id ensures id in j.requests <==> 0 <= id < hi {}
    forall x | x in batch ensures BlockIn(j, x, x, batch.Keys) { BlockInBatch(batch, blocks, i.nextId, hi, x); }
    forall x | x in i.requests ensures i.ends[x] <= i.nextId { BlockInBatch(i.requests, i.ends, 0, i.nextId, x); }
  }

  // Everything queued is issued.
  lemma QueueIssued(s: State)
    requires Clean(s)
    ensures s.queue.Keys <= s.issued.requests.Keys
  {
    forall x | x in s.queue ensures x in s.issued.requests {
      if OnStack(s.stack, x) {
        TowerOrder(s.issued, s.stack, Unstarted(s), x);
      } else {
        assert BlockIn(s.issued, x, x, Unstarted(s));
      }
    }
  }

  lemma SubmitCleanStep(s: State, a: Action)
    requires Clean(s) && CleanAction(s, a) && a.Submit? && s.schedule.gui.GuiIdle?
    ensures Clean(SubmitStep(s, a)) && Unstarted(SubmitStep(s, a)) == Unstarted(s)
    ensures GoodBatch(s, a.batch, a.blocks, a.hi) ==> Registered(SubmitStep(s, a)) == a.batch.Keys
  {
    if GoodBatch(s, a.batch, a.blocks, a.hi) {
      var j := Issued(s.issued.requests + a.batch, s.issued.ends + a.blocks, a.hi);
      BatchIssued(s.issued, a.batch, a.blocks, a.hi);
      BatchClean(s, s.(issued := j, schedule := s.schedule.(gui := MustEnqueue(a.batch.Keys))), a.batch.Keys);
    }
  }

  lemma BatchClean(s: State, t: State, ids: set<int>)
    requires Clean(s) && t == s.(issued := t.issued, schedule := t.schedule) && Registered(t) == ids
    requires Grows(s.issued, t.issued, Unstarted(s), Unstarted(s)) && Whole(t.issued, ids)
             && ids <= t.issued.requests.Keys
    requires forall x :: x in ids ==> s.issued.nextId <= x
    requires forall x :: x in s.issued.requests ==> s.issued.ends[x] <= s.issued.nextId
    requires CleanControl(t.control, t.issued.requests)
    ensures Clean(t) && Unstarted(t) == Unstarted(s)
  {
    var i, u := s.issued, Unstarted(s);
    QueueIssued(s);
    forall x | x in u ensures BlockIn(t.issued, x, x, u) { assert BlockIn(i, x, x, u); }
    TowerGrows(i, t.issued, s.stack, u, u);
    if s.stack.Frame? { TopGrows(i, t.issued, s.stack, s.queue[s.stack.id].moveError, u, u); }
  }

  // A larger forest and more waiting requests behind it do not change where the worker is.
  ghost predicate Grows(i: Issued, j: Issued, u: set<int>, v: set<int>) {
    && IssuedOk(i) && IssuedOk(j) && u <= v
    && forall id :: id in i.requests ==>
         id in j.requests && j.requests[id] == i.requests[id] && j.ends[id] == i.ends[id]
  }

  // No new request waits below `n`.
  predicate NoneNew(u: set<int>, v: set<int>, n: int) {
    forall x :: x in v && x < n ==> x in u
  }

  lemma LoopsGrow(i: Issued, j: Issued, id: int, pc: Pc, pos: int, u: set<int>, v: set<int>)
    requires Grows(i, j, u, v) && id in i.ends && NoneNew(u, v, i.ends[id]) && Loops(i, id, pc, pos, u)
    ensures Loops(j, id, pc, pos, v)
  {
    forall x | x in i.requests ensures x in j.requests {}
    ChildrenInside(i, id);
    BlocksGrow(i.requests, i.ends, j.requests, j.ends, pc.todo, pos, i.ends[id]);
  }

  lemma {:induction false} TowerGrows(i: Issued, j: Issued, k: Stack, u: set<int>, v: set<int>)
    requires Grows(i, j, u, v) && Tower(i, k, u)
    requires forall x :: OnStack(k, x) && x in i.ends ==> NoneNew(u, v, i.ends[x])
    ensures Tower(j, k, v)
  {
    if k.Frame? {
      assert forall x :: OnStack(k.below, x) ==> OnStack(k, x);
      TowerGrows(i, j, k.below, u, v);
      if k.below.Frame? {
        assert OnStack(k, k.below.id);
        LoopsGrow(i, j, k.below.id, k.below.pc, i.ends[k.id], u, v);
      }
    }
  }

  lemma TopGrows(i: Issued, j: Issued, k: Stack, moveError: bool, u: set<int>, v: set<int>)
    requires Grows(i, j, u, v) && k.Frame? && k.id in i.ends && NoneNew(u, v, i.ends[k.id]) && TopAt(i, k, moveError, u)
    ensures k.id in j.ends && TopAt(j, k, moveError, v)
  {
    ChildrenInside(i, k.id);
    if k.pc.Kids? || k.pc.RenameKids? {
      LoopsGrow(i, j, k.id, k.pc, if k.pc.todo == [] then i.ends[k.id] else k.pc.todo[0], u, v);
    }
  }

  lemma EnqueueCleanStep(s: State)
    requires Clean(s) && s.schedule.gui.MustEnqueue?
    ensures Clean(SubmitStep(s, Enqueue)) && Unstarted(SubmitStep(s, Enqueue)) == Unstarted(s) + Registered(s)
  {
    var i, t, u, ids := s.issued, SubmitStep(s, Enqueue), Unstarted(s), Registered(s);
    QueueIssued(s);
    forall x | x in s.queue ensures x < i.ends[x] { ChildrenInside(i, x); }
    assert Unstarted(t) == u + ids;
    forall x | x in u + ids ensures BlockIn(i, x, x, u + ids) {
      assert BlockIn(i, x, x, u) || BlockIn(i, x, x, ids);
    }
    TowerGrows(i, i, s.stack, u, u + ids);
    if s.stack.Frame? { TopGrows(i, i, s.stack, s.queue[s.stack.id].moveError, u, u + ids); }
  }

  lemma SlotCleanStep(s: State, a: Action)
    requires Clean(s) && CleanAction(s, a) && s.schedule.gui.GuiIdle?
    ensures Clean(SlotStep(s, a)) && Unstarted(SlotStep(s, a)) == Unstarted(s)
  {
    var t := SlotStep(s, a);
    assert t.queue.Keys == s.queue.Keys;
    assert forall x :: x in s.queue ==> t.queue[x].moveError == s.queue[x].moveError;
  }
}
