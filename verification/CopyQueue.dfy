/** The worker's request queue and the recursive walks over it. */
module CopyQueue {
  import opened Forest
  import opened CopyThread

  // An entry of requestQueue.
  datatype Request = Request(request: CopyRequest, marks: Marks)

  type Queue = map<int, Request>

  // The requests of the queue come from a numbered forest.
  ghost predicate FromForest(q: Queue, f: Requests, ends: Ends) {
    Numbered(f, ends) && forall x :: x in q ==> x in f && q[x].request == f[x]
  }

  function MarksOf(q: Queue): map<int, Marks> {
    map x | x in q :: q[x].marks
  }

  function Fresh(r: CopyRequest): Request {
    Request(r, Marks(false, false, false))
  }

  function AllFresh(batch: Requests): Queue {
    map x | x in batch :: Fresh(batch[x])
  }

  ghost function WithCanceled(q: Queue, ids: set<int>): (r: Queue)
    ensures r.Keys == q.Keys
  {
    map x | x in q :: if x in ids then q[x].(marks := q[x].marks.(canceled := true)) else q[x]
  }

  ghost function WithOverwrite(q: Queue, ids: set<int>): (r: Queue)
    ensures r.Keys == q.Keys
  {
    map x | x in q :: if x in ids then q[x].(marks := q[x].marks.(overwrite := true)) else q[x]
  }

  lemma CancelTwice(q: Queue, a: set<int>, b: set<int>)
    ensures WithCanceled(WithCanceled(q, a), b) == WithCanceled(q, a + b)
  {
  }

  lemma CancelKeepsForest(q: Queue, ids: set<int>, f: Requests, ends: Ends)
    requires FromForest(q, f, ends)
    ensures FromForest(WithCanceled(q, ids), f, ends)
  {
  }

  lemma OverwriteTwice(q: Queue, a: set<int>, b: set<int>)
    ensures WithOverwrite(WithOverwrite(q, a), b) == WithOverwrite(q, a + b)
  {
  }

  lemma OverwriteKeepsForest(q: Queue, ids: set<int>, f: Requests, ends: Ends)
    requires FromForest(q, f, ends)
    ensures FromForest(WithOverwrite(q, ids), f, ends)
  {
  }

  lemma ReachNext(f: Requests, pending: set<int>, cs: seq<int>, j: int, id: int)
    requires 0 <= j < |cs|
    ensures {id} + ReachAll(f, pending, cs[..j + 1]) == {id} + ReachAll(f, pending, cs[..j]) + Reach(f, pending, cs[j])
  {
    ReachAllSnoc(f, pending, cs, j);
  }

  // Removing what is below the next child, and then the child.
  lemma RemoveNext<V>(m: map<int, V>, f: Requests, ends: Ends, id: int, j: int)
    requires Numbered(f, ends) && id in f && 0 <= j < |f[id].childrenQueue|
    ensures var cs := f[id].childrenQueue;
            var left := m - ReachAll(f, m.Keys, cs[..j]);
            left - (Reach(f, left.Keys, cs[j]) - {cs[j]}) - {cs[j]} == m - ReachAll(f, m.Keys, cs[..j + 1])
  {
    var cs := f[id].childrenQueue;
    var left := m - ReachAll(f, m.Keys, cs[..j]);
    assert left.Keys == m.Keys - ReachAll(f, m.Keys, cs[..j]);
    ReachAllSnoc(f, m.Keys, cs, j);
    ReachNextChild(f, ends, m.Keys, id, j);
    if cs[j] in m { ReachSelf(f, m.Keys, cs[j]); }
    SameRemoval(m, ReachAll(f, m.Keys, cs[..j]), Reach(f, m.Keys, cs[j]), cs[j]);
  }

  lemma SameRemoval<V>(m: map<int, V>, a: set<int>, b: set<int>, c: int)
    requires c in m ==> c in b
    ensures m - a - (b - {c}) - {c} == m - (a + b)
  {
  }

  // How far a walk from `id` can still descend.
  ghost function Depth(ends: Ends, id: int): nat {
    if id in ends && id <= ends[id] then ends[id] - id else 0
  }

  lemma ChildIsSmaller(f: Requests, ends: Ends, id: int, j: int)
    requires Numbered(f, ends) && id in f && 0 <= j < |f[id].childrenQueue|
    ensures Depth(ends, f[id].childrenQueue[j]) < Depth(ends, id) && f[id].childrenQueue[j] in f
  {
    assert Node(f, ends, id);
    BlocksOrder(f, ends, f[id].childrenQueue, id + 1, ends[id]);
  }

  class QtCopyThread {
    var requestQueue: Queue
    var cancelRequest: bool

    method CopyOne(id: int, r: CopyRequest)
      modifies `requestQueue
      ensures requestQueue == old(requestQueue)[id := Fresh(r)]
    {
      requestQueue := requestQueue[id := Fresh(r)];
    }

    method Copy(batch: Requests)
      modifies `requestQueue
      ensures requestQueue == old(requestQueue) + AllFresh(batch)
    {
      var todo := batch.Keys;
      while todo != {}
        invariant todo <= batch.Keys
        invariant requestQueue == old(requestQueue) + (AllFresh(batch) - todo)
      {
        assert (forall x :: x !in todo) ==> todo == {};
        var id :| id in todo;
        requestQueue := requestQueue[id := Fresh(batch[id])];
        todo := todo - {id};
      }
    }

    // cancel(): everything queued is marked, and the worker is asked to stop what it is doing.
    method Cancel()
      modifies `requestQueue, `cancelRequest
      ensures cancelRequest
      ensures requestQueue == WithCanceled(old(requestQueue), old(requestQueue.Keys))
    {
      var todo := requestQueue.Keys;
      while todo != {}
        invariant todo <= old(requestQueue.Keys)
        invariant requestQueue == WithCanceled(old(requestQueue), old(requestQueue.Keys) - todo)
      {
        assert (forall x :: x !in todo) ==> todo == {};
        var id :| id in todo;
        requestQueue := requestQueue[id := requestQueue[id].(marks := requestQueue[id].marks.(canceled := true))];
        todo := todo - {id};
      }
      cancelRequest := true;
    }

    method CancelChildRequests(id: int, ghost f: Requests, ghost ends: Ends)
      requires FromForest(requestQueue, f, ends)
      modifies `requestQueue
      ensures requestQueue == WithCanceled(old(requestQueue), Reach(f, old(requestQueue.Keys), id))
      decreases Depth(ends, id)
    {
      ghost var was, pending := requestQueue, requestQueue.Keys;
      ReachAbsent(f, pending, id);
      if id in requestQueue {
        var r := requestQueue[id];
        requestQueue := requestQueue[id := r.(marks := r.marks.(canceled := true))];
        var children := r.request.childrenQueue;
        ReachAllIs(f, pending, children[..0]);
        var i := 0;
        while i < |children|
          invariant 0 <= i <= |children|
          invariant requestQueue == WithCanceled(was, {id} + ReachAll(f, pending, children[..i]))
        {
          ghost var marked := {id} + ReachAll(f, pending, children[..i]);
          CancelKeepsForest(was, marked, f, ends);
          ChildIsSmaller(f, ends, id, i);
          CancelChildRequests(children[i], f, ends);
          CancelTwice(was, marked, Reach(f, pending, children[i]));
          ReachNext(f, pending, children, i, id);
          i := i + 1;
        }
        assert children[..i] == f[id].childrenQueue;
        ReachUnfolds(f, pending, id);
      }
    }

    method OverwriteChildRequests(id: int, ghost f: Requests, ghost ends: Ends)
      requires FromForest(requestQueue, f, ends)
      modifies `requestQueue
      ensures requestQueue == WithOverwrite(old(requestQueue), Reach(f, old(requestQueue.Keys), id))
      decreases Depth(ends, id)
    {
      ghost var was, pending := requestQueue, requestQueue.Keys;
      ReachAbsent(f, pending, id);
      if id in requestQueue {
        var r := requestQueue[id];
        requestQueue := requestQueue[id := r.(marks := r.marks.(overwrite := true))];
        var children := r.request.childrenQueue;
        ReachAllIs(f, pending, children[..0]);
        var i := 0;
        while i < |children|
          invariant 0 <= i <= |children|
          invariant requestQueue == WithOverwrite(was, {id} + ReachAll(f, pending, children[..i]))
        {
          ghost var marked := {id} + ReachAll(f, pending, children[..i]);
          OverwriteKeepsForest(was, marked, f, ends);
          ChildIsSmaller(f, ends, id, i);
          OverwriteChildRequests(children[i], f, ends);
          OverwriteTwice(was, marked, Reach(f, pending, children[i]));
          ReachNext(f, pending, children, i, id);
          i := i + 1;
        }
        assert children[..i] == f[id].childrenQueue;
        ReachUnfolds(f, pending, id);
      }
    }

    method CancelChildren(id: int, ghost f: Requests, ghost ends: Ends)
      requires FromForest(requestQueue, f, ends)
      modifies `requestQueue
      ensures requestQueue == old(requestQueue) - (Reach(f, old(requestQueue.Keys), id) - {id})
      decreases Depth(ends, id)
    {
      ghost var was, pending := requestQueue, requestQueue.Keys;
      ReachAbsent(f, pending, id);
      if id !in requestQueue { return; }
      var children := requestQueue[id].request.childrenQueue;
      var i := 0;
      while i < |children|
        invariant 0 <= i <= |children|
        invariant requestQueue == was - ReachAll(f, pending, children[..i])
      {
        var childId := children[i];
        ChildIsSmaller(f, ends, id, i);
        RemoveNext(was, f, ends, id, i);
        CancelChildren(childId, f, ends);
        requestQueue := requestQueue - {childId};
        i := i + 1;
      }
      assert children[..i] == f[id].childrenQueue;
      ReachUnfolds(f, pending, id);
      ParentNotBelow(f, ends, pending, id);
    }
  }

  lemma ParentNotBelow(f: Requests, ends: Ends, pending: set<int>, id: int)
    requires Numbered(f, ends) && id in f
    ensures id !in ReachAll(f, pending, f[id].childrenQueue)
  {
    assert Node(f, ends, id);
    BlocksOrder(f, ends, f[id].childrenQueue, id + 1, ends[id]);
    forall c | c in f[id].childrenQueue ensures id !in Reach(f, pending, c) { ReachInside(f, ends, pending, c); }
    ReachAllIs(f, pending, f[id].childrenQueue);
  }

  // ---------- the walks are the steps of the worker's state machine ----------

  ghost predicate Represents(q: Queue, s: State) {
    MarksOf(q) == s.queue && FromForest(q, s.issued.requests, s.issued.ends)
  }

  lemma WalksAreSteps(q: Queue, s: State, id: int)
    requires Represents(q, s)
    ensures var ids := Reach(s.issued.requests, q.Keys, id);
            && MarksOf(WithCanceled(q, ids)) == MarkCanceled(s, id)
            && MarksOf(WithOverwrite(q, ids)) == MarkOverwrite(s, id)
            && MarksOf(q - (ids - {id})) == DropChildren(s, id)
  {
    assert q.Keys == s.queue.Keys;
  }
}
