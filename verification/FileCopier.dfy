/** The GUI side of the copier: its own copy of the forest, driven by the worker's signals. */
module FileCopier {
  import opened Forest
  import opened CopyThread

  // `requests` and `currentStack` of QtFileCopierPrivate.
  datatype Pending = Pending(requests: Requests, stack: Ids)

  // removeChildren(): everything below `id` that can be reached through pending requests.
  ghost function WithoutChildren(r: Requests, id: int): Requests {
    r - (Reach(r, r.Keys, id) - {id})
  }

  ghost function OnSignal(p: Pending, e: Event): Pending {
    match e
    case Started(id) => p.(stack := Cons(id, p.stack))
    case Finished(id, error) =>
      Pending((if error then WithoutChildren(p.requests, id) else p.requests) - {id},
              if p.stack.Cons? then p.stack.tail else Nil)
    case AllCanceled => p.(requests := map[])
    case _ => p
  }

  // done() is emitted after a finished request when nothing is pending any more, and after canceled().
  ghost predicate EmitsDone(p: Pending, e: Event) {
    e.AllCanceled? || (e.Finished? && OnSignal(p, e).requests.Keys == {})
  }

  // The signals in `inbox` delivered in order.
  ghost function Play(p: Pending, inbox: seq<Event>): Pending
    decreases |inbox|
  {
    if inbox == [] then p else Play(OnSignal(p, inbox[0]), inbox[1..])
  }

  lemma {:induction false} PlayAppend(p: Pending, inbox: seq<Event>, e: Event)
    ensures Play(p, inbox + [e]) == OnSignal(Play(p, inbox), e)
    decreases |inbox|
  {
    if inbox == [] {
      assert ([] + [e])[1..] == [];
    } else {
      assert (inbox + [e])[1..] == inbox[1..] + [e];
      PlayAppend(OnSignal(p, inbox[0]), inbox[1..], e);
    }
  }

  // ---------- a listener's bookkeeping is sound ----------

  // The open requests are pending, and each was opened inside the one below it on the stack.
  predicate StackPending(stack: Ids, requests: Requests) {
    stack.Cons? ==>
      && stack.head in requests && StackPending(stack.tail, requests)
      && (stack.tail.Cons? ==> stack.tail.head < stack.head)
  }

  // A signal the listener can account for.
  predicate Expected(p: Pending, e: Event) {
    match e
    case Started(id) => id in p.requests && (p.stack.Cons? ==> p.stack.head < id)
    case Finished(id, _) => p.stack.Cons? && p.stack.head == id
    case Reported(id, _, _) => p.stack.Cons? && p.stack.head == id
    case Progressed(id) => p.stack.Cons? && p.stack.head == id
    case AllCanceled => false
  }

  ghost predicate AllExpected(p: Pending, inbox: seq<Event>)
    decreases |inbox|
  {
    inbox == [] || (Expected(p, inbox[0]) && AllExpected(OnSignal(p, inbox[0]), inbox[1..]))
  }

  lemma {:induction false} ExpectedAppend(p: Pending, inbox: seq<Event>, e: Event)
    requires AllExpected(p, inbox) && Expected(Play(p, inbox), e)
    ensures AllExpected(p, inbox + [e])
    decreases |inbox|
  {
    if inbox == [] {
      assert ([] + [e])[1..] == [];
    } else {
      assert (inbox + [e])[1..] == inbox[1..] + [e];
      ExpectedAppend(OnSignal(p, inbox[0]), inbox[1..], e);
    }
  }

  // What the listener needs to know of the requests it holds: they come from a numbered forest.
  ghost predicate FromForest(requests: Requests, f: Requests, ends: Ends) {
    Numbered(f, ends) && forall x :: x in requests ==> x in f && requests[x] == f[x]
  }

  lemma {:induction false} StackBound(stack: Ids, requests: Requests, bound: int)
    requires StackPending(stack, requests) && (stack.Cons? ==> stack.head < bound)
    ensures forall r: Requests :: (forall x :: x in requests && x < bound ==> x in r) ==> StackPending(stack, r)
  {
    if stack.Cons? {
      StackBound(stack.tail, requests, bound);
    }
  }

  lemma SignalKeepsStack(p: Pending, e: Event, f: Requests, ends: Ends)
    requires StackPending(p.stack, p.requests) && Expected(p, e) && FromForest(p.requests, f, ends)
    ensures StackPending(OnSignal(p, e).stack, OnSignal(p, e).requests)
    ensures FromForest(OnSignal(p, e).requests, f, ends)
  {
    if e.Finished? {
      var id := e.id;
      ReachAgrees(p.requests, f, p.requests.Keys, id);
      ReachInside(f, ends, p.requests.Keys, id);
      StackBound(p.stack.tail, p.requests, id);
      var r := OnSignal(p, e).requests;
      assert forall x :: x in p.requests && x < id ==> x in r;
    }
  }

  // ---------- a new batch commutes with the signals on their way ----------

  lemma FinishCommutes(p: Pending, e: Event, batch: Requests, f: Requests, ends: Ends, n: int)
    requires FromForest(p.requests, f, ends) && Expected(p, e) && StackPending(p.stack, p.requests)
    requires forall x :: x in f ==> x < ends[x] <= n
    requires forall x :: x in batch ==> n <= x
    ensures OnSignal(p.(requests := p.requests + batch), e)
            == OnSignal(p, e).(requests := OnSignal(p, e).requests + batch)
    ensures Expected(p.(requests := p.requests + batch), e)
  {
    if e.Finished? {
      var big := p.requests + batch;
      assert e.id in p.requests;
      forall x | x in p.requests ensures x < n && x in big && big[x] == p.requests[x] { assert x in f && x !in batch; }
      ReachIgnoresLater(p.requests, big, f, ends, e.id, n);
      DropCommutes(p.requests, batch, Reach(p.requests, p.requests.Keys, e.id), e.id, n);
    }
  }

  lemma DropCommutes(r: Requests, batch: Requests, dropped: set<int>, id: int, n: int)
    requires forall x :: x in dropped ==> x < n
    requires id < n && forall x :: x in batch ==> n <= x
    ensures (r + batch) - (dropped - {id}) - {id} == (r - (dropped - {id}) - {id}) + batch
    ensures (r + batch) - {id} == (r - {id}) + batch
  {
    assert forall x :: x in batch ==> x !in dropped && x != id;
    var a, b := (r + batch) - (dropped - {id}), r - (dropped - {id}) + batch;
    assert a.Keys == b.Keys && a == b;
    assert a - {id} == (r - (dropped - {id}) - {id}) + batch;
  }

  // Requests numbered later cannot be below an earlier one.
  lemma ReachIgnoresLater(small: Requests, big: Requests, f: Requests, ends: Ends, id: int, n: int)
    requires FromForest(small, f, ends) && id in small
    requires forall x :: x in f ==> ends[x] <= n
    requires forall x :: x in small ==> x in big && big[x] == small[x]
    requires forall x :: x in big && x < n ==> x in small
    ensures Reach(big, big.Keys, id) == Reach(small, small.Keys, id)
  {
    ForestBelow(small, f, ends, n);
    forall x | x in Reach(big, big.Keys, id) ensures x in Reach(small, small.Keys, id) {
      var p :| Path(big, big.Keys, p) && p[0] == id && p[|p| - 1] == x;
      PathBelow(small, big, p, n);
      assert Path(small, small.Keys, p);
    }
    forall x | x in Reach(small, small.Keys, id) ensures x in Reach(big, big.Keys, id) {
      var p :| Path(small, small.Keys, p) && p[0] == id && p[|p| - 1] == x;
      PathUp(small, big, p);
    }
  }

  predicate ChildrenBelow(requests: Requests, n: int) {
    forall x, c :: x in requests && c in requests[x].childrenQueue ==> c < n
  }

  lemma ForestBelow(requests: Requests, f: Requests, ends: Ends, n: int)
    requires FromForest(requests, f, ends) && forall x :: x in f ==> ends[x] <= n
    ensures ChildrenBelow(requests, n)
  {
    forall x, c | x in requests && c in requests[x].childrenQueue ensures c < n {
      assert Node(f, ends, x);
      BlocksOrder(f, ends, f[x].childrenQueue, x + 1, ends[x]);
    }
  }

  predicate Extends(small: Requests, big: Requests, n: int) {
    && (forall x :: x in small ==> x in big && big[x] == small[x])
    && (forall x :: x in big && x < n ==> x in small)
  }

  lemma {:induction false} PathBelow(small: Requests, big: Requests, p: seq<int>, n: int)
    requires ChildrenBelow(small, n) && Extends(small, big, n)
    requires Path(big, big.Keys, p) && p[0] in small
    ensures Path(small, small.Keys, p) && p[|p| - 1] in small
    decreases |p|
  {
    if |p| > 1 {
      var x, q := p[0], p[1..];
      assert big[x] == small[x] && q[0] in small[x].childrenQueue;
      assert Path(big, big.Keys, q) && q[0] in big && q[0] < n;
      PathBelow(small, big, q, n);
    }
  }

  lemma {:induction false} PathUp(small: Requests, big: Requests, p: seq<int>)
    requires Path(small, small.Keys, p)
    requires forall x :: x in small ==> x in big && big[x] == small[x]
    ensures Path(big, big.Keys, p) && p[|p| - 1] in big
    decreases |p|
  {
    var x := p[0];
    assert x in small.Keys && x in big && big[x] == small[x];
    if |p| > 1 { PathUp(small, big, p[1..]); }
  }

  lemma {:induction false} BatchCommutes(p: Pending, inbox: seq<Event>, batch: Requests, f: Requests, ends: Ends,
                                         n: int)
    requires FromForest(p.requests, f, ends) && AllExpected(p, inbox) && StackPending(p.stack, p.requests)
    requires forall x :: x in f ==> x < ends[x] <= n
    requires forall x :: x in batch ==> n <= x
    ensures var q := p.(requests := p.requests + batch);
            && Play(q, inbox) == Play(p, inbox).(requests := Play(p, inbox).requests + batch)
            && AllExpected(q, inbox)
    decreases |inbox|
  {
    if inbox != [] {
      FinishCommutes(p, inbox[0], batch, f, ends, n);
      SignalKeepsStack(p, inbox[0], f, ends);
      BatchCommutes(OnSignal(p, inbox[0]), inbox[1..], batch, f, ends, n);
    }
  }
}
