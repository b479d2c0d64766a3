/** The GUI thread's side of the copier: numbering jobs, handing them over, and listening to the worker. */
module FileCopierPrivate {
  import opened Forest
  import opened CopyThread
  import opened FileCopier
  import opened Numbering
  import opened Wrappers
  import CopyQueue

  datatype CopierState = Idle | Busy | WaitingForInteraction

  // The signals the copier emits to its users.
  datatype Signal =
    | StateChanged(state: CopierState)
    | StartedSignal(id: int)
    | FinishedSignal(id: int, error: bool)
    | ErrorSignal(id: int, err: Error, stopped: bool)
    | CanceledSignal
    | DoneSignal(failed: bool)

  // `progressing`: the progress timer runs.
  datatype Gui = Gui(pending: Pending, state: CopierState, error: bool, progressing: bool, out: seq<Signal>)

  function SetTo(g: Gui, s: CopierState): Gui {
    if g.state == s then g
    else
      g.(state := s, error := if s.Busy? && g.state.Idle? then false else g.error, progressing := s.Busy?,
         out := g.out + [StateChanged(s)])
  }

  function Tell(g: Gui, s: Signal): Gui {
    g.(out := g.out + [s])
  }

  // What the copier does with one signal of the worker.
  ghost function Hear(g: Gui, e: Event): Gui {
    match e
    case Started(id) => Tell(SetTo(g, Busy).(pending := OnSignal(g.pending, e)), StartedSignal(id))
    case Finished(id, error) =>
      var h := Tell(g, FinishedSignal(id, error)).(pending := OnSignal(g.pending, e), error := error || g.error);
      if h.pending.requests.Keys == {} then Tell(SetTo(h, Idle), DoneSignal(h.error)) else h
    case Reported(id, err, stopped) =>
      Tell(if stopped then SetTo(g, WaitingForInteraction) else g, ErrorSignal(id, err, stopped))
    case AllCanceled =>
      Tell(SetTo(Tell(g, CanceledSignal).(pending := OnSignal(g.pending, e)), Idle), DoneSignal(false))
    case Progressed(_) => g
  }

  function IdsOf(stack: seq<int>): Ids {
    if stack == [] then Nil else Cons(stack[|stack| - 1], IdsOf(stack[..|stack| - 1]))
  }

  // A file named in copy() or copyFiles().
  datatype SourceFile = SourceFile(path: string, name: string, isDir: bool)

  // prepareRequest(), which puts the file into the destination if that is a directory.
  function Prepared(file: SourceFile, dest: string, destIsDir: bool, job: Job): CopyRequest {
    Plain(file.path, if destIsDir then Child(dest, file.name) else dest, job, false)
  }

  function FileRequests(files: seq<SourceFile>, dest: string, job: Job): seq<CopyRequest>
    decreases |files|
  {
    if files == [] then []
    else
      var file, before := files[|files| - 1], FileRequests(files[..|files| - 1], dest, job);
      if file.isDir then before else before + [Prepared(file, dest, true, job)]
  }

  predicate RowAt(batch: Requests, n: int, row: seq<CopyRequest>, k: int)
    requires 0 <= k < |row|
  {
    n + k in batch && batch[n + k] == row[k]
  }

  // Independent requests, numbered in order.
  ghost predicate Row(batch: Requests, n: int, row: seq<CopyRequest>) {
    && (forall id :: id in batch <==> n <= id < n + |row|)
    && (forall k :: 0 <= k < |row| ==> RowAt(batch, n, row, k))
  }

  lemma RowSnoc(batch: Requests, n: int, row: seq<CopyRequest>, r: CopyRequest)
    requires Row(batch, n, row)
    ensures Row(batch[n + |row| := r], n, row + [r])
  {
    var longer, more := batch[n + |row| := r], row + [r];
    forall k | 0 <= k < |more| ensures RowAt(longer, n, more, k) {
      if k < |row| { assert RowAt(batch, n, row, k); }
    }
  }

  ghost function RowEnds(batch: Requests): Ends {
    map id | id in batch :: id + 1
  }

  lemma RowIsNumbered(batch: Requests, n: int, row: seq<CopyRequest>)
    requires Row(batch, n, row) && forall k :: 0 <= k < |row| ==> row[k].childrenQueue == []
    ensures Numbered(batch, RowEnds(batch))
  {
    forall id | id in batch ensures Node(batch, RowEnds(batch), id) {
      assert RowAt(batch, n, row, id - n);
    }
  }

  lemma {:induction false} FilesHaveNoChildren(files: seq<SourceFile>, dest: string, job: Job)
    ensures forall k :: 0 <= k < |FileRequests(files, dest, job)| ==>
              FileRequests(files, dest, job)[k].childrenQueue == []
    decreases |files|
  {
    if files != [] { FilesHaveNoChildren(files[..|files| - 1], dest, job); }
  }

  // ---------- a directory while its entries are being listed ----------

  // The numbers in use: `cur` and what was listed below it, up to the next free number `hi`.
  ghost predicate Span(f: Requests, ends: Ends, cur: int, hi: int) {
    cur < hi && (forall id :: id in f <==> cur <= id < hi) && (forall id :: id in ends <==> cur < id < hi)
  }

  ghost predicate NodesBelow(f: Requests, ends: Ends, cur: int)
    requires forall id :: id in f && id != cur ==> id in ends
  {
    forall id {:trigger Node(f, ends, id)} :: id in f && id != cur ==> Node(f, ends, id)
  }

  // Directory `cur` has been given the children numbered so far.
  ghost predicate Under(f: Requests, ends: Ends, cur: int, hi: int, items: seq<Item>, r: CopyRequest) {
    && Span(f, ends, cur, hi) && hi == cur + 1 + |items|
    && r.dir && f[cur].(childrenQueue := []) == r
    && NodesBelow(f, ends, cur) && Blocks(f, ends, f[cur].childrenQueue, cur + 1, hi)
    && Listed(f, ends, cur + 1, items)
  }

  function Adopted(f: Requests, g: Requests, cur: int, child: int): Requests
    requires cur in f
  {
    (f + g)[cur := f[cur].(childrenQueue := f[cur].childrenQueue + [child])]
  }

  lemma AdoptSpan(f: Requests, ends: Ends, cur: int, hi: int, g: Requests, ends': Ends, next: int)
    requires Span(f, ends, cur, hi) && hi < next
    requires g.Keys == ends'.Keys && forall id :: id in g <==> hi <= id < next
    ensures Span(Adopted(f, g, cur, hi), ends + ends', cur, next)
    ensures f.Keys <= Adopted(f, g, cur, hi).Keys && g.Keys <= Adopted(f, g, cur, hi).Keys
    ensures forall id :: id in f && id != cur ==> Adopted(f, g, cur, hi)[id] == f[id]
    ensures forall id :: id in g ==> Adopted(f, g, cur, hi)[id] == g[id]
    ensures forall id :: id in ends ==> (ends + ends')[id] == ends[id]
    ensures forall id :: id in ends' ==> (ends + ends')[id] == ends'[id]
  {
  }

  lemma AdoptNodes(f: Requests, ends: Ends, cur: int, hi: int, g: Requests, ends': Ends, next: int)
    requires Span(f, ends, cur, hi) && NodesBelow(f, ends, cur) && OneTree(g, ends', hi, next)
    ensures Span(Adopted(f, g, cur, hi), ends + ends', cur, next)
    ensures NodesBelow(Adopted(f, g, cur, hi), ends + ends', cur)
  {
    var h, e := Adopted(f, g, cur, hi), ends + ends';
    AdoptSpan(f, ends, cur, hi, g, ends', next);
    forall id | id in h && id != cur ensures Node(h, e, id) {
      if id in f {
        assert Node(f, ends, id);
        NodeGrows(f, ends, h, e, id);
      } else {
        assert Node(g, ends', id);
        NodeGrows(g, ends', h, e, id);
      }
    }
  }

  lemma AdoptBlocks(f: Requests, ends: Ends, cur: int, hi: int, g: Requests, ends': Ends, next: int)
    requires Span(f, ends, cur, hi) && Blocks(f, ends, f[cur].childrenQueue, cur + 1, hi)
    requires hi < next && g.Keys == ends'.Keys && (forall id :: id in g <==> hi <= id < next) && ends'[hi] == next
    ensures Blocks(Adopted(f, g, cur, hi), ends + ends', f[cur].childrenQueue + [hi], cur + 1, next)
  {
    var h, e := Adopted(f, g, cur, hi), ends + ends';
    AdoptSpan(f, ends, cur, hi, g, ends', next);
    BlocksGrow(f, ends, h, e, f[cur].childrenQueue, cur + 1, hi);
    BlocksSnoc(h, e, f[cur].childrenQueue, cur + 1, hi);
  }

  // The next entry, numbered from `hi` on, becomes the last child.
  lemma Adopt(f: Requests, ends: Ends, cur: int, hi: int, items: seq<Item>, r: CopyRequest,
              g: Requests, ends': Ends, next: int, more: seq<Item>)
    requires Under(f, ends, cur, hi, items, r) && OneTree(g, ends', hi, next)
    requires Listed(g, ends', hi, more) && next == hi + |more|
    ensures Under(Adopted(f, g, cur, hi), ends + ends', cur, next, items + more, r)
  {
    var h, e := Adopted(f, g, cur, hi), ends + ends';
    AdoptNodes(f, ends, cur, hi, g, ends', next);
    AdoptBlocks(f, ends, cur, hi, g, ends', next);
    AdoptSpan(f, ends, cur, hi, g, ends', next);
    ListedGrows(f, ends, h, e, cur + 1, items);
    ListedGrows(g, ends', h, e, hi, more);
    ListedAppend(h, e, cur + 1, items, more);
  }

  lemma AdoptFile(f: Requests, ends: Ends, cur: int, hi: int, items: seq<Item>, r: CopyRequest, file: CopyRequest)
    requires Under(f, ends, cur, hi, items, r) && file.childrenQueue == [] && !file.dir
    ensures Under(f[cur := f[cur].(childrenQueue := f[cur].childrenQueue + [hi])][hi := file], ends[hi := hi + 1],
                  cur, hi + 1, items + [Item(file, 1)], r)
  {
    var g, ends' := map[hi := file], map[hi := hi + 1];
    assert OneTree(g, ends', hi, hi + 1);
    assert Listed(g, ends', hi, [Item(file, 1)]);
    Adopt(f, ends, cur, hi, items, r, g, ends', hi + 1, [Item(file, 1)]);
    assert Adopted(f, g, cur, hi) == f[cur := f[cur].(childrenQueue := f[cur].childrenQueue + [hi])][hi := file];
    assert ends + ends' == ends[hi := hi + 1];
  }

  lemma CloseNodes(f: Requests, ends: Ends, cur: int, hi: int)
    requires Span(f, ends, cur, hi) && NodesBelow(f, ends, cur) && f[cur].dir
    requires Blocks(f, ends, f[cur].childrenQueue, cur + 1, hi)
    ensures OneTree(f, ends[cur := hi], cur, hi)
  {
    var e := ends[cur := hi];
    BlocksGrow(f, ends, f, e, f[cur].childrenQueue, cur + 1, hi);
    forall id | id in f ensures Node(f, e, id) {
      if id != cur {
        assert Node(f, ends, id);
        NodeGrows(f, ends, f, e, id);
      }
    }
    forall x ensures x in f <==> x in e {}
  }

  lemma CloseDirectory(f: Requests, ends: Ends, cur: int, hi: int, items: seq<Item>, r: CopyRequest)
    requires Under(f, ends, cur, hi, items, r)
    ensures OneTree(f, ends[cur := hi], cur, hi)
    ensures Listed(f, ends[cur := hi], cur, [Item(r, 1 + |items|)] + items)
  {
    CloseNodes(f, ends, cur, hi);
    ListedGrows(f, ends, f, ends[cur := hi], cur + 1, items);
    assert Listed(f, ends[cur := hi], cur, [Item(r, 1 + |items|)]);
    ListedAppend(f, ends[cur := hi], cur, [Item(r, 1 + |items|)], items);
  }

  method FirstKey(batch: Requests) returns (first: int)
    requires batch != map[]
    ensures IsLeast(batch.Keys, first)
  {
    var todo := batch.Keys;
    assert (forall x :: x !in todo) ==> batch == map[];
    first :| first in todo;
    while todo != {}
      invariant todo <= batch.Keys && first in batch
      invariant forall x :: x in batch && x !in todo ==> first <= x
    {
      assert (forall x :: x !in todo) ==> todo == {};
      var x :| x in todo;
      if x < first { first := x; }
      todo := todo - {x};
    }
  }

  class QtFileCopierPrivate {
    const copyThread: CopyQueue.QtCopyThread
    var state: CopierState
    var error: bool
    var progressing: bool
    var idCounter: int
    var currentStack: seq<int>
    var requests: Requests
    var signals: seq<Signal>

    ghost function View(): Gui
      reads this
    {
      Gui(Pending(requests, IdsOf(currentStack)), state, error, progressing, signals)
    }

    constructor (thread: CopyQueue.QtCopyThread)
      ensures copyThread == thread && idCounter == 0
      ensures View() == Gui(Pending(map[], Nil), Idle, false, false, [])
    {
      copyThread := thread;
      idCounter, state, error, progressing := 0, Idle, false, false;
      currentStack, requests, signals := [], map[], [];
    }

    // ---------- numbering ----------

    // The links in a directory, or the other files in it, become its next children.
    method AddFiles(files: seq<FileEntry>, links: bool, source: string, dest: string, job: Job, curId: int,
                    before: Requests, ghost endsBefore: Ends, ghost items: seq<Item>, ghost r: CopyRequest)
      returns (resultList: Requests, ghost ends: Ends)
      requires Under(before, endsBefore, curId, idCounter, items, r)
      modifies `idCounter
      ensures Under(resultList, ends, curId, idCounter, items + ListFiles(files, links, source, dest, job), r)
    {
      resultList, ends := before, endsBefore;
      ghost var listed := items;
      var i := 0;
      while i < |files|
        invariant 0 <= i <= |files|
        invariant listed == items + ListFiles(files[..i], links, source, dest, job)
        invariant Under(resultList, ends, curId, idCounter, listed, r)
      {
        var e := files[i];
        assert files[..i + 1][..i] == files[..i];
        if !e.isDir && e.isSymLink == links {
          var file := Plain(Child(source, e.name), Child(dest, e.name), job, false);
          AdoptFile(resultList, ends, curId, idCounter, listed, r, file);
          var cur := resultList[curId];
          resultList := resultList[curId := cur.(childrenQueue := cur.childrenQueue + [idCounter])];
          resultList := resultList[idCounter := file];
          ends, listed := ends[idCounter := idCounter + 1], listed + [Item(file, 1)];
          idCounter := idCounter + 1;
        }
        i := i + 1;
      }
      assert files[..i] == files;
    }

    // So does each sub-directory, with everything below it.
    method AddDirs(dirs: seq<DirTree>, source: string, dest: string, job: Job, curId: int, before: Requests,
                   ghost endsBefore: Ends, ghost r: CopyRequest)
      returns (resultList: Requests, ghost ends: Ends)
      requires Under(before, endsBefore, curId, idCounter, [], r)
      modifies `idCounter
      ensures Under(resultList, ends, curId, idCounter, ListDirs(dirs, source, dest, job), r)
      decreases dirs, 0
    {
      resultList, ends := before, endsBefore;
      ghost var items: seq<Item> := [];
      var i := 0;
      while i < |dirs|
        invariant 0 <= i <= |dirs|
        invariant items == ListDirs(dirs[..i], source, dest, job)
        invariant Under(resultList, ends, curId, idCounter, items, r)
      {
        var d := dirs[i];
        assert dirs[..i + 1][..i] == dirs[..i];
        if !Special(d.name) {
          ghost var hi, more := idCounter, Listing(d, Child(source, d.name), Child(dest, d.name), job);
          var childDir, childEnds := CopyDirectoryContents(d, Child(source, d.name), Child(dest, d.name), job);
          var first := FirstKey(childDir);
          Adopt(resultList, ends, curId, hi, items, r, childDir, childEnds, idCounter, more);
          RootIsFirst(childDir, childEnds, hi, idCounter, first);
          resultList := Adopted(resultList, childDir, curId, first);
          ends, items := ends + childEnds, items + more;
        }
        i := i + 1;
      }
      assert dirs[..i] == dirs;
    }

    method CopyDirectoryContents(t: DirTree, source: string, dest: string, job: Job)
      returns (resultList: Requests, ghost ends: Ends)
      modifies `idCounter
      ensures OneTree(resultList, ends, old(idCounter), idCounter)
      ensures idCounter == old(idCounter) + |Listing(t, source, dest, job)|
      ensures Listed(resultList, ends, old(idCounter), Listing(t, source, dest, job))
      decreases t, 1
    {
      var r := Plain(source, dest, job, true);
      var curId := idCounter;
      resultList, ends := map[curId := r], map[];
      idCounter := idCounter + 1;
      StartDirectory(curId, r);
      ghost var items: seq<Item> := [];
      if !IsLeaf(t, job) {
        resultList, ends := AddDirs(t.dirs, source, dest, job, curId, resultList, ends, r);
        items := ListDirs(t.dirs, source, dest, job);
        resultList, ends := AddFiles(t.files, true, source, dest, job, curId, resultList, ends, items, r);
        items := items + ListFiles(t.files, true, source, dest, job);
        resultList, ends := AddFiles(t.files, false, source, dest, job, curId, resultList, ends, items, r);
        items := items + ListFiles(t.files, false, source, dest, job);
      }
      CloseDirectory(resultList, ends, curId, idCounter, items, r);
      ends := ends[curId := idCounter];
    }

    // ---------- handing jobs to the worker ----------

    method Copy(file: SourceFile, dest: string, destIsDir: bool, job: Job) returns (id: int)
      modifies `requests, `idCounter, copyThread`requestQueue
      ensures id == old(idCounter) && idCounter == id + 1
      ensures requests == old(requests)[id := Prepared(file, dest, destIsDir, job)]
      ensures copyThread.requestQueue ==
              old(copyThread.requestQueue)[id := CopyQueue.Fresh(Prepared(file, dest, destIsDir, job))]
    {
      var r := Prepared(file, dest, destIsDir, job);
      id := idCounter;
      requests := requests[id := r];
      copyThread.CopyOne(id, r);
      idCounter := idCounter + 1;
    }

    method CopyFiles(files: seq<SourceFile>, dest: string, destIsDir: bool, job: Job)
      returns (ids: set<int>, ghost batch: Requests)
      modifies `requests, `idCounter, copyThread`requestQueue
      ensures Row(batch, old(idCounter), if destIsDir then FileRequests(files, dest, job) else [])
      ensures Numbered(batch, RowEnds(batch)) && ids == batch.Keys
      ensures idCounter == old(idCounter) + if destIsDir then |FileRequests(files, dest, job)| else 0
      ensures requests == old(requests) + batch
      ensures copyThread.requestQueue == old(copyThread.requestQueue) + CopyQueue.AllFresh(batch)
    {
      var resultList: Requests := map[];
      if destIsDir {
        var i := 0;
        while i < |files|
          invariant 0 <= i <= |files|
          invariant Row(resultList, old(idCounter), FileRequests(files[..i], dest, job))
          invariant idCounter == old(idCounter) + |FileRequests(files[..i], dest, job)|
          invariant requests == old(requests) + resultList
          invariant copyThread.requestQueue == old(copyThread.requestQueue)
        {
          assert files[..i + 1][..i] == files[..i];
          if !files[i].isDir {
            var r := Prepared(files[i], dest, true, job);
            RowSnoc(resultList, old(idCounter), FileRequests(files[..i], dest, job), r);
            requests := requests[idCounter := r];
            resultList := resultList[idCounter := r];
            idCounter := idCounter + 1;
          }
          i := i + 1;
        }
        assert files[..i] == files;
      }
      batch := resultList;
      FilesHaveNoChildren(files, dest, job);
      RowIsNumbered(batch, old(idCounter), if destIsDir then FileRequests(files, dest, job) else []);
      if resultList.Keys == {} { return {}, batch; }
      copyThread.Copy(resultList);
      ids := resultList.Keys;
    }

    // `found` is the tree below the source, if that exists and is a directory.
    method CopyDirectory(found: Option<DirTree>, source: string, dest: string, destIsDir: bool, job: Job)
      returns (ids: set<int>, ghost batch: Requests, ghost ends: Ends)
      modifies `requests, `idCounter, copyThread`requestQueue
      ensures found.None? ==> batch == map[] && idCounter == old(idCounter)
      ensures found.Some? ==>
        && OneTree(batch, ends, old(idCounter), idCounter)
        && Listed(batch, ends, old(idCounter),
                  Listing(found.value, source, Target(dest, destIsDir, found.value.name), job))
      ensures ids == batch.Keys && requests == old(requests) + batch
      ensures copyThread.requestQueue == old(copyThread.requestQueue) + CopyQueue.AllFresh(batch)
    {
      var resultList: Requests := map[];
      ends := map[];
      if found.Some? {
        resultList, ends := CopyDirectoryContents(found.value, source, Target(dest, destIsDir, found.value.name), job);
      }
      batch := resultList;
      if resultList.Keys == {} { return {}, batch, ends; }
      requests := requests + resultList;
      copyThread.Copy(resultList);
      ids := resultList.Keys;
    }

    // ---------- listening to the worker ----------

    method SetState(s: CopierState)
      modifies this
      ensures View() == SetTo(old(View()), s) && idCounter == old(idCounter)
    {
      if state == s { return; }
      if s == Busy {
        progressing := true;
        if state == Idle { error := false; }
      } else {
        progressing := false;
      }
      signals := signals + [StateChanged(s)];
      state := s;
    }

    method CopyError(id: int, err: Error, stopped: bool)
      modifies this
      ensures View() == Hear(old(View()), Reported(id, err, stopped)) && idCounter == old(idCounter)
    {
      if stopped { SetState(WaitingForInteraction); }
      signals := signals + [ErrorSignal(id, err, stopped)];
    }

    method CopyStarted(id: int)
      modifies this
      ensures View() == Hear(old(View()), Started(id)) && idCounter == old(idCounter)
    {
      SetState(Busy);
      assert (currentStack + [id])[..|currentStack|] == currentStack;
      currentStack := currentStack + [id];
      signals := signals + [StartedSignal(id)];
    }

    // The worker's signals nest, so the popped id is the finished one.
    method CopyFinished(id: int, err: bool, ghost f: Requests, ghost ends: Ends)
      requires FromForest(requests, f, ends)
      requires currentStack != [] && currentStack[|currentStack| - 1] == id
      modifies this
      ensures View() == Hear(old(View()), Finished(id, err)) && idCounter == old(idCounter)
    {
      currentStack := currentStack[..|currentStack| - 1];
      signals := signals + [FinishedSignal(id, err)];
      if err {
        error := err;
        RemoveChildren(id, f, ends);
      }
      requests := requests - {id};
      if requests.Keys == {} {
        SetState(Idle);
        signals := signals + [DoneSignal(error)];
      }
    }

    method CopyCanceled()
      modifies this
      ensures View() == Hear(old(View()), AllCanceled) && idCounter == old(idCounter)
    {
      requests := map[];
      signals := signals + [CanceledSignal];
      SetState(Idle);
      signals := signals + [DoneSignal(false)];
    }

    method RemoveChildren(id: int, ghost f: Requests, ghost ends: Ends)
      requires FromForest(requests, f, ends)
      modifies `requests
      ensures requests == WithoutChildren(old(requests), id)
      decreases CopyQueue.Depth(ends, id)
    {
      ghost var was, pending := requests, requests.Keys;
      WithoutAgrees(was, f, ends, id);
      ReachAbsent(f, pending, id);
      if id !in requests { return; }
      var children := requests[id].childrenQueue;
      var i := 0;
      while i < |children|
        invariant 0 <= i <= |children|
        invariant requests == was - ReachAll(f, pending, children[..i])
      {
        var childId := children[i];
        CopyQueue.ChildIsSmaller(f, ends, id, i);
        CopyQueue.RemoveNext(was, f, ends, id, i);
        WithoutAgrees(requests, f, ends, childId);
        RemoveChildren(childId, f, ends);
        requests := requests - {childId};
        i := i + 1;
      }
      assert children[..i] == f[id].childrenQueue;
      ReachUnfolds(f, pending, id);
      CopyQueue.ParentNotBelow(f, ends, pending, id);
    }
  }

  lemma WithoutAgrees(r: Requests, f: Requests, ends: Ends, id: int)
    requires FromForest(r, f, ends)
    ensures WithoutChildren(r, id) == r - (Reach(f, r.Keys, id) - {id})
  {
    ReachAgrees(r, f, r.Keys, id);
  }

  function Target(dest: string, destIsDir: bool, name: string): string {
    if destIsDir then Child(dest, name) else dest
  }

  lemma StartDirectory(cur: int, r: CopyRequest)
    requires r.dir && r.childrenQueue == []
    ensures Under(map[cur := r], map[], cur, cur + 1, [], r)
  {
  }

  lemma RootIsFirst(f: Requests, ends: Ends, lo: int, hi: int, first: int)
    requires OneTree(f, ends, lo, hi) && IsLeast(f.Keys, first)
    ensures first == lo
  {
    assert lo in f;
  }
}
