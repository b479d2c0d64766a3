/** The byte accounting of the copy dialog.

    The dialog learns of jobs through the copier's signals and looks the rest up in the copier's pending
    requests.  Its finished() runs before the copier drops the request, so the failed directory and what is
    pending below it can still be looked up; what has finished before cannot, but is subtracted all the same.
 */
module CopyDialog {
  import opened Forest
  import opened CopyThread
  import opened CleanRuns
  import opened FileCopier
  import opened Mirror
  import opened FileCopierPrivate
  import opened DoneSignal
  import CopyQueue

  datatype Request = Request(source: string, dest: string, size: int)

  // The counters of the dialog.
  datatype Account = Account(totalSize: int, currentDone: int, currentProgress: int, lastCurrentId: int,
                             requests: map<int, Request>)

  // Looking up an unknown request yields an empty one.
  function Lookup(requests: map<int, Request>, id: int): Request {
    if id in requests then requests[id] else Request("", "", 0)
  }

  ghost function Sum(requests: map<int, Request>, ids: set<int>): int
    decreases |ids|
  {
    if ids == {} then 0
    else
      var x := Least(ids);
      Lookup(requests, x).size + Sum(requests, ids - {x})
  }

  lemma {:induction false} SumRemove(requests: map<int, Request>, ids: set<int>, x: int)
    requires x in ids
    ensures Sum(requests, ids) == Lookup(requests, x).size + Sum(requests, ids - {x})
    decreases |ids|
  {
    var y := Least(ids);
    if y != x {
      SumRemove(requests, ids - {y}, x);
      SumRemove(requests, ids - {x}, y);
      assert ids - {y} - {x} == ids - {x} - {y};
    }
  }

  lemma {:induction false} SumUnion(requests: map<int, Request>, a: set<int>, b: set<int>)
    requires a !! b
    ensures Sum(requests, a + b) == Sum(requests, a) + Sum(requests, b)
    decreases |a|
  {
    if a == {} {
      assert a + b == b;
    } else {
      assert (forall x :: x !in a) ==> a == {};
      var x :| x in a;
      SumRemove(requests, a, x);
      SumRemove(requests, a + b, x);
      assert (a + b) - {x} == (a - {x}) + b;
      SumUnion(requests, a - {x}, b);
    }
  }

  lemma {:induction false} SumSame(requests: map<int, Request>, other: map<int, Request>, ids: set<int>)
    requires forall x :: x in ids ==> Lookup(requests, x).size == Lookup(other, x).size
    ensures Sum(requests, ids) == Sum(other, ids)
    decreases |ids|
  {
    if ids != {} {
      assert (forall x :: x !in ids) ==> ids == {};
      var x :| x in ids;
      SumRemove(requests, ids, x);
      SumRemove(other, ids, x);
      SumSame(requests, other, ids - {x});
    }
  }

  lemma {:induction false} SumUnknown(requests: map<int, Request>, ids: set<int>)
    requires forall x :: x in ids ==> x !in requests
    ensures Sum(requests, ids) == 0
    decreases |ids|
  {
    if ids != {} {
      assert (forall x :: x !in ids) ==> ids == {};
      var x :| x in ids;
      SumRemove(requests, ids, x);
      SumUnknown(requests, ids - {x});
    }
  }

  // ---------- what childrenCanceled() walks over ----------

  // Everything listed by a directory that can be reached through pending requests, pending itself or not.
  ghost function Below(r: Requests, id: int): set<int> {
    set y, x | y in Reach(r, r.Keys, id) && y in r && x in r[y].childrenQueue :: x
  }

  // The sizes subtracted for the first `j` children of `id`, and for everything below them.
  ghost function WalkedTo(r: Requests, f: Requests, ends: Ends, requests: map<int, Request>, id: int, j: int): int
    requires FromForest(r, f, ends) && id in r && 0 <= j <= |r[id].childrenQueue|
    decreases CopyQueue.Depth(ends, id), 0, j
  {
    if j == 0 then 0
    else
      var c := r[id].childrenQueue[j - 1];
      CopyQueue.ChildIsSmaller(f, ends, id, j - 1);
      WalkedTo(r, f, ends, requests, id, j - 1) + Lookup(requests, c).size + Walked(r, f, ends, requests, c)
  }

  ghost function Walked(r: Requests, f: Requests, ends: Ends, requests: map<int, Request>, id: int): int
    requires FromForest(r, f, ends)
    decreases CopyQueue.Depth(ends, id), 1, 0
  {
    if id !in r || !r[id].dir then 0 else WalkedTo(r, f, ends, requests, id, |r[id].childrenQueue|)
  }

  ghost function BelowTo(r: Requests, cs: seq<int>): set<int> {
    (set c | c in cs) + (set c, x | c in cs && x in Below(r, c) :: x)
  }

  lemma BelowInside(r: Requests, f: Requests, ends: Ends, id: int)
    requires FromForest(r, f, ends)
    ensures forall x :: x in Below(r, id) ==> id in ends && id < x < ends[id]
  {
    ReachAgrees(r, f, r.Keys, id);
    ReachInside(f, ends, r.Keys, id);
    forall x | x in Below(r, id) ensures id in ends && id < x < ends[id] {
      var y :| y in Reach(r, r.Keys, id) && y in r && x in r[y].childrenQueue;
      ListedInside(f, ends, id, y, x);
    }
  }

  lemma ListedInside(f: Requests, ends: Ends, id: int, y: int, x: int)
    requires Numbered(f, ends) && id in f && id <= y < ends[id] && y in f && x in f[y].childrenQueue
    ensures id < x < ends[id]
  {
    BlocksNest(f, ends, id, y);
    assert Node(f, ends, y);
    BlocksOrder(f, ends, f[y].childrenQueue, y + 1, ends[y]);
  }

  lemma BelowUnfolds(r: Requests, id: int)
    requires id in r
    ensures Below(r, id) == BelowTo(r, r[id].childrenQueue)
  {
    var cs := r[id].childrenQueue;
    ReachUnfolds(r, r.Keys, id);
    ReachAllIs(r, r.Keys, cs);
    forall x | x in Below(r, id) ensures x in BelowTo(r, cs) {
      var y :| y in Reach(r, r.Keys, id) && y in r && x in r[y].childrenQueue;
      if y != id {
        var c :| c in cs && y in Reach(r, r.Keys, c);
        assert x in Below(r, c);
      }
    }
    forall x | x in BelowTo(r, cs) ensures x in Below(r, id) {
      if x in cs {
        ReachSelf(r, r.Keys, id);
      } else {
        var c :| c in cs && x in Below(r, c);
        var y :| y in Reach(r, r.Keys, c) && y in r && x in r[y].childrenQueue;
        assert y in Reach(r, r.Keys, id);
      }
    }
  }

  lemma {:induction false} WalkedToIsSum(r: Requests, f: Requests, ends: Ends, requests: map<int, Request>, id: int,
                                         j: int)
    requires FromForest(r, f, ends) && id in r && 0 <= j <= |r[id].childrenQueue|
    ensures WalkedTo(r, f, ends, requests, id, j) == Sum(requests, BelowTo(r, r[id].childrenQueue[..j]))
    decreases CopyQueue.Depth(ends, id), 0, j
  {
    if j > 0 {
      CopyQueue.ChildIsSmaller(f, ends, id, j - 1);
      WalkedToIsSum(r, f, ends, requests, id, j - 1);
      WalkedIsSum(r, f, ends, requests, r[id].childrenQueue[j - 1]);
      NextBelow(r, f, ends, requests, id, j - 1);
      assert j - 1 + 1 == j;
    } else {
      NothingBelow(r, r[id].childrenQueue);
    }
  }

  lemma NothingBelow(r: Requests, cs: seq<int>)
    ensures BelowTo(r, cs[..0]) == {}
  {
  }

  lemma NextBelow(r: Requests, f: Requests, ends: Ends, requests: map<int, Request>, id: int, j: int)
    requires FromForest(r, f, ends) && id in r && 0 <= j < |r[id].childrenQueue|
    ensures var cs := r[id].childrenQueue;
            Sum(requests, BelowTo(r, cs[..j + 1]))
            == Sum(requests, BelowTo(r, cs[..j])) + Lookup(requests, cs[j]).size + Sum(requests, Below(r, cs[j]))
  {
    var cs := r[id].childrenQueue;
    var c, before := cs[j], BelowTo(r, cs[..j]);
    EarlierBelow(r, f, ends, id, j);
    BelowInside(r, f, ends, c);
    BelowSnoc(r, cs, j);
    SumUnion(requests, before, {c} + Below(r, c));
    SumRemove(requests, {c} + Below(r, c), c);
    assert ({c} + Below(r, c)) - {c} == Below(r, c);
  }

  lemma BelowSnoc(r: Requests, cs: seq<int>, j: int)
    requires 0 <= j < |cs|
    ensures BelowTo(r, cs[..j + 1]) == BelowTo(r, cs[..j]) + ({cs[j]} + Below(r, cs[j]))
  {
    assert cs[..j + 1] == cs[..j] + [cs[j]];
  }

  // What hangs below earlier children is numbered below the next child.
  lemma EarlierBelow(r: Requests, f: Requests, ends: Ends, id: int, j: int)
    requires FromForest(r, f, ends) && id in r && 0 <= j < |r[id].childrenQueue|
    ensures forall x :: x in BelowTo(r, r[id].childrenQueue[..j]) ==> x < r[id].childrenQueue[j]
  {
    var cs := r[id].childrenQueue;
    assert Node(f, ends, id);
    BlocksOrder(f, ends, cs, id + 1, ends[id]);
    forall c | c in cs[..j] ensures c < cs[j] && forall x :: x in Below(r, c) ==> x < cs[j] {
      var i :| 0 <= i < j && cs[i] == c;
      BlocksSorted(f, ends, cs, id + 1, ends[id], i, j);
      BelowInside(r, f, ends, c);
    }
  }

  lemma {:induction false} WalkedIsSum(r: Requests, f: Requests, ends: Ends, requests: map<int, Request>, id: int)
    requires FromForest(r, f, ends)
    ensures Walked(r, f, ends, requests, id) == Sum(requests, Below(r, id))
    decreases CopyQueue.Depth(ends, id), 1, 0
  {
    if id in r {
      var cs := r[id].childrenQueue;
      BelowUnfolds(r, id);
      assert cs[..|cs|] == cs;
      if r[id].dir {
        WalkedToIsSum(r, f, ends, requests, id, |cs|);
      } else {
        assert Node(f, ends, id);
        assert BelowTo(r, cs) == {};
      }
    } else {
      ReachAbsent(r, r.Keys, id);
      assert Below(r, id) == {};
    }
  }

  // ---------- the slots ----------

  function OnStarted(a: Account, id: int, size: int): Account {
    a.(lastCurrentId := id, currentProgress := 0,
       totalSize := a.totalSize - Lookup(a.requests, id).size + size,
       requests := a.requests[id := Lookup(a.requests, id).(size := size)])
  }

  ghost function OnFinished(a: Account, r: Requests, f: Requests, ends: Ends, id: int, error: bool, currentId: int)
    : Account
    requires FromForest(r, f, ends)
  {
    var left := a.totalSize - Lookup(a.requests, id).size;
    a.(currentProgress := 0, lastCurrentId := if currentId < 0 then id else currentId,
       currentDone := if error then a.currentDone else a.currentDone + a.currentProgress,
       totalSize := if error then left - Walked(r, f, ends, a.requests, id) else left + a.currentProgress)
  }

  // Every pending request is registered afresh; a directory counts nothing.
  ghost function OnReset(r: Requests, sizeOf: int -> int): Account {
    var requests := map x | x in r :: Request(r[x].source, r[x].dest, if r[x].dir then 0 else sizeOf(x));
    Account(Sum(requests, r.Keys), 0, 0, NONE, requests)
  }

  function HeadOf(ids: Ids): int {
    if ids.Cons? then ids.head else NONE
  }

  // One delivered signal; `sizeOf` is what the file system says about sizes and progress at that moment.
  ghost function Booked(a: Account, g: Gui, e: Event, f: Requests, ends: Ends, sizeOf: int -> int): Account
    requires FromForest(g.pending.requests, f, ends)
  {
    match e
    case Started(id) => OnStarted(if g.state.Idle? then OnReset(g.pending.requests, sizeOf) else a, id, sizeOf(id))
    case Progressed(id) => a.(currentProgress := sizeOf(id))
    case Finished(id, error) =>
      OnFinished(a, g.pending.requests, f, ends, id, error, HeadOf(OnSignal(g.pending, e).stack))
    case AllCanceled => a.(totalSize := a.currentDone)
    case Reported(_, _, _) => a
  }

  class QtCopyDialogPrivate {
    const fileCopier: QtFileCopierPrivate
    var requests: map<int, Request>
    var totalSize: int
    var currentProgress: int
    var currentDone: int
    var lastCurrentId: int

    constructor (copier: QtFileCopierPrivate)
      ensures fileCopier == copier && View() == Account(0, 0, 0, NONE, map[])
    {
      fileCopier := copier;
      requests, totalSize, currentProgress, currentDone, lastCurrentId := map[], 0, 0, 0, NONE;
    }

    ghost function View(): Account
      reads this
    {
      Account(totalSize, currentDone, currentProgress, lastCurrentId, requests)
    }

    predicate IsDir(id: int)
      reads this, fileCopier
    {
      id in fileCopier.requests && fileCopier.requests[id].dir
    }

    function EntryList(id: int): seq<int>
      reads this, fileCopier
    {
      if id in fileCopier.requests then fileCopier.requests[id].childrenQueue else []
    }

    // The copier's currentId(): the innermost open request.
    function CurrentId(): int
      reads this, fileCopier
    {
      var stack := fileCopier.currentStack;
      if stack == [] then NONE else stack[|stack| - 1]
    }

    method Started(id: int, size: int)
      modifies this
      ensures View() == OnStarted(old(View()), id, size)
    {
      lastCurrentId, currentProgress := id, 0;
      var r := Lookup(requests, id);
      if r.size != size {
        totalSize := totalSize - r.size;
        totalSize := totalSize + size;
      }
      requests := requests[id := r.(size := size)];
    }

    method DataTransferProgress(id: int, progress: int)
      requires lastCurrentId == id
      modifies this
      ensures View() == old(View()).(currentProgress := progress)
    {
      currentProgress := progress;
    }

    // canceled(): what is done is all.
    method AllCanceled()
      modifies `totalSize
      ensures totalSize == currentDone
    {
      totalSize := currentDone;
    }

    // stateChanged(), which the copier tells before it changes its state.
    method StateChanged(state: CopierState, sizeOf: int -> int)
      modifies this
      ensures View() == if state.Busy? && fileCopier.state.Idle? then OnReset(fileCopier.requests, sizeOf)
                        else old(View())
    {
      if state == Busy {
        if fileCopier.state == Idle { Reset(sizeOf); }
      }
    }

    // The slots connected to the copier's signals, for the signal `e` of the worker.  `g` is the copier before it
    // hears `e`; when the slots run it has pushed or popped the request, and drops nothing until they are through.
    method Hear(e: Event, sizeOf: int -> int, ghost g: Gui, ghost f: Requests, ghost ends: Ends)
      requires FromForest(g.pending.requests, f, ends)
      requires e.Started? ==> fileCopier.state == g.state
      requires !e.AllCanceled? ==>
                 fileCopier.requests == g.pending.requests
                 && IdsOf(fileCopier.currentStack) == OnSignal(g.pending, e).stack
      requires e.Progressed? ==> lastCurrentId == e.id
      modifies this
      ensures View() == Booked(old(View()), g, e, f, ends, sizeOf)
    {
      match e
      case Started(id) =>
        if fileCopier.state == Idle { StateChanged(Busy, sizeOf); }
        Started(id, sizeOf(id));
      case Progressed(id) => DataTransferProgress(id, sizeOf(id));
      case Finished(id, error) => Finished(id, error, f, ends);
      case AllCanceled => AllCanceled();
      case Reported(_, _, _) =>
    }

    method Finished(id: int, error: bool, ghost f: Requests, ghost ends: Ends)
      requires FromForest(fileCopier.requests, f, ends)
      modifies this
      ensures View() == OnFinished(old(View()), fileCopier.requests, f, ends, id, error, CurrentId())
    {
      totalSize := totalSize - Lookup(requests, id).size;
      if !error {
        currentDone := currentDone + currentProgress;
        totalSize := totalSize + currentProgress;
      } else {
        ChildrenCanceled(id, f, ends);
      }
      lastCurrentId := CurrentId();
      if lastCurrentId < 0 { lastCurrentId := id; }
      currentProgress := 0;
    }

    method ChildrenCanceled(id: int, ghost f: Requests, ghost ends: Ends)
      requires FromForest(fileCopier.requests, f, ends)
      modifies `totalSize
      ensures totalSize == old(totalSize) - Walked(fileCopier.requests, f, ends, requests, id)
      decreases CopyQueue.Depth(ends, id)
    {
      if !IsDir(id) { return; }
      var children := EntryList(id);
      var i := 0;
      while i < |children|
        invariant 0 <= i <= |children|
        invariant totalSize == old(totalSize) - WalkedTo(fileCopier.requests, f, ends, requests, id, i)
      {
        var childId := children[i];
        totalSize := totalSize - Lookup(requests, childId).size;
        CopyQueue.ChildIsSmaller(f, ends, id, i);
        if IsDir(childId) { ChildrenCanceled(childId, f, ends); }
        i := i + 1;
      }
    }

    method Reset(sizeOf: int -> int)
      modifies this
      ensures View() == OnReset(fileCopier.requests, sizeOf)
    {
      totalSize, currentProgress, currentDone, lastCurrentId, requests := 0, 0, 0, NONE, map[];
      ghost var full := OnReset(fileCopier.requests, sizeOf).requests;
      var idList := fileCopier.requests.Keys;
      while idList != {}
        invariant idList <= fileCopier.requests.Keys
        invariant requests == full - idList
        invariant totalSize == Sum(full, fileCopier.requests.Keys - idList)
        invariant currentProgress == 0 && currentDone == 0 && lastCurrentId == NONE
      {
        assert (forall x :: x !in idList) ==> idList == {};
        var id :| id in idList;
        SumRemove(full, fileCopier.requests.Keys - (idList - {id}), id);
        assert fileCopier.requests.Keys - (idList - {id}) - {id} == fileCopier.requests.Keys - idList;
        AddRequest(id, sizeOf(id));
        idList := idList - {id};
      }
      assert full - {} == full && fileCopier.requests.Keys - {} == fileCopier.requests.Keys;
    }

    method AddRequest(id: int, size: int)
      requires id in fileCopier.requests
      modifies `requests, `totalSize
      ensures var r := fileCopier.requests[id];
              && requests == old(requests)[id := Request(r.source, r.dest, if r.dir then 0 else size)]
              && totalSize == old(totalSize) + if r.dir then 0 else size
    {
      var r := fileCopier.requests[id];
      var entry := Request(r.source, r.dest, if IsDir(id) then 0 else size);
      requests := requests[id := entry];
      totalSize := totalSize + entry.size;
    }
  }

  // ---------- the balance ----------

  // Bytes done and bytes to do make up the total and what was subtracted once too often.
  ghost predicate Balanced(a: Account, pending: set<int>, twice: int) {
    a.totalSize + twice == a.currentDone + Sum(a.requests, pending)
  }

  // What finished() subtracts although it finished before: everything listed below that is not pending.
  ghost function Strays(r: Requests, id: int): set<int> {
    Below(r, id) - r.Keys
  }

  lemma BelowSplits(r: Requests, f: Requests, ends: Ends, id: int)
    requires FromForest(r, f, ends) && id in r
    ensures Below(r, id) == (Reach(r, r.Keys, id) - {id}) + Strays(r, id)
    ensures id !in Below(r, id) && id in Reach(r, r.Keys, id) && Reach(r, r.Keys, id) <= r.Keys
  {
    var cs := r[id].childrenQueue;
    BelowInside(r, f, ends, id);
    ReachSelf(r, r.Keys, id);
    forall x | x in Reach(r, r.Keys, id) && x != id ensures x in Below(r, id) {
      var p :| Path(r, r.Keys, p) && p[0] == id && p[|p| - 1] == x;
      LastButOne(r, p);
    }
    forall x | x in Below(r, id) && x in r ensures x in Reach(r, r.Keys, id) {
      var y :| y in Reach(r, r.Keys, id) && y in r && x in r[y].childrenQueue;
      var p :| Path(r, r.Keys, p) && p[0] == id && p[|p| - 1] == y;
      PathSnoc(r, p, x);
      assert (p + [x])[0] == id && (p + [x])[|p|] == x;
    }
  }

  lemma {:induction false} PathSnoc(r: Requests, p: seq<int>, x: int)
    requires Path(r, r.Keys, p) && x in r && p[|p| - 1] in r && x in r[p[|p| - 1]].childrenQueue
    ensures Path(r, r.Keys, p + [x])
    decreases |p|
  {
    if |p| > 1 {
      PathSnoc(r, p[1..], x);
      assert (p + [x])[1..] == p[1..] + [x];
    } else {
      assert p + [x] == [p[0], x] && [p[0], x][1..] == [x];
      assert Path(r, r.Keys, [x]);
    }
  }

  // The end of a longer path is listed by a request on it.
  lemma {:induction false} LastButOne(r: Requests, p: seq<int>)
    requires Path(r, r.Keys, p) && |p| > 1
    ensures p[|p| - 1] in Below(r, p[0])
    decreases |p|
  {
    var id, q := p[0], p[1..];
    assert id in r && q[0] in r[id].childrenQueue && Path(r, r.Keys, q);
    if |q| > 1 {
      LastButOne(r, q);
      var y :| y in Reach(r, r.Keys, q[0]) && y in r && p[|p| - 1] in r[y].childrenQueue;
      ReachUnfolds(r, r.Keys, id);
      ReachAllIs(r, r.Keys, r[id].childrenQueue);
      assert y in Reach(r, r.Keys, id);
    } else {
      ReachSelf(r, r.Keys, id);
      assert id in Reach(r, r.Keys, id) && p[|p| - 1] == q[0];
    }
  }

  // A failed request takes with it what is pending below, and subtracts a second time what is not.
  lemma FailedBalance(a: Account, r: Requests, f: Requests, ends: Ends, id: int, currentId: int, twice: int)
    requires FromForest(r, f, ends) && id in r && Balanced(a, r.Keys, twice)
    ensures Balanced(OnFinished(a, r, f, ends, id, true, currentId), WithoutChildren(r, id).Keys - {id},
                     twice + Sum(a.requests, Strays(r, id)))
  {
    var reach := Reach(r, r.Keys, id);
    BelowSplits(r, f, ends, id);
    WalkedIsSum(r, f, ends, a.requests, id);
    SumUnion(a.requests, reach - {id}, Strays(r, id));
    SumRemove(a.requests, reach, id);
    SumUnion(a.requests, r.Keys - reach, reach);
    assert (r.Keys - reach) + reach == r.Keys;
    assert WithoutChildren(r, id).Keys - {id} == r.Keys - reach;
  }

  // A request that succeeded takes only itself.
  lemma SucceededBalance(a: Account, r: Requests, f: Requests, ends: Ends, id: int, currentId: int, twice: int)
    requires FromForest(r, f, ends) && id in r && Balanced(a, r.Keys, twice)
    ensures Balanced(OnFinished(a, r, f, ends, id, false, currentId), r.Keys - {id}, twice)
  {
    SumRemove(a.requests, r.Keys, id);
  }

  lemma StartedBalance(a: Account, pending: set<int>, id: int, size: int, twice: int)
    requires id in pending && Balanced(a, pending, twice)
    ensures Balanced(OnStarted(a, id, size), pending, twice)
  {
    var b := OnStarted(a, id, size);
    SumRemove(a.requests, pending, id);
    SumRemove(b.requests, pending, id);
    SumSame(a.requests, b.requests, pending - {id});
  }

  lemma ResetBalance(r: Requests, sizeOf: int -> int)
    ensures Balanced(OnReset(r, sizeOf), r.Keys, 0)
  {
  }

  // ---------- whole runs ----------

  // The dialog's counters after `acts`.
  ghost function Books(acts: seq<SystemAction>, at: (nat, int) -> int): Account
    requires CleanRun(acts)
  {
    if acts == [] then Account(0, 0, 0, NONE, map[])
    else
      var x, before := acts[|acts| - 1], acts[..|acts| - 1];
      var a, s := Books(before, at), SystemRun(before);
      if x.Thread? || s.inbox == [] then a
      else
        FirstInForest(before);
        Booked(a, Heard(before), s.inbox[0], s.w.issued.requests, s.w.issued.ends, id => at(|before|, id))
  }

  lemma {:induction false} FirstInForest(acts: seq<SystemAction>)
    requires CleanRun(acts)
    ensures var s := SystemRun(acts);
            && Heard(acts).pending == s.gui && IssuedOk(s.w.issued)
            && FromForest(s.gui.requests, s.w.issued.requests, s.w.issued.ends)
            && (forall x :: x in s.gui.requests ==> 0 <= x < s.w.issued.nextId)
            && StackPending(s.gui.stack, s.gui.requests) && Honest(Heard(acts), Failed(acts))
            && (s.inbox != [] ==> Expected(s.gui, s.inbox[0])
                                  && Settled(s.gui.requests.Keys, s.delivered, s.inbox[0], s.w.issued, false))
  {
    RunHonest(acts);
    var v := RunMirrored(acts, false);
  }

  // The dialog knows only issued requests, and follows the innermost open one.
  ghost predicate Follows(a: Account, g: Gui, nextId: int) {
    && (forall x :: x in a.requests ==> x < nextId)
    && (g.pending.stack.Cons? ==> a.lastCurrentId == g.pending.stack.head)
  }

  lemma BookedFollows(a: Account, g: Gui, e: Event, f: Requests, ends: Ends, sizeOf: int -> int, nextId: int)
    requires Follows(a, g, nextId) && FromForest(g.pending.requests, f, ends) && Expected(g.pending, e)
    requires StackPending(g.pending.stack, g.pending.requests)
    requires forall x :: x in g.pending.requests ==> 0 <= x < nextId
    ensures Follows(Booked(a, g, e, f, ends, sizeOf), Hear(g, e), nextId)
  {
  }

  lemma {:induction false} RunFollows(acts: seq<SystemAction>, at: (nat, int) -> int)
    requires CleanRun(acts)
    ensures Follows(Books(acts, at), Heard(acts), SystemRun(acts).w.issued.nextId)
  {
    if acts != [] {
      var x, before := acts[|acts| - 1], acts[..|acts| - 1];
      var s := SystemRun(before);
      RunFollows(before, at);
      FirstInForest(before);
      if x.Deliver? && s.inbox != [] {
        BookedFollows(Books(before, at), Heard(before), s.inbox[0], s.w.issued.requests, s.w.issued.ends,
                      id => at(|before|, id), s.w.issued.nextId);
      } else if x.Thread? {
        IdsGrow(s, x.a);
      }
    }
  }

  lemma IdsGrow(s: System, a: Action)
    ensures Apply(s.w, a).issued.nextId >= s.w.issued.nextId
    ensures SystemApply(s, Thread(a)).gui.stack == s.gui.stack
  {
  }

  // The dialog's own assertion: progress is always reported for the request it takes for the current one.
  lemma {:induction false} ProgressIsCurrent(acts: seq<SystemAction>, at: (nat, int) -> int)
    requires CleanRun(acts) && SystemRun(acts).inbox != [] && SystemRun(acts).inbox[0].Progressed?
    ensures Books(acts, at).lastCurrentId == SystemRun(acts).inbox[0].id
  {
    RunFollows(acts, at);
    FirstInForest(acts);
  }

  // ---------- what is counted out twice ----------

  // The children of a request that failed after the first of them had started.
  ghost function CountedTwice(e: Event, past: Log, f: Requests): set<int> {
    if e.Finished? && e.error && LastStarted(past) != e.id && e.id in f then set c | c in f[e.id].childrenQueue else {}
  }

  // The sizes counted out twice since the copier left Idle.
  ghost function Overcount(acts: seq<SystemAction>, at: (nat, int) -> int): int
    requires CleanRun(acts)
  {
    if acts == [] then 0
    else
      var x, before := acts[|acts| - 1], acts[..|acts| - 1];
      var s := SystemRun(before);
      if x.Thread? || s.inbox == [] then Overcount(before, at)
      else
        (if s.inbox[0].Started? && Heard(before).state.Idle? then 0 else Overcount(before, at))
        + Sum(Books(before, at).requests, CountedTwice(s.inbox[0], s.delivered, s.w.issued.requests))
  }

  // If the request failed before its children were reached, all of them are pending; if later, none is.
  lemma StraysAreCounted(r: Requests, past: Log, id: int, i: Issued)
    requires IssuedOk(i) && FromForest(r, i.requests, i.ends) && id in r
    requires Settled(r.Keys, past, Finished(id, true), i, false)
    ensures Strays(r, id) == CountedTwice(Finished(id, true), past, i.requests)
  {
    var cs := r[id].childrenQueue;
    BelowInside(r, i.requests, i.ends, id);
    if LastStarted(past) != id {
      ChildrenInside(i, id);
      BelowUnfolds(r, id);
      forall c | c in cs ensures c !in r.Keys && Below(r, c) == {} { ReachAbsent(r, r.Keys, c); }
      assert Strays(r, id) == set c | c in cs;
    }
  }

  lemma BookedBalance(a: Account, g: Gui, e: Event, past: Log, i: Issued, sizeOf: int -> int, twice: int)
    requires IssuedOk(i) && FromForest(g.pending.requests, i.requests, i.ends) && Expected(g.pending, e)
    requires StackPending(g.pending.stack, g.pending.requests) && Settled(g.pending.requests.Keys, past, e, i, false)
    requires !g.state.Idle? ==> Balanced(a, g.pending.requests.Keys, twice)
    requires g.state.Idle? ==> e.Started?
    ensures Balanced(Booked(a, g, e, i.requests, i.ends, sizeOf), Hear(g, e).pending.requests.Keys,
                     (if e.Started? && g.state.Idle? then 0 else twice)
                     + Sum(a.requests, CountedTwice(e, past, i.requests)))
  {
    var r := g.pending.requests;
    match e
    case Started(id) =>
      ResetBalance(r, sizeOf);
      if g.state.Idle? {
        StartedBalance(OnReset(r, sizeOf), r.Keys, id, sizeOf(id), 0);
      } else {
        StartedBalance(a, r.Keys, id, sizeOf(id), twice);
      }
    case Finished(id, error) =>
      var currentId := HeadOf(OnSignal(g.pending, e).stack);
      if error {
        FailedBalance(a, r, i.requests, i.ends, id, currentId, twice);
        StraysAreCounted(r, past, id, i);
      } else {
        SucceededBalance(a, r, i.requests, i.ends, id, currentId, twice);
      }
    case _ =>
  }

  // A new batch is unknown to the dialog and weighs nothing yet.
  lemma BatchBalance(a: Account, pending: set<int>, later: set<int>, twice: int)
    requires Balanced(a, pending, twice) && pending <= later
    requires forall x :: x in later && x !in pending ==> x !in a.requests
    ensures Balanced(a, later, twice)
  {
    SumUnknown(a.requests, later - pending);
    SumUnion(a.requests, pending, later - pending);
    assert pending + (later - pending) == later;
  }

  // While the copier is at work, the total and what was counted out twice are what is done and what is pending.
  lemma {:induction false} BytesConserved(acts: seq<SystemAction>, at: (nat, int) -> int)
    requires CleanRun(acts)
    ensures !Heard(acts).state.Idle? ==>
              Balanced(Books(acts, at), SystemRun(acts).gui.requests.Keys, Overcount(acts, at))
  {
    if acts != [] {
      var x, before := acts[|acts| - 1], acts[..|acts| - 1];
      var s := SystemRun(before);
      BytesConserved(before, at);
      FirstInForest(before);
      if x.Deliver? && s.inbox != [] {
        BookedBalance(Books(before, at), Heard(before), s.inbox[0], s.delivered, s.w.issued,
                      id => at(|before|, id), Overcount(before, at));
      } else if x.Thread? && !Heard(before).state.Idle? {
        RunFollows(before, at);
        NewIds(s, x.a);
        BatchBalance(Books(before, at), s.gui.requests.Keys, SystemRun(acts).gui.requests.Keys, Overcount(before, at));
      }
    }
  }

  lemma NewIds(s: System, a: Action)
    ensures var t := SystemApply(s, Thread(a));
            && s.gui.requests.Keys <= t.gui.requests.Keys
            && forall x :: x in t.gui.requests && x !in s.gui.requests ==> x >= s.w.issued.nextId
  {
  }

  // ---------- when the total is right ----------

  // Directories fail only before any of their children has started.
  predicate EarlyErrors(events: Log, f: Requests) {
    match events
    case Silent => true
    case Log(e, past) =>
      && (e.Finished? && e.error && e.id in f && f[e.id].childrenQueue != [] ==> LastStarted(past) == e.id)
      && EarlyErrors(past, f)
  }

  lemma {:induction false} EarlyErrorsCountNothing(acts: seq<SystemAction>, at: (nat, int) -> int, f: Requests)
    requires CleanRun(acts) && EarlyErrors(SystemRun(acts).delivered, f)
    requires forall x :: x in SystemRun(acts).w.issued.requests ==>
               x in f && f[x] == SystemRun(acts).w.issued.requests[x]
    ensures Overcount(acts, at) == 0
  {
    if acts != [] {
      var x, before := acts[|acts| - 1], acts[..|acts| - 1];
      var s := SystemRun(before);
      var v := RunMirrored(before, false);
      if x.Thread? { IssuedStay(s, x.a); }
      EarlyErrorsCountNothing(before, at, f);
      if x.Deliver? && s.inbox != [] {
        assert CountedTwice(s.inbox[0], s.delivered, s.w.issued.requests) == {};
      }
    }
  }

  lemma IssuedStay(s: System, a: Action)
    requires IssuedOk(s.w.issued)
    ensures SystemApply(s, Thread(a)).delivered == s.delivered
    ensures forall x :: x in s.w.issued.requests ==>
              x in Apply(s.w, a).issued.requests && Apply(s.w, a).issued.requests[x] == s.w.issued.requests[x]
  {
  }

  // Conservation: in every clean run in which directories fail only before any of their children has started, the
  // total is what is done and what is pending, at every moment.
  lemma {:induction false} EarlyErrorsConserve(acts: seq<SystemAction>, at: (nat, int) -> int)
    requires CleanRun(acts) && EarlyErrors(SystemRun(acts).delivered, SystemRun(acts).w.issued.requests)
    ensures !Heard(acts).state.Idle? ==>
              Books(acts, at).totalSize
              == Books(acts, at).currentDone + Sum(Books(acts, at).requests, SystemRun(acts).gui.requests.Keys)
  {
    BytesConserved(acts, at);
    EarlyErrorsCountNothing(acts, at, SystemRun(acts).w.issued.requests);
  }

  // Since the copier left Idle a request has failed after one of its children had started, and the dialog has a
  // child of it down with a size.
  ghost predicate LostTrack(acts: seq<SystemAction>, at: (nat, int) -> int)
    requires CleanRun(acts)
  {
    acts != [] &&
    var x, before := acts[|acts| - 1], acts[..|acts| - 1];
    var s := SystemRun(before);
    if x.Thread? || s.inbox == [] then LostTrack(before, at)
    else
      || (LostTrack(before, at) && !(s.inbox[0].Started? && Heard(before).state.Idle?))
      || exists c :: c in CountedTwice(s.inbox[0], s.delivered, s.w.issued.requests)
                     && Lookup(Books(before, at).requests, c).size != 0
  }

  // File sizes and progress are never negative.
  ghost predicate NonNegative(at: (nat, int) -> int) {
    forall k, id :: at(k, id) >= 0
  }

  lemma {:induction false} SumOfSizes(requests: map<int, Request>, ids: set<int>)
    requires forall x :: x in requests ==> requests[x].size >= 0
    ensures Sum(requests, ids) >= 0
    ensures Sum(requests, ids) == 0 <==> forall x :: x in ids ==> Lookup(requests, x).size == 0
    decreases |ids|
  {
    if ids != {} {
      var x := Least(ids);
      SumOfSizes(requests, ids - {x});
      assert forall y :: y in ids ==> y == x || y in ids - {x};
    }
  }

  lemma {:induction false} BooksNonNegative(acts: seq<SystemAction>, at: (nat, int) -> int)
    requires CleanRun(acts) && NonNegative(at)
    ensures forall x :: x in Books(acts, at).requests ==> Books(acts, at).requests[x].size >= 0
  {
    if acts != [] { BooksNonNegative(acts[..|acts| - 1], at); }
  }

  lemma {:induction false} OvercountIs(acts: seq<SystemAction>, at: (nat, int) -> int)
    requires CleanRun(acts) && NonNegative(at)
    ensures Overcount(acts, at) >= 0 && (Overcount(acts, at) == 0 <==> !LostTrack(acts, at))
  {
    if acts != [] {
      var x, before := acts[|acts| - 1], acts[..|acts| - 1];
      var s := SystemRun(before);
      OvercountIs(before, at);
      if x.Deliver? && s.inbox != [] {
        BooksNonNegative(before, at);
        SumOfSizes(Books(before, at).requests, CountedTwice(s.inbox[0], s.delivered, s.w.issued.requests));
      }
    }
  }

  // At every moment of a clean run the total is right if and only if no directory that lists a child of some size
  // has failed after a child of it had started; otherwise it is too small.
  lemma {:induction false} ConservedExactly(acts: seq<SystemAction>, at: (nat, int) -> int)
    requires CleanRun(acts) && NonNegative(at) && !Heard(acts).state.Idle?
    ensures var a, open := Books(acts, at), Sum(Books(acts, at).requests, SystemRun(acts).gui.requests.Keys);
            && a.totalSize <= a.currentDone + open
            && (a.totalSize == a.currentDone + open <==> !LostTrack(acts, at))
  {
    BytesConserved(acts, at);
    OvercountIs(acts, at);
  }

  // So too when done() is told and nothing is pending any more.
  lemma {:induction false} TotalIsDone(acts: seq<SystemAction>, at: (nat, int) -> int)
    requires CleanRun(acts) && SystemRun(acts).inbox != [] && EmitsDone(SystemRun(acts).gui, SystemRun(acts).inbox[0])
    requires CleanRun(acts + [Deliver])
    ensures var a := Books(acts + [Deliver], at);
            && a.totalSize + Overcount(acts + [Deliver], at) == a.currentDone
            && (NonNegative(at) ==> (a.totalSize == a.currentDone <==> !LostTrack(acts + [Deliver], at)))
            && (EarlyErrors(SystemRun(acts + [Deliver]).delivered, SystemRun(acts).w.issued.requests) ==>
                  a.totalSize == a.currentDone)
  {
    var s, e := SystemRun(acts), SystemRun(acts).inbox[0];
    assert (acts + [Deliver])[..|acts|] == acts;
    BytesConserved(acts, at);
    FirstInForest(acts);
    BookedBalance(Books(acts, at), Heard(acts), e, s.delivered, s.w.issued, id => at(|acts|, id), Overcount(acts, at));
    if NonNegative(at) { OvercountIs(acts + [Deliver], at); }
    if EarlyErrors(SystemRun(acts + [Deliver]).delivered, s.w.issued.requests) {
      EarlyErrorsCountNothing(acts + [Deliver], at, s.w.issued.requests);
    }
  }
}
