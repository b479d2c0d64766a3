/** How a directory tree turns into numbered requests: the order, the blocks, the parents. */
module Numbering {
  import opened Forest

  // What an entry list of a directory holds besides directories.
  datatype FileEntry = FileEntry(name: string, isDir: bool, isSymLink: bool)

  // A finite directory tree as the enumeration sees it; a link to a directory is followed into a tree.
  datatype DirTree = DirTree(name: string, isSymLink: bool, dirs: seq<DirTree>, files: seq<FileEntry>)

  // A request without its children, and the number of requests in its block.
  datatype Item = Item(request: CopyRequest, size: int)

  datatype Job = Job(copyFlags: CopyFlags, move: bool)

  function Child(dir: string, name: string): string {
    dir + "/" + name
  }

  // prepareRequest() for a path that needs no check.
  function Plain(source: string, dest: string, job: Job, dir: bool): CopyRequest {
    CopyRequest([], source, dest, job.move, dir, job.copyFlags)
  }

  predicate Special(name: string) {
    name == "." || name == ".."
  }

  predicate IsLeaf(t: DirTree, job: Job) {
    (t.isSymLink && !job.copyFlags.followLinks) || job.copyFlags.makeLinks
  }

  // ---------- the listing: every entry once, depth first ----------

  function ListFiles(files: seq<FileEntry>, links: bool, source: string, dest: string, job: Job): seq<Item>
    decreases |files|
  {
    if files == [] then []
    else
      var e, before := files[|files| - 1], ListFiles(files[..|files| - 1], links, source, dest, job);
      if !e.isDir && e.isSymLink == links then
        before + [Item(Plain(Child(source, e.name), Child(dest, e.name), job, false), 1)]
      else before
  }

  function ListDirs(dirs: seq<DirTree>, source: string, dest: string, job: Job): seq<Item>
    decreases dirs, 0
  {
    if dirs == [] then []
    else
      var d, before := dirs[|dirs| - 1], ListDirs(dirs[..|dirs| - 1], source, dest, job);
      if Special(d.name) then before else before + Listing(d, Child(source, d.name), Child(dest, d.name), job)
  }

  // The directory, its sub-directories, the links in it, the other files in it.
  function Listing(t: DirTree, source: string, dest: string, job: Job): (items: seq<Item>)
    ensures |items| > 0
    decreases t, 1
  {
    var inner :=
      if IsLeaf(t, job) then []
      else ListDirs(t.dirs, source, dest, job) + ListFiles(t.files, true, source, dest, job)
           + ListFiles(t.files, false, source, dest, job);
    [Item(Plain(source, dest, job, true), 1 + |inner|)] + inner
  }

  // Request `n + k` is item `k`, and its block has the size the item says.
  predicate ItemAt(f: Requests, ends: Ends, n: int, items: seq<Item>, k: int)
    requires 0 <= k < |items|
  {
    && n + k in f && n + k in ends
    && f[n + k].(childrenQueue := []) == items[k].request && ends[n + k] == n + k + items[k].size
  }

  // Requests `n`, `n + 1`, ... are the items in order.
  ghost predicate Listed(f: Requests, ends: Ends, n: int, items: seq<Item>) {
    forall k :: 0 <= k < |items| ==> ItemAt(f, ends, n, items, k)
  }

  lemma ListedAppend(f: Requests, ends: Ends, n: int, items: seq<Item>, more: seq<Item>)
    requires Listed(f, ends, n, items) && Listed(f, ends, n + |items|, more)
    ensures Listed(f, ends, n, items + more)
  {
    forall k | 0 <= k < |items + more| ensures ItemAt(f, ends, n, items + more, k) {
      if k < |items| {
        assert ItemAt(f, ends, n, items, k);
      } else {
        assert ItemAt(f, ends, n + |items|, more, k - |items|);
      }
    }
  }

  lemma ListedGrows(f: Requests, ends: Ends, g: Requests, ends': Ends, n: int, items: seq<Item>)
    requires Listed(f, ends, n, items)
    requires forall id :: id in f && n <= id < n + |items| ==> id in g && g[id] == f[id]
    requires forall id :: id in ends ==> id in ends' && ends'[id] == ends[id]
    ensures Listed(g, ends', n, items)
  {
    forall k | 0 <= k < |items| ensures ItemAt(g, ends', n, items, k) { assert ItemAt(f, ends, n, items, k); }
  }

  // ---------- appending a child ----------

  lemma {:induction false} BlocksSnoc(f: Requests, ends: Ends, cs: seq<int>, lo: int, mid: int)
    requires Blocks(f, ends, cs, lo, mid) && mid in f && mid in ends && mid < ends[mid]
    ensures Blocks(f, ends, cs + [mid], lo, ends[mid])
    decreases |cs|
  {
    if cs == [] {
      assert ([] + [mid])[1..] == [];
    } else {
      BlocksSnoc(f, ends, cs[1..], ends[lo], mid);
      assert (cs + [mid])[1..] == cs[1..] + [mid];
    }
  }

  // ---------- what the numbering gives ----------

  // A batch numbered lo .. hi - 1 under one root.
  ghost predicate OneTree(f: Requests, ends: Ends, lo: int, hi: int) {
    && Numbered(f, ends) && lo < hi && (forall id :: id in f <==> lo <= id < hi) && ends[lo] == hi
  }

  ghost predicate IsParent(f: Requests, p: int, x: int) {
    p in f && x in f[p].childrenQueue
  }

  // Every request but the root is a child of some request, with a smaller number.
  lemma {:induction false} ParentExists(f: Requests, ends: Ends, id: int, x: int) returns (p: int)
    requires Numbered(f, ends) && id in f && id < x < ends[id]
    ensures IsParent(f, p, x) && id <= p < x
    decreases ends[id] - id
  {
    assert Node(f, ends, id);
    var c := BlocksCover(f, ends, f[id].childrenQueue, id + 1, ends[id], x);
    if c == x {
      p := id;
    } else {
      BlocksOrder(f, ends, f[id].childrenQueue, id + 1, ends[id]);
      p := ParentExists(f, ends, c, x);
    }
  }

  lemma ChildInside(f: Requests, ends: Ends, p: int, x: int)
    requires Numbered(f, ends) && IsParent(f, p, x)
    ensures p < x < ends[p] && x in f && x < ends[x] <= ends[p]
  {
    assert Node(f, ends, p);
    BlocksOrder(f, ends, f[p].childrenQueue, p + 1, ends[p]);
  }

  // Two children queues have no number in common.
  lemma ParentUnique(f: Requests, ends: Ends, p: int, q: int, x: int)
    requires Numbered(f, ends) && IsParent(f, p, x) && IsParent(f, q, x)
    ensures p == q
  {
    ChildInside(f, ends, p, x);
    ChildInside(f, ends, q, x);
    if p < q {
      NotBetween(f, ends, p, q, x);
    } else if q < p {
      NotBetween(f, ends, q, p, x);
    }
  }

  lemma NotBetween(f: Requests, ends: Ends, p: int, q: int, x: int)
    requires Numbered(f, ends) && IsParent(f, p, x) && q in f && p < q < x
    ensures ends[q] <= x
  {
    var cs := f[p].childrenQueue;
    ChildInside(f, ends, p, x);
    assert Node(f, ends, p);
    var d := BlocksCover(f, ends, cs, p + 1, ends[p], q);
    var i :| 0 <= i < |cs| && cs[i] == d;
    var j :| 0 <= j < |cs| && cs[j] == x;
    if j < i {
      BlocksSorted(f, ends, cs, p + 1, ends[p], j, i);
    } else if i < j {
      BlocksSorted(f, ends, cs, p + 1, ends[p], i, j);
      BlocksOrder(f, ends, cs, p + 1, ends[p]);
      BlocksNest(f, ends, d, q);
    }
  }

  // No queue lists a number twice.
  lemma ListedOnce(f: Requests, ends: Ends, p: int, j: int, k: int)
    requires Numbered(f, ends) && p in f && 0 <= j < k < |f[p].childrenQueue|
    ensures f[p].childrenQueue[j] < f[p].childrenQueue[k]
  {
    assert Node(f, ends, p);
    BlocksOrder(f, ends, f[p].childrenQueue, p + 1, ends[p]);
    BlocksSorted(f, ends, f[p].childrenQueue, p + 1, ends[p], j, k);
  }

  // Each number but the root's stands in exactly one children queue, once, and is larger than its parent's.
  lemma ExactlyOneQueue(f: Requests, ends: Ends, lo: int, hi: int, x: int) returns (p: int)
    requires OneTree(f, ends, lo, hi) && lo < x < hi
    ensures IsParent(f, p, x) && p < x
    ensures forall q :: IsParent(f, q, x) ==> q == p
    ensures forall j, k :: 0 <= j < k < |f[p].childrenQueue| ==> f[p].childrenQueue[j] != f[p].childrenQueue[k]
  {
    p := ParentExists(f, ends, lo, x);
    forall q | IsParent(f, q, x) ensures q == p { ParentUnique(f, ends, p, q, x); }
    forall j, k | 0 <= j < k < |f[p].childrenQueue| ensures f[p].childrenQueue[j] != f[p].childrenQueue[k] {
      ListedOnce(f, ends, p, j, k);
    }
  }

  // The root is nobody's child.
  lemma RootHasNoParent(f: Requests, ends: Ends, lo: int, hi: int, p: int)
    requires OneTree(f, ends, lo, hi)
    ensures !IsParent(f, p, lo)
  {
    if IsParent(f, p, lo) { ChildInside(f, ends, p, lo); }
  }

  // ---------- depth-first order ----------

  function Interval(lo: int, hi: int): (s: seq<int>)
    ensures |s| == (if lo < hi then hi - lo else 0) && forall k :: 0 <= k < |s| ==> s[k] == lo + k
  {
    seq(if lo < hi then hi - lo else 0, k => lo + k)
  }

  lemma IntervalSplits(lo: int, mid: int, hi: int)
    requires lo <= mid <= hi
    ensures Interval(lo, mid) + Interval(mid, hi) == Interval(lo, hi)
  {
  }

  // Following the children queues depth first, with at most `fuel` levels.
  function DepthFirst(f: Requests, id: int, fuel: nat): seq<int>
    decreases fuel, 0, 0
  {
    if id !in f || fuel == 0 then [] else [id] + DepthFirstAll(f, f[id].childrenQueue, fuel - 1)
  }

  function DepthFirstAll(f: Requests, cs: seq<int>, fuel: nat): seq<int>
    decreases fuel, 1, |cs|
  {
    if cs == [] then [] else DepthFirst(f, cs[0], fuel) + DepthFirstAll(f, cs[1..], fuel)
  }

  // The numbers of a block, in order, are what a depth-first walk meets.
  lemma {:induction false} DepthFirstIsInterval(f: Requests, ends: Ends, id: int, fuel: nat)
    requires Numbered(f, ends) && id in f && ends[id] - id <= fuel
    ensures DepthFirst(f, id, fuel) == Interval(id, ends[id])
    decreases fuel, 0, 0
  {
    assert Node(f, ends, id);
    DepthFirstAllIsInterval(f, ends, f[id].childrenQueue, id + 1, ends[id], fuel - 1);
  }

  lemma {:induction false} DepthFirstAllIsInterval(f: Requests, ends: Ends, cs: seq<int>, lo: int, hi: int, fuel: nat)
    requires Numbered(f, ends) && Blocks(f, ends, cs, lo, hi) && hi - lo <= fuel
    ensures DepthFirstAll(f, cs, fuel) == Interval(lo, hi)
    decreases fuel, 1, |cs|
  {
    if cs != [] {
      BlocksOrder(f, ends, cs[1..], ends[lo], hi);
      IntervalSplits(lo, ends[lo], hi);
      DepthFirstIsInterval(f, ends, lo, fuel);
      DepthFirstAllIsInterval(f, ends, cs[1..], ends[lo], hi, fuel);
    }
  }
}
