/** Copy requests and the forest they form.

    A request names its sub-requests by number.  Requests are numbered depth first, so that a request and
    everything below it occupy a block of consecutive numbers: `ends[id]` is the first number after the block.
 */
module Forest {

  datatype CopyFlags = CopyFlags(nonInteractive: bool, force: bool, makeLinks: bool, followLinks: bool)

  datatype CopyRequest = CopyRequest(
    childrenQueue: seq<int>, source: string, dest: string, move: bool, dir: bool, copyFlags: CopyFlags)

  type Requests = map<int, CopyRequest>

  type Ends = map<int, int>

  // The blocks of the requests in `cs` follow each other from `lo` to `hi` without gaps.
  ghost predicate Blocks(f: Requests, ends: Ends, cs: seq<int>, lo: int, hi: int)
    decreases |cs|
  {
    if cs == [] then lo == hi
    else cs[0] == lo && lo in f && lo in ends && lo < ends[lo] && Blocks(f, ends, cs[1..], ends[lo], hi)
  }

  ghost predicate Node(f: Requests, ends: Ends, id: int)
    requires id in f && id in ends
  {
    && id < ends[id]
    && Blocks(f, ends, f[id].childrenQueue, id + 1, ends[id])
    && (!f[id].dir ==> f[id].childrenQueue == [])
  }

  ghost predicate Numbered(f: Requests, ends: Ends) {
    && f.Keys == ends.Keys
    && forall id {:trigger Node(f, ends, id)} :: id in f ==> Node(f, ends, id)
  }

  // ---------- facts about blocks ----------

  lemma {:induction false} BlocksOrder(f: Requests, ends: Ends, cs: seq<int>, lo: int, hi: int)
    requires Blocks(f, ends, cs, lo, hi)
    ensures lo <= hi
    ensures forall c :: c in cs ==> lo <= c < hi && c in f && c in ends && c < ends[c] <= hi
    decreases |cs|
  {
    if cs != [] {
      BlocksOrder(f, ends, cs[1..], ends[lo], hi);
      assert cs == [cs[0]] + cs[1..];
    }
  }

  lemma {:induction false} BlocksCover(f: Requests, ends: Ends, cs: seq<int>, lo: int, hi: int, x: int) returns (c: int)
    requires Blocks(f, ends, cs, lo, hi) && lo <= x < hi
    ensures c in cs && c in ends && c <= x < ends[c]
    decreases |cs|
  {
    if x < ends[lo] { c := lo; } else { c := BlocksCover(f, ends, cs[1..], ends[lo], hi, x); }
  }

  // Every number in a block belongs to a request, whose own block lies inside.
  lemma {:induction false} BlocksNest(f: Requests, ends: Ends, id: int, x: int)
    requires Numbered(f, ends) && id in f && id <= x < ends[id]
    ensures x in f && x < ends[x] <= ends[id]
    decreases ends[id] - id
  {
    assert Node(f, ends, id);
    if x != id {
      BlocksOrder(f, ends, f[id].childrenQueue, id + 1, ends[id]);
      var c := BlocksCover(f, ends, f[id].childrenQueue, id + 1, ends[id], x);
      BlocksNest(f, ends, c, x);
    }
  }

  lemma {:induction false} BlocksGrow(f: Requests, ends: Ends, f': Requests, ends': Ends, cs: seq<int>, lo: int,
                                      hi: int)
    requires Blocks(f, ends, cs, lo, hi)
    requires f.Keys <= f'.Keys
    requires forall id :: id in ends ==> id in ends' && ends'[id] == ends[id]
    ensures Blocks(f', ends', cs, lo, hi)
    decreases |cs|
  {
    if cs != [] { BlocksGrow(f, ends, f', ends', cs[1..], ends[lo], hi); }
  }

  lemma NodeGrows(f: Requests, ends: Ends, g: Requests, ends': Ends, id: int)
    requires id in f && id in ends && Node(f, ends, id)
    requires f.Keys <= g.Keys && g[id] == f[id]
    requires forall x :: x in ends ==> x in ends' && ends'[x] == ends[x]
    ensures Node(g, ends', id)
  {
    BlocksGrow(f, ends, g, ends', f[id].childrenQueue, id + 1, ends[id]);
  }

  // Two numbered batches with different numbers are numbered together.
  lemma NumberedUnion(f: Requests, ends: Ends, g: Requests, ends': Ends)
    requires Numbered(f, ends) && Numbered(g, ends') && f.Keys !! g.Keys
    ensures Numbered(f + g, ends + ends')
  {
    forall id | id in f + g ensures Node(f + g, ends + ends', id) {
      if id in g {
        assert Node(g, ends', id);
        NodeGrows(g, ends', f + g, ends + ends', id);
      } else {
        assert Node(f, ends, id);
        NodeGrows(f, ends, f + g, ends + ends', id);
      }
    }
  }

  // A block of a batch numbered lo .. hi - 1 ends inside the batch.
  lemma BlockInBatch(f: Requests, ends: Ends, lo: int, hi: int, id: int)
    requires Numbered(f, ends) && id in f && forall x :: x in f <==> lo <= x < hi
    ensures ends[id] <= hi
  {
    assert Node(f, ends, id);
    BlocksNest(f, ends, id, ends[id] - 1);
  }

  // ---------- pending descendants ----------

  // A walk down the children queues that stays inside the set `pending`.
  ghost predicate Path(f: Requests, pending: set<int>, p: seq<int>)
    decreases |p|
  {
    && p != [] && p[0] in pending && p[0] in f
    && (|p| > 1 ==> p[1] in f[p[0]].childrenQueue && Path(f, pending, p[1..]))
  }

  ghost predicate Leads(f: Requests, pending: set<int>, id: int, x: int) {
    exists p :: Path(f, pending, p) && p[0] == id && p[|p| - 1] == x
  }

  // `id` and its descendants, as far as they can be reached through pending requests.
  ghost function Reach(f: Requests, pending: set<int>, id: int): set<int> {
    set x | x in pending && Leads(f, pending, id, x)
  }

  ghost function ReachAll(f: Requests, pending: set<int>, cs: seq<int>): set<int> {
    set x | x in pending && exists c :: c in cs && Leads(f, pending, c, x)
  }

  lemma ReachSelf(f: Requests, pending: set<int>, id: int)
    requires id in pending && id in f
    ensures id in Reach(f, pending, id)
  {
    assert Path(f, pending, [id]);
  }

  lemma ReachAbsent(f: Requests, pending: set<int>, id: int)
    ensures id !in pending || id !in f ==> Reach(f, pending, id) == {}
  {
  }

  lemma ReachUnfolds(f: Requests, pending: set<int>, id: int)
    requires id in pending && id in f
    ensures Reach(f, pending, id) == {id} + ReachAll(f, pending, f[id].childrenQueue)
  {
    ReachSelf(f, pending, id);
    forall x | x in Reach(f, pending, id) ensures x == id || x in ReachAll(f, pending, f[id].childrenQueue) {
      var p :| Path(f, pending, p) && p[0] == id && p[|p| - 1] == x;
      if |p| > 1 {
        var q := p[1..];
        assert Path(f, pending, q) && q[|q| - 1] == x;
        assert Leads(f, pending, q[0], x);
      }
    }
    forall x | x in ReachAll(f, pending, f[id].childrenQueue) ensures x in Reach(f, pending, id) {
      var c :| c in f[id].childrenQueue && Leads(f, pending, c, x);
      var q :| Path(f, pending, q) && q[0] == c && q[|q| - 1] == x;
      var p := [id] + q;
      assert p[1..] == q && p[|p| - 1] == x;
      assert Path(f, pending, p);
    }
  }

  // Descendants have larger numbers and stay inside the block.
  lemma {:induction false} PathStaysInside(f: Requests, ends: Ends, pending: set<int>, p: seq<int>)
    requires Numbered(f, ends) && Path(f, pending, p)
    ensures p[0] <= p[|p| - 1] < ends[p[0]] && (|p| > 1 ==> p[0] < p[|p| - 1])
    decreases |p|
  {
    assert Node(f, ends, p[0]);
    if |p| > 1 {
      var q := p[1..];
      PathStaysInside(f, ends, pending, q);
      BlocksOrder(f, ends, f[p[0]].childrenQueue, p[0] + 1, ends[p[0]]);
    }
  }

  lemma ReachInside(f: Requests, ends: Ends, pending: set<int>, id: int)
    requires Numbered(f, ends)
    ensures forall x :: x in Reach(f, pending, id) ==> id in f && id in pending && id <= x < ends[id]
  {
    forall x | x in Reach(f, pending, id) ensures id in f && id in pending && id <= x < ends[id] {
      var p :| Path(f, pending, p) && p[0] == id && p[|p| - 1] == x;
      PathStaysInside(f, ends, pending, p);
    }
  }

  // Only the requests in `pending` matter.
  lemma ReachAgrees(f: Requests, g: Requests, pending: set<int>, id: int)
    requires forall x :: x in pending ==> x in f && x in g && f[x] == g[x]
    ensures Reach(f, pending, id) == Reach(g, pending, id)
  {
    forall p ensures Path(f, pending, p) == Path(g, pending, p) { PathAgrees(f, g, pending, p); }
  }

  lemma {:induction false} PathAgrees(f: Requests, g: Requests, pending: set<int>, p: seq<int>)
    requires forall x :: x in pending ==> x in f && x in g && f[x] == g[x]
    ensures Path(f, pending, p) == Path(g, pending, p)
    decreases |p|
  {
    if |p| > 1 {
      PathAgrees(f, g, pending, p[1..]);
    }
    if p != [] {
      var x := p[0];
      assert x in pending ==> x in f && x in g && f[x] == g[x];
    }
  }

  // No request in the block of `id` has left while something below it is pending.
  ghost predicate NoGap(f: Requests, ends: Ends, pending: set<int>, id: int)
    requires id in ends && f.Keys == ends.Keys
  {
    forall a, x :: a in f && id <= a < ends[id] && a !in pending && x in pending ==> !(a < x < ends[a])
  }

  // A path that starts before `a` and ends below it goes through `a`.
  lemma {:induction false} PathThrough(f: Requests, ends: Ends, pending: set<int>, p: seq<int>, a: int)
    requires Numbered(f, ends) && Path(f, pending, p) && p[0] <= a && a in f && a <= p[|p| - 1] < ends[a]
    ensures a in pending
    decreases |p|
  {
    if p[0] != a {
      var q, cs := p[1..], f[p[0]].childrenQueue;
      assert Node(f, ends, p[0]);
      BlocksOrder(f, ends, cs, p[0] + 1, ends[p[0]]);
      PathStaysInside(f, ends, pending, p);
      PathStaysInside(f, ends, pending, q);
      var c := BlocksCover(f, ends, cs, p[0] + 1, ends[p[0]], a);
      BlocksNest(f, ends, c, a);
      if c != q[0] { BlocksApart(f, ends, cs, p[0] + 1, ends[p[0]], c, q[0], p[|p| - 1]); }
      PathThrough(f, ends, pending, q, a);
    }
  }

  // The blocks of different children have no number in common.
  lemma BlocksApart(f: Requests, ends: Ends, cs: seq<int>, lo: int, hi: int, b: int, c: int, x: int)
    requires Blocks(f, ends, cs, lo, hi) && b in cs && c in cs && b in ends && c in ends
    requires b <= x < ends[b] && c <= x < ends[c]
    ensures b == c
  {
    var j, k :| 0 <= j < |cs| && cs[j] == b && 0 <= k < |cs| && cs[k] == c;
    if j < k {
      BlocksSorted(f, ends, cs, lo, hi, j, k);
    } else if k < j {
      BlocksSorted(f, ends, cs, lo, hi, k, j);
    }
  }

  // Without a gap every pending number of the block can be reached.
  lemma {:induction false} NoGapLeads(f: Requests, ends: Ends, pending: set<int>, id: int, x: int)
    requires Numbered(f, ends) && id in f && NoGap(f, ends, pending, id)
    requires x in pending && id <= x < ends[id]
    ensures id in pending && Leads(f, pending, id, x)
    decreases ends[id] - id
  {
    if x == id {
      assert Path(f, pending, [id]);
    } else {
      assert Node(f, ends, id);
      BlocksOrder(f, ends, f[id].childrenQueue, id + 1, ends[id]);
      var c := BlocksCover(f, ends, f[id].childrenQueue, id + 1, ends[id], x);
      NoGapLeads(f, ends, pending, c, x);
      ReachUnfolds(f, pending, id);
      assert x in ReachAll(f, pending, f[id].childrenQueue);
    }
  }

  // The pending descendants of a request are exactly the pending numbers of its block if and only if there is no gap.
  lemma ReachIsTheBlockExactly(f: Requests, ends: Ends, pending: set<int>, id: int)
    requires Numbered(f, ends) && id in f && id in pending
    ensures Reach(f, pending, id) == (set x | x in pending && id <= x < ends[id]) <==> NoGap(f, ends, pending, id)
  {
    var block := set x | x in pending && id <= x < ends[id];
    ReachInside(f, ends, pending, id);
    if NoGap(f, ends, pending, id) {
      forall x | x in block ensures x in Reach(f, pending, id) { NoGapLeads(f, ends, pending, id, x); }
    }
    if Reach(f, pending, id) == block {
      forall a, x | a in f && id <= a < ends[id] && a !in pending && x in pending ensures !(a < x < ends[a]) {
        if a < x < ends[a] {
          BlocksNest(f, ends, id, a);
          assert x in block;
          var p :| Path(f, pending, p) && p[0] == id && p[|p| - 1] == x;
          PathThrough(f, ends, pending, p, a);
        }
      }
    }
  }

  // Nothing below a request that is no longer pending is pending.
  ghost predicate Closed(f: Requests, ends: Ends, pending: set<int>)
    requires f.Keys == ends.Keys
  {
    forall a, x :: a in f && a !in pending && x in pending ==> !(a < x < ends[a])
  }

  // In a closed pending set the pending descendants are exactly the pending numbers of the block.
  lemma ReachIsTheBlock(f: Requests, ends: Ends, pending: set<int>, id: int)
    requires Numbered(f, ends) && Closed(f, ends, pending) && id in f && id in pending
    ensures Reach(f, pending, id) == set x | x in pending && id <= x < ends[id]
  {
    ReachIsTheBlockExactly(f, ends, pending, id);
  }

  // Only the part of `pending` inside the block matters.
  lemma {:induction false} PathOnBlock(f: Requests, ends: Ends, pending: set<int>, other: set<int>, p: seq<int>)
    requires Numbered(f, ends) && Path(f, pending, p)
    requires forall x :: p[0] <= x < ends[p[0]] ==> (x in pending <==> x in other)
    ensures Path(f, other, p) && p[|p| - 1] in other
    decreases |p|
  {
    var x, q := p[0], p[1..];
    assert Node(f, ends, x);
    if |p| > 1 {
      BlocksOrder(f, ends, f[x].childrenQueue, x + 1, ends[x]);
      assert Path(f, pending, q) && q[0] in f[x].childrenQueue;
      PathOnBlock(f, ends, pending, other, q);
    }
  }

  lemma ReachOnBlock(f: Requests, ends: Ends, pending: set<int>, other: set<int>, id: int)
    requires Numbered(f, ends) && id in f
    requires forall x :: id <= x < ends[id] ==> (x in pending <==> x in other)
    ensures Reach(f, pending, id) == Reach(f, other, id)
  {
    forall x | x in Reach(f, pending, id) ensures x in Reach(f, other, id) {
      var p :| Path(f, pending, p) && p[0] == id && p[|p| - 1] == x;
      PathOnBlock(f, ends, pending, other, p);
    }
    forall x | x in Reach(f, other, id) ensures x in Reach(f, pending, id) {
      var p :| Path(f, other, p) && p[0] == id && p[|p| - 1] == x;
      PathOnBlock(f, ends, other, pending, p);
    }
  }

  // ---------- walking the children one after the other ----------

  lemma ReachAllIs(f: Requests, pending: set<int>, cs: seq<int>)
    ensures forall x :: x in ReachAll(f, pending, cs) <==> exists c :: c in cs && x in Reach(f, pending, c)
    ensures cs == [] ==> ReachAll(f, pending, cs) == {}
  {
  }

  lemma ReachAllSnoc(f: Requests, pending: set<int>, cs: seq<int>, j: int)
    requires 0 <= j < |cs|
    ensures ReachAll(f, pending, cs[..j + 1]) == ReachAll(f, pending, cs[..j]) + Reach(f, pending, cs[j])
  {
    assert cs[..j + 1] == cs[..j] + [cs[j]];
  }

  lemma {:induction false} BlocksSorted(f: Requests, ends: Ends, cs: seq<int>, lo: int, hi: int, j: int, k: int)
    requires Blocks(f, ends, cs, lo, hi) && 0 <= j < k < |cs|
    ensures cs[j] in ends && ends[cs[j]] <= cs[k]
    decreases |cs|
  {
    if j == 0 {
      BlocksOrder(f, ends, cs[1..], ends[lo], hi);
      assert cs[k] == cs[1..][k - 1] && cs[1..][k - 1] in cs[1..];
    } else {
      BlocksSorted(f, ends, cs[1..], ends[lo], hi, j - 1, k - 1);
    }
  }

  // What the walks over earlier children removed does not matter for the next child.
  lemma ReachNextChild(f: Requests, ends: Ends, pending: set<int>, id: int, j: int)
    requires Numbered(f, ends) && id in f && 0 <= j < |f[id].childrenQueue|
    ensures var cs := f[id].childrenQueue;
            && cs[j] in f
            && Reach(f, pending - ReachAll(f, pending, cs[..j]), cs[j]) == Reach(f, pending, cs[j])
  {
    var cs := f[id].childrenQueue;
    assert Node(f, ends, id);
    BlocksOrder(f, ends, cs, id + 1, ends[id]);
    var removed := ReachAll(f, pending, cs[..j]);
    forall c | c in cs[..j] ensures c in ends && forall x :: x in Reach(f, pending, c) ==> x < cs[j] {
      var i :| 0 <= i < j && cs[i] == c;
      BlocksSorted(f, ends, cs, id + 1, ends[id], i, j);
      ReachInside(f, ends, pending, c);
    }
    ReachAllIs(f, pending, cs[..j]);
    assert forall x :: x in removed ==> x < cs[j];
    ReachOnBlock(f, ends, pending, pending - removed, cs[j]);
  }
}
