/** Moving (or copying) one file: the chain of handler nodes over an abstract file system.

    A name leads, through symbolic links, to a file; several names may lead to the same file.  Every operation
    may fail and the user may cancel at any moment, unless the disk is `undisturbed`.  The disk remembers every
    state it went through.
 */
module FileMove {
  import opened Forest
  import opened CopyThread

  type Path = string

  type Bytes = seq<bv8>

  datatype Entry = File(inode: nat) | Link(target: Path) | Directory

  type Names = map<Path, Entry>

  // The names, and the bytes of each file (kept while the file is open, even without a name).
  datatype Snapshot = Snapshot(names: Names, data: map<nat, Bytes>)

  datatype Place = Nowhere | At(path: Path)

  datatype Content = NoFile | Holds(bytes: Bytes)

  // Symbolic links are followed at most this often.
  const MAX_LINKS: nat := 40

  const BLOCK: nat := 4096

  function Follow(names: Names, p: Path, n: nat): Place
    decreases n
  {
    if p !in names || !names[p].Link? then At(p)
    else if n == 0 then Nowhere
    else Follow(names, names[p].target, n - 1)
  }

  function Real(names: Names, p: Path): Place {
    Follow(names, p, MAX_LINKS)
  }

  predicate IsLink(names: Names, p: Path) {
    p in names && names[p].Link?
  }

  predicate Exists(names: Names, p: Path) {
    Real(names, p).At? && Real(names, p).path in names
  }

  predicate LeadsToFile(names: Names, p: Path) {
    Exists(names, p) && names[Real(names, p).path].File?
  }

  function InodeOf(names: Names, p: Path): nat
    requires LeadsToFile(names, p)
  {
    names[Real(names, p).path].inode
  }

  // What reading `p` yields.
  function ContentAt(s: Snapshot, p: Path): Content {
    if LeadsToFile(s.names, p) && InodeOf(s.names, p) in s.data then Holds(s.data[InodeOf(s.names, p)]) else NoFile
  }

  // Both names lead to the same file.
  predicate SameFile(names: Names, p: Path, q: Path) {
    LeadsToFile(names, p) && LeadsToFile(names, q) && InodeOf(names, p) == InodeOf(names, q)
  }

  // The original bytes can be read, complete, under one of the two names.
  predicate Kept(s: Snapshot, source: Path, dest: Path, original: Bytes) {
    ContentAt(s, source) == Holds(original) || ContentAt(s, dest) == Holds(original)
  }

  // ---------- following links ----------

  lemma {:induction false} FollowEnds(names: Names, p: Path, n: nat)
    ensures Follow(names, p, n).At? ==> !IsLink(names, Follow(names, p, n).path)
    decreases n
  {
    if IsLink(names, p) && n > 0 { FollowEnds(names, names[p].target, n - 1); }
  }

  lemma {:induction false} FollowFurther(names: Names, p: Path, n: nat, m: nat)
    requires n <= m && Follow(names, p, n).At?
    ensures Follow(names, p, m) == Follow(names, p, n)
    decreases n
  {
    if IsLink(names, p) { FollowFurther(names, names[p].target, n - 1, m - 1); }
  }

  // A new file does not move any name.
  lemma {:induction false} FollowCreated(names: Names, q: Path, inode: nat, p: Path, n: nat)
    requires q !in names
    ensures Follow(names[q := File(inode)], p, n) == Follow(names, p, n)
    decreases n
  {
    if IsLink(names, p) && n > 0 { FollowCreated(names, q, inode, names[p].target, n - 1); }
  }

  // Neither does removing a name that leads elsewhere.
  lemma {:induction false} FollowRemoved(names: Names, q: Path, p: Path, n: nat)
    requires n <= MAX_LINKS && Follow(names, p, n).At?
    requires IsLink(names, q) ==> Real(names, q) != Follow(names, p, n)
    ensures Follow(names - {q}, p, n) == Follow(names, p, n)
    decreases n
  {
    if IsLink(names, p) {
      if p == q { FollowFurther(names, q, n, MAX_LINKS); }
      FollowRemoved(names, q, names[p].target, n - 1);
    }
  }

  // Nor a new link.
  lemma {:induction false} FollowLinked(names: Names, q: Path, target: Path, p: Path, n: nat)
    requires q !in names && Follow(names, p, n).At? && Follow(names, p, n).path in names
    ensures Follow(names[q := Link(target)], p, n) == Follow(names, p, n)
    decreases n
  {
    if IsLink(names, p) { FollowLinked(names, q, target, names[p].target, n - 1); }
  }

  // ---------- what the operations leave alone ----------

  lemma CreateElsewhere(names: Names, source: Path, dest: Path, inode: nat)
    requires Real(names, dest).At? && Real(names, dest).path !in names && LeadsToFile(names, source)
    ensures var t := names[Real(names, dest).path := File(inode)];
            && LeadsToFile(t, source) && InodeOf(t, source) == InodeOf(names, source)
            && LeadsToFile(t, dest) && InodeOf(t, dest) == inode
  {
    FollowCreated(names, Real(names, dest).path, inode, source, MAX_LINKS);
    FollowCreated(names, Real(names, dest).path, inode, dest, MAX_LINKS);
  }

  lemma RemoveElsewhere(names: Names, gone: Path, other: Path)
    requires LeadsToFile(names, other) && Real(names, gone) != Real(names, other)
    ensures var t := names - {gone};
            && LeadsToFile(t, other) && InodeOf(t, other) == InodeOf(names, other)
            && Real(t, gone) == At(gone) && !LeadsToFile(t, gone)
  {
    FollowRemoved(names, gone, other, MAX_LINKS);
    FollowEnds(names, other, MAX_LINKS);
  }

  lemma LinkElsewhere(names: Names, source: Path, dest: Path, target: Path)
    requires dest !in names && LeadsToFile(names, source)
    ensures var t := names[dest := Link(target)]; LeadsToFile(t, source) && InodeOf(t, source) == InodeOf(names, source)
  {
    FollowLinked(names, dest, target, source, MAX_LINKS);
  }

  // A removed name leads nowhere, and nothing else changes its destination.
  lemma {:induction false} FollowAfter(names: Names, q: Path, p: Path, n: nat)
    ensures Follow(names - {q}, p, n) == Follow(names, p, n) || Follow(names - {q}, p, n) == At(q)
    decreases n
  {
    if IsLink(names, p) && n > 0 && p != q { FollowAfter(names, q, names[p].target, n - 1); }
  }

  // Once both names lead to an emptied file, removing one of them brings nothing back.
  lemma LostStaysLost(s: Snapshot, source: Path, dest: Path, original: Bytes)
    requires Lost(s, source, dest) && original != []
    ensures !Kept(s, source, dest, original)
    ensures !Kept(Snapshot(s.names - {source}, s.data), source, dest, original)
  {
    FollowAfter(s.names, source, dest, MAX_LINKS);
    FollowAfter(s.names, source, source, MAX_LINKS);
  }

  // Renaming a file that is not a link.
  lemma RenameMoves(s: Snapshot, source: Path, dest: Path)
    requires source in s.names && s.names[source].File?
    ensures ContentAt(Snapshot((s.names - {source})[dest := s.names[source]], s.data), dest) == ContentAt(s, source)
  {
  }

  // Opening `dest` for writing empties the source exactly when both names lead to the same file.
  lemma OverwritingItself(s: Snapshot, source: Path, dest: Path, original: Bytes)
    requires ContentAt(s, source) == Holds(original) && original != [] && LeadsToFile(s.names, dest)
    ensures var t := Snapshot(s.names, s.data[InodeOf(s.names, dest) := []]);
            Kept(t, source, dest, original) <==> !SameFile(s.names, source, dest)
  {
  }

  // ---------- the file system ----------

  class Disk {
    const undisturbed: bool
    var names: Names
    var data: map<nat, Bytes>
    var nextInode: nat
    ghost var history: seq<Snapshot>

    ghost predicate Valid()
      reads this
    {
      && history != [] && history[|history| - 1] == Now()
      && (forall i :: i in data ==> i < nextInode)
      && (forall p :: p in names && names[p].File? ==> names[p].inode in data)
    }

    function Now(): Snapshot
      reads this
    {
      Snapshot(names, data)
    }

    constructor (names: Names, data: map<nat, Bytes>, nextInode: nat, undisturbed: bool)
      requires forall i :: i in data ==> i < nextInode
      requires forall p :: p in names && names[p].File? ==> names[p].inode in data
      ensures Valid() && this.names == names && this.data == data && this.undisturbed == undisturbed
    {
      this.names, this.data, this.nextInode, this.undisturbed := names, data, nextInode, undisturbed;
      history := [Snapshot(names, data)];
    }

    // An operation goes well if it can, and the environment lets it.
    method Permitted(possible: bool) returns (ok: bool)
      ensures ok ==> possible
      ensures undisturbed ==> ok == possible
    {
      ok := *;
      ok := possible && (ok || undisturbed);
    }

    method OpenRead(p: Path) returns (ok: bool, inode: nat)
      ensures ok ==> LeadsToFile(names, p) && InodeOf(names, p) == inode
      ensures undisturbed && LeadsToFile(names, p) ==> ok
    {
      ok := Permitted(LeadsToFile(names, p));
      inode := if ok then InodeOf(names, p) else 0;
    }

    // Opening for writing empties the file, or creates it.
    method OpenWrite(p: Path) returns (ok: bool, inode: nat)
      requires Valid()
      modifies this
      ensures Valid()
      ensures ok && old(LeadsToFile(names, p)) ==>
                names == old(names) && inode == old(InodeOf(names, p)) && data == old(data)[inode := []]
      ensures ok && !old(LeadsToFile(names, p)) ==>
                && inode !in old(data) && old(Real(names, p)).At? && old(Real(names, p)).path !in old(names)
                && names == old(names)[old(Real(names, p)).path := File(inode)] && data == old(data)[inode := []]
      ensures ok ==> history == old(history) + [Now()]
      ensures !ok ==> Now() == old(Now()) && history == old(history)
      ensures undisturbed && old(LeadsToFile(names, p)) ==> ok
    {
      var place := Real(names, p);
      ok := Permitted(place.At? && (place.path in names ==> names[place.path].File?));
      inode := nextInode;
      if ok {
        if place.path in names {
          inode := names[place.path].inode;
        } else {
          names, nextInode := names[place.path := File(inode)], nextInode + 1;
        }
        data := data[inode := []];
        history := history + [Now()];
      }
    }

    // At most one block; -1 on error, 0 at the end of the file.
    method Read(inode: nat, offset: nat) returns (count: int, block: Bytes)
      requires inode in data && offset <= |data[inode]|
      ensures count == -1 || (0 <= count <= BLOCK && count == |block| && offset + count <= |data[inode]|)
      ensures count >= 0 ==> block == data[inode][offset..offset + count]
      ensures count == 0 ==> offset == |data[inode]|
      ensures undisturbed ==> count >= 0
    {
      var left := |data[inode]| - offset;
      var ok := Permitted(true);
      if !ok { return -1, []; }
      if left == 0 { return 0, []; }
      count := *;
      if count < 1 || count > BLOCK || count > left { count := if left < BLOCK then left else BLOCK; }
      block := data[inode][offset..offset + count];
    }

    // Appends a prefix of the block; the result is the block's length only if all of it was written.
    method Write(inode: nat, block: Bytes) returns (count: int, ghost k: nat)
      requires Valid() && inode in data
      modifies this
      ensures Valid() && k <= |block| && (count == |block| ==> k == |block|)
      ensures names == old(names) && data == old(data)[inode := old(data)[inode] + block[..k]]
      ensures history == old(history) + [Now()]
      ensures undisturbed ==> count == |block|
    {
      var n: int := *;
      if n < 0 || n > |block| || undisturbed { n := |block|; }
      count, k := n, n;
      if n < |block| { var failed: bool := *; if failed { count := -1; } }
      data := data[inode := data[inode] + block[..n]];
      history := history + [Now()];
    }

    method Remove(p: Path) returns (ok: bool)
      requires Valid()
      modifies this
      ensures Valid() && data == old(data)
      ensures ok ==> p in old(names) && names == old(names) - {p} && history == old(history) + [Now()]
      ensures !ok ==> Now() == old(Now()) && history == old(history)
      ensures undisturbed && p in old(names) && !old(names)[p].Directory? ==> ok
    {
      ok := Permitted(p in names && !names[p].Directory?);
      if ok {
        names := names - {p};
        history := history + [Now()];
      }
    }

    // A name that leads to something is never replaced.
    method Rename(p: Path, q: Path) returns (ok: bool)
      requires Valid()
      modifies this
      ensures Valid() && data == old(data)
      ensures ok ==> p in old(names) && !Exists(old(names), q)
                     && names == (old(names) - {p})[q := old(names)[p]] && history == old(history) + [Now()]
      ensures !ok ==> Now() == old(Now()) && history == old(history)
    {
      ok := Permitted(p in names && !Exists(names, q));
      if ok {
        names := (names - {p})[q := names[p]];
        history := history + [Now()];
      }
    }

    method MakeLink(p: Path, target: Path) returns (ok: bool)
      requires Valid()
      modifies this
      ensures Valid() && data == old(data)
      ensures ok ==> p !in old(names) && names == old(names)[p := Link(target)] && history == old(history) + [Now()]
      ensures !ok ==> Now() == old(Now()) && history == old(history)
    {
      ok := Permitted(p !in names);
      if ok {
        names := names[p := Link(target)];
        history := history + [Now()];
      }
    }
  }

  // ---------- the handler chain ----------

  ghost predicate AllKept(history: seq<Snapshot>, from: nat, source: Path, dest: Path, original: Bytes) {
    forall k :: from <= k < |history| ==> Kept(history[k], source, dest, original)
  }

  // The source is complete, and the destination is another file.
  predicate SourceSafe(s: Snapshot, source: Path, dest: Path, original: Bytes) {
    ContentAt(s, source) == Holds(original) && !SameFile(s.names, source, dest)
  }

  // Emptied: neither name leads to the original bytes any more.
  predicate Lost(s: Snapshot, source: Path, dest: Path) {
    ContentAt(s, source) == Holds([]) && ContentAt(s, dest) == Holds([])
  }

  // Writing to another file leaves the source alone.
  lemma WriteOther(s: Snapshot, source: Path, dest: Path, original: Bytes, inode: nat, bytes: Bytes)
    requires SourceSafe(s, source, dest, original) && InodeOf(s.names, source) != inode
    ensures SourceSafe(Snapshot(s.names, s.data[inode := bytes]), source, dest, original)
  {
  }

  // So does emptying or creating the destination ...
  lemma OpenedSafely(s: Snapshot, source: Path, dest: Path, original: Bytes, t: Snapshot, inode: nat)
    requires SourceSafe(s, source, dest, original) && t.data == s.data[inode := []]
    requires if LeadsToFile(s.names, dest) then t.names == s.names && inode == InodeOf(s.names, dest)
             else && Real(s.names, dest).At? && Real(s.names, dest).path !in s.names && inode !in s.data
                  && t.names == s.names[Real(s.names, dest).path := File(inode)]
    ensures SourceSafe(t, source, dest, original) && LeadsToFile(t.names, dest) && InodeOf(t.names, dest) == inode
    ensures InodeOf(t.names, source) == InodeOf(s.names, source) && IsLink(t.names, source) == IsLink(s.names, source)
  {
    if !LeadsToFile(s.names, dest) { CreateElsewhere(s.names, source, dest, inode); }
  }

  // ... and removing it.
  lemma RemovedSafely(s: Snapshot, source: Path, dest: Path, original: Bytes)
    requires SourceSafe(s, source, dest, original)
    ensures var t := Snapshot(s.names - {dest}, s.data);
            && SourceSafe(t, source, dest, original) && InodeOf(t.names, source) == InodeOf(s.names, source)
            && IsLink(t.names, source) == IsLink(s.names, source)
  {
    RemoveElsewhere(s.names, dest, source);
  }

  lemma NextBlock(original: Bytes, progress: nat, block: Bytes)
    requires progress + |block| <= |original| && block == original[progress..progress + |block|]
    ensures original[..progress] + block[..|block|] == original[..progress + |block|]
  {
  }

  class Copier {
    const disk: Disk
    const r: CopyRequest
    var moveError: bool

    constructor (disk: Disk, request: CopyRequest)
      ensures this.disk == disk && r == request && !moveError
    {
      this.disk, r, moveError := disk, request, false;
    }

    // Opening the destination, with the second try under Force.
    method OpenDest(ghost original: Bytes) returns (ok: bool, err: Error, inode: nat)
      requires disk.Valid()
      modifies disk
      ensures disk.Valid() && old(disk.history) <= disk.history && (ok <==> err == NoError)
      ensures ok ==> inode in disk.data && disk.data[inode] == []
      ensures old(disk.data).Keys <= disk.data.Keys
      ensures old(SourceSafe(disk.Now(), r.source, r.dest, original)) ==>
                && SourceSafe(disk.Now(), r.source, r.dest, original)
                && InodeOf(disk.names, r.source) == old(InodeOf(disk.names, r.source))
                && IsLink(disk.names, r.source) == old(IsLink(disk.names, r.source))
                && AllKept(disk.history, |old(disk.history)|, r.source, r.dest, original)
                && (ok ==> LeadsToFile(disk.names, r.dest) && InodeOf(disk.names, r.dest) == inode)
      ensures disk.undisturbed && old(SameFile(disk.names, r.source, r.dest)) ==>
                && ok && Lost(disk.Now(), r.source, r.dest)
                && disk.names == old(disk.names) && InodeOf(disk.names, r.source) == inode
    {
      err := NoError;
      ghost var before, safe := disk.Now(), SourceSafe(disk.Now(), r.source, r.dest, original);
      ok, inode := disk.OpenWrite(r.dest);
      if ok {
        if safe { OpenedSafely(before, r.source, r.dest, original, disk.Now(), inode); }
        return;
      }
      if !r.copyFlags.force { return false, CannotOpenDestinationFile, inode; }
      ok := disk.Remove(r.dest);
      if !ok { return false, CannotRemoveDestinationFile, inode; }
      if safe { RemovedSafely(before, r.source, r.dest, original); }
      before := disk.Now();
      ok, inode := disk.OpenWrite(r.dest);
      if !ok { return false, CannotOpenDestinationFile, inode; }
      if safe { OpenedSafely(before, r.source, r.dest, original, disk.Now(), inode); }
    }

    // The block loop.
    method CopyBlocks(sourceFile: nat, destFile: nat, ghost original: Bytes, ghost safe: bool) returns (err: Error)
      requires disk.Valid() && sourceFile in disk.data && destFile in disk.data && disk.data[destFile] == []
      requires safe ==> SourceSafe(disk.Now(), r.source, r.dest, original)
                        && InodeOf(disk.names, r.source) == sourceFile && sourceFile != destFile
      modifies disk
      ensures disk.Valid() && old(disk.history) <= disk.history && disk.names == old(disk.names)
              && destFile in disk.data
      ensures safe ==>
                && SourceSafe(disk.Now(), r.source, r.dest, original)
                && AllKept(disk.history, |old(disk.history)|, r.source, r.dest, original)
                && (err == NoError ==> disk.data[destFile] == original)
      ensures disk.undisturbed && sourceFile == destFile ==> err == NoError && disk.data == old(disk.data)
    {
      err := NoError;
      var progress := 0;
      ghost var start := |disk.history|;
      while true
        invariant disk.Valid() && disk.names == old(disk.names) && old(disk.history) <= disk.history
        invariant sourceFile in disk.data && destFile in disk.data && progress <= |disk.data[sourceFile]|
        invariant disk.data[sourceFile] == old(disk.data[sourceFile])
        invariant sourceFile == destFile ==> disk.data == old(disk.data)
        invariant safe ==> disk.data[sourceFile] == original && disk.data[destFile] == original[..progress]
        invariant safe ==> SourceSafe(disk.Now(), r.source, r.dest, original)
        invariant safe ==> AllKept(disk.history, start, r.source, r.dest, original)
        decreases |old(disk.data[sourceFile])| - progress
      {
        var canceled: bool := *;
        if canceled && !disk.undisturbed { return Canceled; }
        var count, block := disk.Read(sourceFile, progress);
        if count == 0 { break; }
        if count == -1 { return CannotReadSourceFile; }
        ghost var before, k := disk.Now(), 0;
        var written;
        written, k := disk.Write(destFile, block);
        if safe { WriteOther(before, r.source, r.dest, original, destFile, disk.data[destFile]); }
        if written != count { return CannotWriteDestinationFile; }
        if safe { NextBlock(original, progress, block); }
        progress := progress + count;
      }
      assert safe ==> original[..progress] == original;
    }

    // CopyFileNode: block by block, and the destination is removed again if anything went wrong.
    method CopyFileNode(ghost original: Bytes) returns (done: bool, err: Error)
      requires disk.Valid()
      modifies disk
      ensures disk.Valid() && old(disk.history) <= disk.history && (err == NoError ==> done)
      ensures old(SourceSafe(disk.Now(), r.source, r.dest, original)) ==>
                && SourceSafe(disk.Now(), r.source, r.dest, original)
                && AllKept(disk.history, |old(disk.history)|, r.source, r.dest, original)
                && (err == NoError ==> ContentAt(disk.Now(), r.dest) == Holds(original))
                && IsLink(disk.names, r.source) == old(IsLink(disk.names, r.source))
      ensures disk.undisturbed && old(SameFile(disk.names, r.source, r.dest)) && !r.dir ==>
                err == NoError && Lost(disk.Now(), r.source, r.dest)
    {
      ghost var safe := SourceSafe(disk.Now(), r.source, r.dest, original);
      if r.dir { return false, SourceDirectoryOmitted; }
      var ok, sourceFile := disk.OpenRead(r.source);
      if !ok { return false, CannotOpenSourceFile; }
      var destFile: nat;
      ok, err, destFile := OpenDest(original);
      if !ok { return false, err; }
      err := CopyBlocks(sourceFile, destFile, original, safe);
      done := err == NoError || err == Canceled;
      if err != NoError {
        ghost var before := disk.Now();
        ok := disk.Remove(r.dest);
        if ok && safe { RemovedSafely(before, r.source, r.dest, original); }
      }
    }

    // The bytes are safe, and if only the source is left to be removed, the copy is complete.
    ghost predicate Ready(original: Bytes)
      reads this, disk
    {
      && SourceSafe(disk.Now(), r.source, r.dest, original)
      && (moveError ==> ContentAt(disk.Now(), r.dest) == Holds(original))
    }

    // MoveNode: copy unless that was done before, then remove the source.
    method MoveNode(ghost original: Bytes) returns (done: bool, err: Error)
      requires disk.Valid()
      modifies this, disk
      ensures disk.Valid() && old(disk.history) <= disk.history && (err == NoError ==> done)
      ensures old(Ready(original)) ==>
                && AllKept(disk.history, |old(disk.history)|, r.source, r.dest, original)
                && (err != NoError ==>
                      Ready(original) && IsLink(disk.names, r.source) == old(IsLink(disk.names, r.source)))
                && (err == NoError ==> ContentAt(disk.Now(), r.dest) == Holds(original))
                && (err == NoError && r.move ==> r.source !in disk.names)
                && (err == NoError && !r.move ==> ContentAt(disk.Now(), r.source) == Holds(original))
      ensures disk.undisturbed && old(SameFile(disk.names, r.source, r.dest)) && !r.dir && !old(moveError) ==>
                done && (original != [] ==> !Kept(disk.Now(), r.source, r.dest, original))
    {
      done, err := true, NoError;
      ghost var ready := Ready(original);
      ghost var was := moveError;
      if !moveError { done, err := CopyFileNode(original); }
      if done && err == NoError && r.move {
        ghost var before := disk.Now();
        var ok := disk.Remove(r.source);
        moveError := !ok;
        if ready && ok { RemoveElsewhere(before.names, r.source, r.dest); }
        if Lost(before, r.source, r.dest) && original != [] { LostStaysLost(before, r.source, r.dest, original); }
        if !ok { return false, CannotRemoveSource; }
      } else {
        if Lost(disk.Now(), r.source, r.dest) && original != [] {
          LostStaysLost(disk.Now(), r.source, r.dest, original);
        }
      }
    }

    // Only a link is made, the bytes stay where they are.
    predicate LinksOnly(names: Names) {
      r.copyFlags.makeLinks || (IsLink(names, r.source) && !r.copyFlags.followLinks)
    }

    // An attempt that reads these marks goes on to an existing destination.
    predicate Overwrites(flags: (bool, bool)) {
      !flags.0 && (flags.1 || r.copyFlags.nonInteractive)
    }

    // The nodes above MoveNode, for the flags read at the start of the attempt.
    method Attempt(canceled: bool, replace: bool, ghost original: Bytes) returns (done: bool, err: Error)
      requires disk.Valid() && !r.dir
      modifies this, disk
      ensures disk.Valid() && old(disk.history) <= disk.history && (err == NoError ==> done)
      ensures old(Ready(original)) ==>
                && AllKept(disk.history, |old(disk.history)|, r.source, r.dest, original)
                && (err != NoError ==> Ready(original) && LinksOnly(disk.names) == old(LinksOnly(disk.names)))
                && (err == NoError ==> Arrived(old(LinksOnly(disk.names)), original))
      ensures disk.undisturbed && old(SameFile(disk.names, r.source, r.dest)) && !old(moveError) && original != []
              && !canceled && (replace || r.copyFlags.nonInteractive) && !old(LinksOnly(disk.names)) ==>
                done && !Kept(disk.Now(), r.source, r.dest, original)
      ensures old(SameFile(disk.names, r.source, r.dest))
              && !(Overwrites((canceled, replace)) && !old(LinksOnly(disk.names))) ==>
                disk.Now() == old(disk.Now()) && disk.history == old(disk.history) && moveError == old(moveError)
    {
      if canceled { return true, Canceled; }
      if !Exists(disk.names, r.source) && !IsLink(disk.names, r.source) { return false, SourceNotExists; }
      if (Exists(disk.names, r.dest) || IsLink(disk.names, r.dest)) && !(replace || r.copyFlags.nonInteractive) {
        return false, DestinationExists;
      }
      ghost var ready, before := Ready(original), disk.Now();
      if LinksOnly(disk.names) {
        var target := if r.copyFlags.makeLinks then r.source else disk.names[r.source].target;
        var ok := disk.MakeLink(r.dest, target);
        if !ok { return false, CannotCreateSymLink; }
        if ready { LinkElsewhere(before.names, r.source, r.dest, target); }
        return true, NoError;
      }
      if r.move && (!r.copyFlags.followLinks || !IsLink(disk.names, r.source)) {
        var ok := disk.Rename(r.source, r.dest);
        if ok {
          if ready { RenameMoves(before, r.source, r.dest); }
          return true, NoError;
        }
      }
      done, err := MoveNode(original);
    }

    // What a success means.
    ghost predicate Arrived(linksOnly: bool, original: Bytes)
      reads disk
    {
      && (linksOnly || !r.move ==> ContentAt(disk.Now(), r.source) == Holds(original))
      && (!linksOnly ==> ContentAt(disk.Now(), r.dest) == Holds(original))
      && (!linksOnly && r.move && r.source != r.dest ==> r.source !in disk.names)
    }

    // handle(): attempts until one is final.  Each entry of `flags` is what an attempt reads of the request's
    // canceled and overwrite marks; they change with the user's answers.  `tries` counts the attempts.
    method Handle(flags: seq<(bool, bool)>, ghost original: Bytes) returns (done: bool, err: Error, ghost tries: nat)
      requires disk.Valid() && !r.dir && !moveError && ContentAt(disk.Now(), r.source) == Holds(original)
      modifies this, disk
      ensures disk.Valid() && old(disk.history) <= disk.history && tries <= |flags|
      ensures old(!SameFile(disk.names, r.source, r.dest)) ==>
                && AllKept(disk.history, |old(disk.history)|, r.source, r.dest, original)
                && (err != NoError ==> ContentAt(disk.Now(), r.source) == Holds(original))
                && (done && err == NoError ==> Arrived(old(LinksOnly(disk.names)), original))
      // One file under two names: without an attempt that overwrites nothing happens to it, on any disk.
      ensures old(SameFile(disk.names, r.source, r.dest))
              && (old(LinksOnly(disk.names)) || forall k :: 0 <= k < tries ==> !Overwrites(flags[k])) ==>
                disk.Now() == old(disk.Now()) && disk.history == old(disk.history)
      // If nothing disturbs it, the bytes survive exactly then (or if there are none).
      ensures disk.undisturbed && old(SameFile(disk.names, r.source, r.dest)) && original != [] ==>
                (Kept(disk.Now(), r.source, r.dest, original) <==>
                 old(LinksOnly(disk.names)) || forall k :: 0 <= k < tries ==> !Overwrites(flags[k]))
    {
      done, err, tries := false, NoError, 0;
      var i := 0;
      ghost var linksOnly := LinksOnly(disk.names);
      ghost var safe := !SameFile(disk.names, r.source, r.dest);
      ghost var start, was := |disk.history|, disk.history;
      while i < |flags| && !done
        invariant 0 <= i <= |flags| && tries == i && disk.Valid() && was <= disk.history
        invariant safe ==> AllKept(disk.history, start, r.source, r.dest, original)
        invariant safe && !(done && err == NoError) ==> Ready(original) && LinksOnly(disk.names) == linksOnly
        invariant safe && i > 0 && !done ==> err != NoError
        invariant safe && done && err == NoError ==> Arrived(linksOnly, original)
        invariant !safe && (linksOnly || forall k :: 0 <= k < i ==> !Overwrites(flags[k])) ==>
                    disk.Now() == old(disk.Now()) && disk.history == was && !moveError
        invariant !safe && disk.undisturbed && original != [] && !linksOnly
                  && !(forall k :: 0 <= k < i ==> !Overwrites(flags[k])) ==>
                    done && !Kept(disk.Now(), r.source, r.dest, original)
      {
        done, err := Attempt(flags[i].0, flags[i].1, original);
        if !done {
          var stop: bool := *;
          done := r.copyFlags.nonInteractive || stop;
        }
        i := i + 1;
        tries := i;
      }
    }
  }
}
