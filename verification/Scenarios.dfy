/** Concrete runs of the whole copier in which it departs from what one would expect of it.

    Every signal is delivered as soon as it is emitted.  Each lemma builds its run from the start, step by step.
 */
module Scenarios {
  import opened Forest
  import opened CopyThread
  import opened CleanRuns
  import opened FileCopier
  import opened Mirror
  import opened FileCopierPrivate
  import opened DoneSignal
  import opened CopyDialog
  import opened Ascent

  const FLAGS := CopyFlags(false, false, false, false)

  // ---------- steps ----------

  lemma Step(acts: seq<SystemAction>, x: SystemAction) returns (more: seq<SystemAction>)
    ensures more == acts + [x] && SystemRun(more) == SystemApply(SystemRun(acts), x)
    ensures CleanRun(acts) && (x.Thread? ==> CleanAction(SystemRun(acts).w, x.a)) ==> CleanRun(more)
  {
    more := acts + [x];
    assert more[..|more| - 1] == acts;
  }

  // The system after a step of the worker and the delivery of its signal, if there was one.
  ghost function Told(s: System, t: State): System {
    if t.events == s.w.events || !t.events.Log? then s.(w := t)
    else System(t, OnSignal(s.gui, t.events.last), [], Log(t.events.last, s.delivered))
  }

  // The file with number 1 has five bytes, nothing else has a size.
  function Weigh(id: int): int {
    if id == 1 then 5 else 0
  }

  const AT: (nat, int) -> int := (k, id) => Weigh(id)

  // The books and the listener after the signals `es`.
  ghost function Follow(a: Account, g: Gui, i: Issued, es: seq<Event>): (Account, Gui)
    decreases |es|
  {
    if es == [] || !FromForest(g.pending.requests, i.requests, i.ends) then (a, g)
    else Follow(Booked(a, g, es[0], i.requests, i.ends, Weigh), Hear(g, es[0]), i, es[1..])
  }

  // Between `acts` and `more` the dialog has heard `es`.
  ghost predicate Hears(acts: seq<SystemAction>, more: seq<SystemAction>, es: seq<Event>) {
    CleanRun(acts) && CleanRun(more) ==>
      (Books(more, AT), Heard(more)) == Follow(Books(acts, AT), Heard(acts), SystemRun(acts).w.issued, es)
  }

  lemma BookedBySize(a: Account, g: Gui, e: Event, i: Issued, sizeOf: int -> int)
    requires FromForest(g.pending.requests, i.requests, i.ends) && forall x :: sizeOf(x) == Weigh(x)
    ensures Booked(a, g, e, i.requests, i.ends, sizeOf) == Booked(a, g, e, i.requests, i.ends, Weigh)
  {
    assert OnReset(g.pending.requests, sizeOf).requests == OnReset(g.pending.requests, Weigh).requests;
  }

  // A step of the worker, and the delivery of what it emits.
  lemma TickHears(acts: seq<SystemAction>, choice: Choice)
    requires CleanRun(acts) && SystemRun(acts).inbox == []
    requires CleanRun(acts + [Thread(Work(choice))]) && CleanRun(acts + [Thread(Work(choice)), Deliver])
    ensures var mid := SystemRun(acts + [Thread(Work(choice))]);
            && mid.w.issued == SystemRun(acts).w.issued
            && Hears(acts, acts + [Thread(Work(choice)), Deliver], mid.inbox)
  {
    var s, mid := SystemRun(acts), acts + [Thread(Work(choice))];
    var more := acts + [Thread(Work(choice)), Deliver];
    assert mid[..|mid| - 1] == acts && more[..|more| - 1] == mid;
    WorkKeepsIssued(s.w, choice);
    RunKeepsFlag(acts);
    if SystemRun(mid).inbox != [] {
      FirstInForest(mid);
      BookedBySize(Books(acts, AT), Heard(acts), SystemRun(mid).inbox[0], s.w.issued, id => AT(|mid|, id));
      assert SystemRun(mid).inbox[1..] == [];
    }
  }

  lemma {:induction false} FollowOn(a: Account, g: Gui, i: Issued, es: seq<Event>, fs: seq<Event>)
    requires var (b, h) := Follow(a, g, i, es); FromForest(h.pending.requests, i.requests, i.ends)
    ensures var (b, h) := Follow(a, g, i, es); Follow(a, g, i, es + fs) == Follow(b, h, i, fs)
    decreases |es|
  {
    if es == [] {
      assert es + fs == fs;
    } else if FromForest(g.pending.requests, i.requests, i.ends) {
      assert (es + fs)[1..] == es[1..] + fs;
      FollowOn(Booked(a, g, es[0], i.requests, i.ends, Weigh), Hear(g, es[0]), i, es[1..], fs);
    }
  }

  lemma HearsOn(acts: seq<SystemAction>, mid: seq<SystemAction>, more: seq<SystemAction>, es: seq<Event>,
                fs: seq<Event>)
    requires Hears(acts, mid, es) && Hears(mid, more, fs) && SystemRun(mid).w.issued == SystemRun(acts).w.issued
    requires CleanRun(acts) && CleanRun(mid) && CleanRun(more)
    ensures Hears(acts, more, es + fs)
  {
    FirstInForest(mid);
    FollowOn(Books(acts, AT), Heard(acts), SystemRun(acts).w.issued, es, fs);
  }

  // One step of the worker; a signal it emits is delivered at once.
  lemma Tick(acts: seq<SystemAction>, choice: Choice) returns (more: seq<SystemAction>)
    requires SystemRun(acts).inbox == [] && !SystemRun(acts).w.undefined
    ensures more == acts + [Thread(Work(choice)), Deliver]
    ensures SystemRun(more) == Told(SystemRun(acts), WorkStep(SystemRun(acts).w, choice))
    ensures CleanRun(acts) && CleanChoice(SystemRun(acts).w, choice) ==>
              && CleanRun(more)
              && Hears(acts, more, EmittedBy(SystemRun(acts).w.events, WorkStep(SystemRun(acts).w, choice).events))
  {
    var s := SystemRun(acts);
    var mid := Step(acts, Thread(Work(choice)));
    more := Step(mid, Deliver);
    assert more == acts + [Thread(Work(choice)), Deliver];
    LogGrows(WorkStep(s.w, choice).events);
    assert s.inbox + EmittedBy(s.w.events, WorkStep(s.w, choice).events)
           == EmittedBy(s.w.events, WorkStep(s.w, choice).events);
    WorkEmits(s.w, choice);
    if CleanRun(acts) && CleanRun(mid) && CleanRun(more) { TickHears(acts, choice); }
  }

  lemma WorkEmits(s: State, choice: Choice)
    ensures WorkStep(s, choice).events == s.events
            || (WorkStep(s, choice).events.Log? && WorkStep(s, choice).events.past == s.events)
  {
  }

  // A batch is handed over to a new copier, and the worker is about to take the first request.
  ghost function Fresh(batch: Requests, blocks: Ends, hi: int): System {
    System(INIT.(issued := Issued(batch, blocks, hi), queue := map x | x in batch :: Marks(false, false, false),
                 schedule := Schedule(Top, false, GuiIdle, 0)),
           Pending(batch, Nil), [], Silent)
  }

  lemma Register(batch: Requests, blocks: Ends, hi: int) returns (acts: seq<SystemAction>)
    requires Numbered(batch, blocks) && 0 < hi && (forall id :: id in batch <==> 0 <= id < hi)
    requires forall id :: id in batch ==> !batch[id].copyFlags.nonInteractive
    ensures SystemRun(acts) == Fresh(batch, blocks, hi).(
              w := INIT.(issued := Issued(batch, blocks, hi),
                         schedule := Schedule(NotRunning, false, MustEnqueue(batch.Keys), 0)))
    ensures CleanRun(acts)
  {
    acts := Step([], Thread(Submit(batch, blocks, hi)));
    assert map[] + batch == batch && map[] + blocks == blocks;
    assert [] + EmittedBy(Silent, Silent) == [];
  }

  lemma Begin(batch: Requests, blocks: Ends, hi: int) returns (acts: seq<SystemAction>)
    requires Numbered(batch, blocks) && 0 < hi && (forall id :: id in batch <==> 0 <= id < hi)
    requires forall id :: id in batch ==> !batch[id].copyFlags.nonInteractive
    ensures SystemRun(acts) == Fresh(batch, blocks, hi) && CleanRun(acts)
  {
    acts := Register(batch, blocks, hi);
    acts := Step(acts, Thread(Enqueue));
    var queue := map x | x in batch :: Marks(false, false, false);
    assert map[] + queue == queue;
    assert SystemRun(acts).w == INIT.(issued := Issued(batch, blocks, hi), queue := queue,
                                      schedule := Schedule(NotRunning, false, MustSchedule, 0));
    acts := Step(acts, Thread(ScheduleRestart));
    acts := Step(acts, Thread(Restart));
  }

  // run() takes the first request.
  lemma Take(acts: seq<SystemAction>, id: int) returns (more: seq<SystemAction>)
    requires var w := SystemRun(acts).w;
             && SystemRun(acts).inbox == [] && !w.undefined && w.stack.Bottom? && w.schedule.run.Top?
             && !w.control.cancelRequest && IsLeast(w.queue.Keys, id) && id in w.issued.requests
    ensures var s := SystemRun(acts);
            SystemRun(more) == s.(w := s.w.(stack := Frame(id, false, s.w.currentId, Start, Bottom), currentId := id))
    ensures CleanRun(acts) ==> CleanRun(more) && Hears(acts, more, [])
  {
    var s := SystemRun(acts);
    LogGrows(s.w.events);
    var mid := Tick(acts, Proceed);
    assert SystemRun(mid).w == SetRun(s.w, Ready);
    more := Tick(mid, Proceed);
    if CleanRun(acts) { HearsOn(acts, mid, more, [], []); }
  }

  // handle() announces the request and builds its chain.
  lemma Open(acts: seq<SystemAction>) returns (more: seq<SystemAction>)
    requires var w := SystemRun(acts).w;
             && SystemRun(acts).inbox == [] && !w.undefined && w.stack.Frame? && w.stack.pc.Start? && !w.stack.rename
             && w.stack.id in w.issued.requests && w.stack.id in w.queue
    ensures var s := SystemRun(acts); var id, m := s.w.stack.id, s.w.queue[s.w.stack.id];
            SystemRun(more) ==
            System(s.w.(stack := s.w.stack.(pc := Chain(m.canceled, m.overwrite || s.w.control.overwriteAll)),
                        events := Log(Started(id), s.w.events)),
                   OnSignal(s.gui, Started(id)), [], Log(Started(id), s.delivered))
    ensures CleanRun(acts) ==> CleanRun(more) && Hears(acts, more, [Started(SystemRun(acts).w.stack.id)])
  {
    var s, e := SystemRun(acts), Started(SystemRun(acts).w.stack.id);
    LogGrows(Log(e, s.w.events));
    var mid := Tick(acts, Proceed);
    more := Tick(mid, Proceed);
    if CleanRun(acts) { HearsOn(acts, mid, more, [e], []); }
  }

  // A directory's loop takes its next child.
  lemma NextChild(acts: seq<SystemAction>) returns (more: seq<SystemAction>)
    requires var w := SystemRun(acts).w;
             && SystemRun(acts).inbox == [] && !w.undefined && w.stack.Frame? && w.stack.pc.Kids?
             && w.stack.pc.todo != []
             && w.stack.id in w.issued.requests && w.stack.id in w.queue && !w.control.cancelRequest
             && w.stack.pc.todo[0] in w.queue && w.stack.pc.todo[0] in w.issued.requests
    ensures var s := SystemRun(acts); var k := s.w.stack; var c := k.pc.todo[0];
            SystemRun(more) ==
            s.(w := s.w.(stack := Frame(c, false, s.w.currentId, Start, k.(pc := Kids(k.pc.todo[1..]))),
                         currentId := c))
    ensures CleanRun(acts) ==> CleanRun(more) && Hears(acts, more, [])
  {
    LogGrows(SystemRun(acts).w.events);
    more := Tick(acts, Proceed);
  }

  // handle() announces the end.
  lemma Announce(acts: seq<SystemAction>) returns (more: seq<SystemAction>)
    requires var w := SystemRun(acts).w;
             && SystemRun(acts).inbox == [] && !w.undefined && w.stack.Frame? && w.stack.pc.Finish?
             && w.stack.id in w.issued.requests && w.stack.id in w.queue
    ensures var s := SystemRun(acts); var e := Finished(s.w.stack.id, s.w.stack.pc.outcome != NoError);
            SystemRun(more) ==
            System(s.w.(stack := s.w.stack.(pc := Leave), events := Log(e, s.w.events)), OnSignal(s.gui, e), [],
                   Log(e, s.delivered))
    ensures CleanRun(acts) ==>
              && CleanRun(more)
              && Hears(acts, more,
                       [Finished(SystemRun(acts).w.stack.id, SystemRun(acts).w.stack.pc.outcome != NoError)])
  {
    var w := SystemRun(acts).w;
    var e := Finished(w.stack.id, w.stack.pc.outcome != NoError);
    assert WorkStep(w, Proceed) == w.(stack := w.stack.(pc := Leave), events := Log(e, w.events));
    LogGrows(Log(e, w.events));
    more := Tick(acts, Proceed);
  }

  // It returns.
  lemma Return(acts: seq<SystemAction>) returns (more: seq<SystemAction>)
    requires var w := SystemRun(acts).w;
             && SystemRun(acts).inbox == [] && !w.undefined && w.stack.Frame? && w.stack.pc.Leave?
             && w.stack.id in w.issued.requests && w.stack.id in w.queue
    ensures var s := SystemRun(acts); var k := s.w.stack;
            SystemRun(more) == s.(w := s.w.(stack := k.below, currentId := k.previous, queue := s.w.queue - {k.id}))
    ensures CleanRun(acts) ==> CleanRun(more) && Hears(acts, more, [])
  {
    LogGrows(SystemRun(acts).w.events);
    more := Tick(acts, Proceed);
  }

  lemma Close(acts: seq<SystemAction>) returns (more: seq<SystemAction>)
    requires var w := SystemRun(acts).w;
             && SystemRun(acts).inbox == [] && !w.undefined && w.stack.Frame? && w.stack.pc.Finish?
             && w.stack.id in w.issued.requests && w.stack.id in w.queue
    ensures var s := SystemRun(acts); var k := s.w.stack; var e := Finished(k.id, k.pc.outcome != NoError);
            SystemRun(more) ==
            System(s.w.(stack := k.below, currentId := k.previous, queue := s.w.queue - {k.id},
                        events := Log(e, s.w.events)),
                   OnSignal(s.gui, e), [], Log(e, s.delivered))
    ensures CleanRun(acts) ==>
              && CleanRun(more)
              && Hears(acts, more,
                       [Finished(SystemRun(acts).w.stack.id, SystemRun(acts).w.stack.pc.outcome != NoError)])
  {
    var k := SystemRun(acts).w.stack;
    var mid := Announce(acts);
    more := Return(mid);
    if CleanRun(acts) { HearsOn(acts, mid, more, [Finished(k.id, k.pc.outcome != NoError)], []); }
  }

  // An attempt has succeeded.
  lemma Succeed(acts: seq<SystemAction>) returns (more: seq<SystemAction>)
    requires var w := SystemRun(acts).w;
             && SystemRun(acts).inbox == [] && !w.undefined && w.stack.Frame? && w.stack.pc == Result(true, NoError)
             && w.stack.id in w.issued.requests && w.stack.id in w.queue
    ensures var s := SystemRun(acts); var k := s.w.stack; var e := Finished(k.id, false);
            SystemRun(more) ==
            System(s.w.(stack := k.below, currentId := k.previous, queue := s.w.queue - {k.id},
                        events := Log(e, s.w.events)),
                   OnSignal(s.gui, e), [], Log(e, s.delivered))
    ensures CleanRun(acts) ==> CleanRun(more) && Hears(acts, more, [Finished(SystemRun(acts).w.stack.id, false)])
  {
    var s := SystemRun(acts);
    LogGrows(s.w.events);
    var mid := Tick(acts, Proceed);
    more := Close(mid);
    if CleanRun(acts) { HearsOn(acts, mid, more, [], [Finished(s.w.stack.id, false)]); }
  }

  function Sample(children: seq<int>, dir: bool): CopyRequest {
    CopyRequest(children, "source", "dest", false, dir, FLAGS)
  }

  // The bytes of a plain file are copied.
  lemma CopyBytes(acts: seq<SystemAction>) returns (more: seq<SystemAction>)
    requires var w := SystemRun(acts).w;
             && SystemRun(acts).inbox == [] && !w.undefined && w.stack.Frame? && w.stack.pc.Chain?
             && !w.stack.pc.canceled
             && w.stack.id in w.issued.requests && w.stack.id in w.queue && !w.queue[w.stack.id].moveError
             && w.issued.requests[w.stack.id] == Sample([], false)
    ensures var s := SystemRun(acts); var p := Progressed(s.w.stack.id);
            SystemRun(more) ==
            s.(w := s.w.(stack := s.w.stack.(pc := Result(true, NoError)), events := Log(p, s.w.events)),
               delivered := Log(p, s.delivered))
    ensures CleanRun(acts) ==> CleanRun(more) && Hears(acts, more, [Progressed(SystemRun(acts).w.stack.id)])
  {
    var w := SystemRun(acts).w;
    var id := w.stack.id;
    assert WorkStep(w, FileCopied) == Goto(Emit(w, Progressed(id)), Result(true, NoError));
    LogGrows(Log(Progressed(id), w.events));
    more := Tick(acts, FileCopied);
  }

  // The file is through.
  lemma CopyFile(acts: seq<SystemAction>) returns (more: seq<SystemAction>)
    requires var w := SystemRun(acts).w;
             && SystemRun(acts).inbox == [] && !w.undefined && w.stack.Frame? && w.stack.pc.Chain?
             && !w.stack.pc.canceled
             && w.stack.id in w.issued.requests && w.stack.id in w.queue && !w.queue[w.stack.id].moveError
             && w.issued.requests[w.stack.id] == Sample([], false)
    ensures var s := SystemRun(acts); var k := s.w.stack; var p, e := Progressed(k.id), Finished(k.id, false);
            SystemRun(more) ==
            System(s.w.(stack := k.below, currentId := k.previous, queue := s.w.queue - {k.id},
                        events := Log(e, Log(p, s.w.events))),
                   OnSignal(s.gui, e), [], Log(e, Log(p, s.delivered)))
    ensures CleanRun(acts) ==>
              && CleanRun(more)
              && Hears(acts, more,
                       [Progressed(SystemRun(acts).w.stack.id), Finished(SystemRun(acts).w.stack.id, false)])
  {
    var id := SystemRun(acts).w.stack.id;
    var mid := CopyBytes(acts);
    more := Succeed(mid);
    if CleanRun(acts) { HearsOn(acts, mid, more, [Progressed(id)], [Finished(id, false)]); }
  }

  lemma EnteredStep(w: State)
    requires !w.undefined && w.stack.Frame? && w.stack.pc.Chain? && !w.stack.pc.canceled && !w.stack.rename
    requires w.stack.id in w.issued.requests && w.stack.id in w.queue
             && w.queue[w.stack.id] == Marks(false, false, false)
    requires w.issued.requests[w.stack.id].dir
    ensures WorkStep(w, DirEntered) == w.(stack := w.stack.(pc := Kids(w.issued.requests[w.stack.id].childrenQueue)))
    ensures CleanChoice(w, DirEntered) && EmittedBy(w.events, WorkStep(w, DirEntered).events) == []
  {
    LogGrows(w.events);
  }

  // A directory is opened, and its children are next.
  lemma EnterDirectory(acts: seq<SystemAction>) returns (more: seq<SystemAction>)
    requires var w := SystemRun(acts).w;
             && SystemRun(acts).inbox == [] && !w.undefined && w.stack.Frame? && w.stack.pc.Start? && !w.stack.rename
             && w.stack.id in w.issued.requests && w.stack.id in w.queue
             && w.queue[w.stack.id] == Marks(false, false, false)
             && w.issued.requests[w.stack.id].dir
    ensures var s := SystemRun(acts); var id := s.w.stack.id;
            SystemRun(more) ==
            System(s.w.(stack := s.w.stack.(pc := Kids(s.w.issued.requests[id].childrenQueue)),
                        events := Log(Started(id), s.w.events)),
                   OnSignal(s.gui, Started(id)), [], Log(Started(id), s.delivered))
    ensures CleanRun(acts) ==> CleanRun(more) && Hears(acts, more, [Started(SystemRun(acts).w.stack.id)])
  {
    var s := SystemRun(acts);
    LogGrows(Log(Started(s.w.stack.id), s.w.events));
    var mid := Open(acts);
    EnteredStep(SystemRun(mid).w);
    more := Tick(mid, DirEntered);
    if CleanRun(acts) { HearsOn(acts, mid, more, [Started(s.w.stack.id)], []); }
  }

  // All children are through.
  lemma LeaveDirectory(acts: seq<SystemAction>) returns (more: seq<SystemAction>)
    requires var w := SystemRun(acts).w;
             && SystemRun(acts).inbox == [] && !w.undefined && w.stack.Frame? && w.stack.pc == Kids([])
             && w.stack.id in w.issued.requests && w.stack.id in w.queue && !IsCanceled(w, w.stack.id)
             && !w.issued.requests[w.stack.id].move
    ensures var s := SystemRun(acts); var k := s.w.stack; var e := Finished(k.id, false);
            SystemRun(more) ==
            System(s.w.(stack := k.below, currentId := k.previous, queue := s.w.queue - {k.id},
                        events := Log(e, s.w.events)),
                   OnSignal(s.gui, e), [], Log(e, s.delivered))
    ensures CleanRun(acts) ==> CleanRun(more)
  {
    more := Tick(acts, Proceed);
    assert SystemRun(more).w == Goto(SystemRun(acts).w, AfterKids);
    more := Tick(more, Proceed);
    assert SystemRun(more).w == Goto(SystemRun(acts).w, Result(true, NoError));
    more := Succeed(more);
  }

  // ---------- a directory that turns into a link ----------

  // 0 is a directory with the sub-directory 1, which holds the file 2, and the file 3.
  const TREE: Requests := map[0 := Sample([1, 3], true), 1 := Sample([2], true), 2 := Sample([], false),
                              3 := Sample([], false)]

  const BLOCKS: Ends := map[0 := 4, 1 := 3, 2 := 3, 3 := 4]

  lemma TreeIsNumbered()
    ensures Numbered(TREE, BLOCKS)
  {
    var f, ends := TREE, BLOCKS;
    assert [1, 3][1..] == [3] && [3][1..] == [] && [2][1..] == [];
    assert Blocks(f, ends, [], 3, 3) && Blocks(f, ends, [], 4, 4);
    assert Blocks(f, ends, [3], 3, 4) && Blocks(f, ends, [2], 2, 3);
    assert Node(f, ends, 0) && Node(f, ends, 1) && Node(f, ends, 2) && Node(f, ends, 3);
  }

  // The worker is in the outer directory.
  lemma EnterOuter() returns (acts: seq<SystemAction>)
    ensures SystemRun(acts) ==
            System(Fresh(TREE, BLOCKS, 4).w.(currentId := 0, events := Log(Started(0), Silent),
                     stack := Frame(0, false, NONE, Kids([1, 3]), Bottom)),
                   Pending(TREE, Cons(0, Nil)), [], Log(Started(0), Silent))
    ensures CleanRun(acts)
  {
    TreeIsNumbered();
    acts := Begin(TREE, BLOCKS, 4);
    acts := Take(acts, 0);
    acts := EnterDirectory(acts);
  }

  // The worker is in the sub-directory.
  lemma EnterTree() returns (acts: seq<SystemAction>)
    ensures var events := Log(Started(1), Log(Started(0), Silent));
            SystemRun(acts) ==
            System(Fresh(TREE, BLOCKS, 4).w.(currentId := 1, events := events,
                     stack := Frame(1, false, 0, Chain(false, false), Frame(0, false, NONE, Kids([3]), Bottom))),
                   Pending(TREE, Cons(1, Cons(0, Nil))), [], events)
    ensures CleanRun(acts)
  {
    acts := EnterOuter();
    assert [1, 3][1..] == [3];
    acts := NextChild(acts);
    acts := Open(acts);
  }

  // It finds that the sub-directory has become a link, and makes a link.
  lemma LinkMade() returns (acts: seq<SystemAction>)
    ensures var events := Log(Finished(1, false), Log(Started(1), Log(Started(0), Silent)));
            var w := Fresh(TREE, BLOCKS, 4).w;
            SystemRun(acts) ==
            System(w.(currentId := 0, events := events, stack := Frame(0, false, NONE, Kids([3]), Bottom),
                      queue := w.queue - {1}),
                   Pending(TREE - {1}, Cons(0, Nil)), [], events)
    ensures CleanRun(acts)
  {
    acts := EnterTree();
    var w := SystemRun(acts).w;
    LogGrows(w.events);
    assert WorkStep(w, Linked) == Goto(w, Result(true, NoError));
    acts := Tick(acts, Linked);
    acts := Succeed(acts);
  }

  // The file below it stays pending on both sides, and a walk from the outer directory no longer meets it.
  lemma LinkLeavesTheFile() returns (acts: seq<SystemAction>)
    ensures CleanRun(acts)
    ensures var s := SystemRun(acts);
            && s.w.events.Log? && s.w.events.last == Finished(1, false) && s.inbox == []
            && 2 in s.gui.requests && 2 in s.w.queue && s.w.issued == Issued(TREE, BLOCKS, 4)
            && 2 !in Reach(s.w.issued.requests, s.w.queue.Keys, 0)
  {
    acts := LinkMade();
    var pending := SystemRun(acts).w.queue.Keys;
    ReachUnfolds(TREE, pending, 0);
    ReachAllIs(TREE, pending, [1, 3]);
    ReachAbsent(TREE, pending, 1);
    ReachUnfolds(TREE, pending, 3);
    ReachAllIs(TREE, pending, []);
  }

  // The neighbour is in the worker's hands.
  lemma NeighbourOpen() returns (acts: seq<SystemAction>)
    ensures CleanRun(acts)
    ensures var s, w := SystemRun(acts), Fresh(TREE, BLOCKS, 4).w;
            && s.inbox == [] && StartedIn(s.w.events, 3) && !StartedIn(s.w.events, 2)
            && s.w == w.(currentId := 3, queue := w.queue - {1}, events := s.w.events,
                         stack := Frame(3, false, 0, Chain(false, false), Frame(0, false, NONE, Kids([]), Bottom)))
  {
    acts := LinkMade();
    assert [3][1..] == [];
    acts := NextChild(acts);
    acts := Open(acts);
  }

  lemma NeighbourCopied() returns (acts: seq<SystemAction>)
    ensures CleanRun(acts)
    ensures var s, w := SystemRun(acts), Fresh(TREE, BLOCKS, 4).w;
            && s.inbox == [] && StartedIn(s.w.events, 3) && !StartedIn(s.w.events, 2)
            && s.w == w.(currentId := 0, queue := w.queue - {1} - {3}, events := s.w.events,
                         stack := Frame(0, false, NONE, Kids([]), Bottom))
  {
    acts := NeighbourOpen();
    var events := SystemRun(acts).w.events;
    acts := CopyFile(acts);
    assert SystemRun(acts).w.events == Log(Finished(3, false), Log(Progressed(3), events));
    assert StartedIn(Log(Progressed(3), events), 3) && !StartedIn(Log(Progressed(3), events), 2);
  }

  // The outer directory is through, and only the file is left.
  lemma OnlyTheFileIsLeft() returns (acts: seq<SystemAction>)
    ensures CleanRun(acts)
    ensures var s, w := SystemRun(acts), Fresh(TREE, BLOCKS, 4).w;
            && s.inbox == [] && StartedIn(s.w.events, 3) && !StartedIn(s.w.events, 2)
            && s.w == w.(queue := map[2 := Marks(false, false, false)], events := s.w.events)
  {
    acts := NeighbourCopied();
    var w := SystemRun(acts).w;
    assert w.queue - {0} == map[2 := Marks(false, false, false)];
    acts := LeaveDirectory(acts);
    assert SystemRun(acts).w.events == Log(Finished(0, false), w.events);
  }

  // It is taken for itself then, after its larger neighbour: the ids of started() do not ascend.
  lemma LinkBreaksTheOrder() returns (acts: seq<SystemAction>)
    ensures CleanRun(acts)
    ensures var events := SystemRun(acts).w.events;
            StartedIn(events, 3) && LastStarted(events) == 2 && !Ascending(events, SystemRun(acts).w.issued.nextId)
  {
    acts := OnlyTheFileIsLeft();
    var events := SystemRun(acts).w.events;
    acts := Take(acts, 2);
    acts := Open(acts);
    if Ascending(events, 2) { AscendingBound(events, 2, 3); }
  }

  // ---------- a directory canceled after its file was copied ----------

  const PAIR: Requests := map[0 := Sample([1], true), 1 := Sample([], false)]

  const PAIR_BLOCKS: Ends := map[0 := 2, 1 := 2]

  lemma PairIsNumbered()
    ensures Numbered(PAIR, PAIR_BLOCKS)
  {
    var f, ends := PAIR, PAIR_BLOCKS;
    assert [1][1..] == [] && Blocks(f, ends, [], 2, 2) && Blocks(f, ends, [1], 1, 2);
    assert Node(f, ends, 0) && Node(f, ends, 1);
  }

  lemma NothingHeard(batch: Requests, blocks: Ends, hi: int) returns (acts: seq<SystemAction>)
    requires Numbered(batch, blocks) && 0 < hi && (forall id :: id in batch <==> 0 <= id < hi)
    requires forall id :: id in batch ==> !batch[id].copyFlags.nonInteractive
    ensures SystemRun(acts) == Fresh(batch, blocks, hi) && CleanRun(acts)
    ensures Books(acts, AT) == Account(0, 0, 0, NONE, map[])
            && Heard(acts) == Gui(Pending(batch, Nil), Idle, false, false, [])
  {
    acts := Begin(batch, blocks, hi);
    SilentBooks(acts);
  }

  // Nothing delivered, nothing booked.
  lemma {:induction false} SilentBooks(acts: seq<SystemAction>)
    requires CleanRun(acts) && SystemRun(acts).delivered.Silent?
    ensures Books(acts, AT) == Account(0, 0, 0, NONE, map[])
    ensures Heard(acts) == Gui(SystemRun(acts).gui, Idle, false, false, [])
  {
    if acts != [] { SilentBooks(acts[..|acts| - 1]); }
  }

  // A run of the pair that has come to the worker's state `t`, and what was heard since it began.
  ghost predicate PairRun(start: seq<SystemAction>, acts: seq<SystemAction>, t: State, es: seq<Event>) {
    && CleanRun(start) && SystemRun(start) == Fresh(PAIR, PAIR_BLOCKS, 2)
    && Books(start, AT) == Account(0, 0, 0, NONE, map[])
    && Heard(start) == Gui(Pending(PAIR, Nil), Idle, false, false, [])
    && CleanRun(acts) && Hears(start, acts, es) && SystemRun(acts).inbox == [] && SystemRun(acts).w == t
  }

  ghost function PairState(stack: Stack, queue: map<int, Marks>, currentId: int, events: Log): State {
    Fresh(PAIR, PAIR_BLOCKS, 2).w.(stack := stack, queue := queue, currentId := currentId, events := events)
  }

  const UNMARKED := Marks(false, false, false)

  lemma PairTaken() returns (start: seq<SystemAction>, acts: seq<SystemAction>)
    ensures PairRun(start, acts,
                    PairState(Frame(0, false, NONE, Start, Bottom), map[0 := UNMARKED, 1 := UNMARKED], 0, Silent), [])
  {
    PairIsNumbered();
    start := NothingHeard(PAIR, PAIR_BLOCKS, 2);
    acts := Take(start, 0);
    assert (map x | x in PAIR :: UNMARKED) == map[0 := UNMARKED, 1 := UNMARKED];
  }

  lemma PairEntered() returns (start: seq<SystemAction>, acts: seq<SystemAction>)
    ensures PairRun(start, acts,
                    PairState(Frame(0, false, NONE, Kids([1]), Bottom), map[0 := UNMARKED, 1 := UNMARKED], 0,
                              Log(Started(0), Silent)), [Started(0)])
  {
    var mid;
    start, mid := PairTaken();
    acts := EnterDirectory(mid);
    HearsOn(start, mid, acts, [], [Started(0)]);
    assert [] + [Started(0)] == [Started(0)];
  }

  lemma PairFileOpened() returns (start: seq<SystemAction>, acts: seq<SystemAction>)
    ensures PairRun(start, acts, PairState(Frame(1, false, 0, Chain(false, false),
                                                 Frame(0, false, NONE, Kids([]), Bottom)),
                                           map[0 := UNMARKED, 1 := UNMARKED], 1,
                                           Log(Started(1), Log(Started(0), Silent))),
                    [Started(0), Started(1)])
  {
    var first;
    start, first := PairEntered();
    assert [1][1..] == [];
    var mid := NextChild(first);
    acts := Open(mid);
    HearsOn(start, first, mid, [Started(0)], []);
    HearsOn(start, mid, acts, [Started(0)] + [], [Started(1)]);
    assert [Started(0)] + [] + [Started(1)] == [Started(0), Started(1)];
  }

  // The file has been copied, and the directory's loop is at its end.
  lemma PairCopied() returns (start: seq<SystemAction>, acts: seq<SystemAction>)
    ensures PairRun(start, acts, PairState(Frame(0, false, NONE, Kids([]), Bottom), map[0 := UNMARKED], 0,
                                           Log(Finished(1, false),
                                               Log(Progressed(1), Log(Started(1), Log(Started(0), Silent))))),
                    [Started(0), Started(1), Progressed(1), Finished(1, false)])
  {
    var mid;
    start, mid := PairFileOpened();
    acts := CopyFile(mid);
    HearsOn(start, mid, acts, [Started(0), Started(1)], [Progressed(1), Finished(1, false)]);
    assert map[0 := UNMARKED, 1 := UNMARKED] - {1} == map[0 := UNMARKED];
    assert [Started(0), Started(1)] + [Progressed(1), Finished(1, false)]
        == [Started(0), Started(1), Progressed(1), Finished(1, false)];
  }

  // Now the user cancels the directory.
  lemma CancelHears(acts: seq<SystemAction>, id: int) returns (more: seq<SystemAction>)
    requires var w := SystemRun(acts).w;
             && CleanRun(acts) && SystemRun(acts).inbox == [] && !w.undefined && w.schedule.gui.GuiIdle?
             && !w.control.stopRequest
    ensures CleanRun(more) && Hears(acts, more, [])
    ensures SystemRun(more) == SystemRun(acts).(w := SystemRun(acts).w.(queue := MarkCanceled(SystemRun(acts).w, id)))
  {
    more := Step(acts, Thread(Cancel(id)));
    LogGrows(SystemRun(acts).w.events);
    RunKeepsFlag(acts);
    assert more[..|more| - 1] == acts;
  }

  lemma PairCanceled() returns (start: seq<SystemAction>, acts: seq<SystemAction>)
    ensures PairRun(start, acts, PairState(Frame(0, false, NONE, Kids([]), Bottom),
                                           map[0 := UNMARKED.(canceled := true)], 0,
                                           Log(Finished(1, false),
                                               Log(Progressed(1), Log(Started(1), Log(Started(0), Silent))))),
                    [Started(0), Started(1), Progressed(1), Finished(1, false)])
  {
    var mid;
    start, mid := PairCopied();
    acts := CancelHears(mid, 0);
    ReachSelf(PAIR, {0}, 0);
    assert SystemRun(mid).w.queue.Keys == {0};
    assert SystemRun(acts).w.queue == map[0 := UNMARKED.(canceled := true)];
    HearsOn(start, mid, acts, [Started(0), Started(1), Progressed(1), Finished(1, false)], []);
    assert [Started(0), Started(1), Progressed(1), Finished(1, false)] + []
        == [Started(0), Started(1), Progressed(1), Finished(1, false)];
  }

  // The loop is at its end, and the request was canceled meanwhile.
  lemma EndCanceled(acts: seq<SystemAction>) returns (more: seq<SystemAction>)
    requires var w := SystemRun(acts).w;
             && SystemRun(acts).inbox == [] && !w.undefined && w.stack.Frame? && w.stack.pc == Kids([])
             && w.stack.id in w.issued.requests && w.stack.id in w.queue && w.queue[w.stack.id].canceled
    ensures SystemRun(more) == SystemRun(acts).(w := Goto(SystemRun(acts).w, Result(true, Canceled)))
    ensures CleanRun(acts) ==> CleanRun(more) && Hears(acts, more, [])
  {
    LogGrows(SystemRun(acts).w.events);
    var mid := Tick(acts, Proceed);
    assert SystemRun(mid).w == Goto(SystemRun(acts).w, AfterKids);
    more := Tick(mid, Proceed);
    if CleanRun(acts) { HearsOn(acts, mid, more, [], []); }
  }

  // A canceled request is reported.
  lemma ReportCanceled(acts: seq<SystemAction>) returns (more: seq<SystemAction>)
    requires var w := SystemRun(acts).w;
             && SystemRun(acts).inbox == [] && !w.undefined && w.stack.Frame? && w.stack.pc == Result(true, Canceled)
             && w.stack.id in w.issued.requests && w.stack.id in w.queue
    ensures var s := SystemRun(acts); var r := Reported(s.w.stack.id, Canceled, false);
            SystemRun(more) ==
            s.(w := s.w.(stack := s.w.stack.(pc := Finish(Canceled)), events := Log(r, s.w.events)),
               delivered := Log(r, s.delivered))
    ensures CleanRun(acts) ==>
              && CleanRun(more)
              && Hears(acts, more, [Reported(SystemRun(acts).w.stack.id, Canceled, false)])
  {
    LogGrows(Log(Reported(SystemRun(acts).w.stack.id, Canceled, false), SystemRun(acts).w.events));
    more := Tick(acts, Proceed);
  }

  // It is reported and finished.
  lemma FinishCanceled(acts: seq<SystemAction>) returns (more: seq<SystemAction>)
    requires var w := SystemRun(acts).w;
             && SystemRun(acts).inbox == [] && !w.undefined && w.stack.Frame? && w.stack.pc == Result(true, Canceled)
             && w.stack.id in w.issued.requests && w.stack.id in w.queue
    ensures var s := SystemRun(acts); var k := s.w.stack;
            var r, e := Reported(k.id, Canceled, false), Finished(k.id, true);
            SystemRun(more) ==
            System(s.w.(stack := k.below, currentId := k.previous, queue := s.w.queue - {k.id},
                        events := Log(e, Log(r, s.w.events))),
                   OnSignal(s.gui, e), [], Log(e, Log(r, s.delivered)))
    ensures CleanRun(acts) ==>
              && CleanRun(more)
              && Hears(acts, more, [Reported(SystemRun(acts).w.stack.id, Canceled, false),
                                    Finished(SystemRun(acts).w.stack.id, true)])
  {
    var id := SystemRun(acts).w.stack.id;
    var mid := ReportCanceled(acts);
    more := Close(mid);
    if CleanRun(acts) { HearsOn(acts, mid, more, [Reported(id, Canceled, false)], [Finished(id, true)]); }
  }

  const HEARD: seq<Event> :=
    [Started(0), Started(1), Progressed(1), Finished(1, false), Reported(0, Canceled, false), Finished(0, true)]

  lemma PairFinished() returns (start: seq<SystemAction>, acts: seq<SystemAction>)
    ensures CleanRun(start) && SystemRun(start) == Fresh(PAIR, PAIR_BLOCKS, 2)
    ensures Books(start, AT) == Account(0, 0, 0, NONE, map[])
            && Heard(start) == Gui(Pending(PAIR, Nil), Idle, false, false, [])
    ensures CleanRun(acts) && Hears(start, acts, HEARD) && SystemRun(acts).w.stack.Bottom?
            && SystemRun(acts).w.queue == map[]
  {
    var a, es := [], [Started(0), Started(1), Progressed(1), Finished(1, false)];
    start, a := PairCanceled();
    var b := EndCanceled(a);
    HearsOn(start, a, b, es, []);
    acts := FinishCanceled(b);
    HearsOn(start, b, acts, es + [], [Reported(0, Canceled, false), Finished(0, true)]);
    assert es + [] + [Reported(0, Canceled, false), Finished(0, true)] == HEARD;
  }

  // ---------- its books ----------

  // The books once the file is done: five bytes done, five in total, and both requests on record.
  lemma BooksOfTheFile()
    ensures var i := Issued(PAIR, PAIR_BLOCKS, 2);
            var (a, g) := Follow(Account(0, 0, 0, NONE, map[]), Gui(Pending(PAIR, Nil), Idle, false, false, []), i,
                                 [Started(0), Started(1), Progressed(1), Finished(1, false)]);
            && a.totalSize == 5 && a.currentDone == 5 && Lookup(a.requests, 0).size == 0
            && Lookup(a.requests, 1).size == 5
            && g.pending == Pending(map[0 := PAIR[0]], Cons(0, Nil))
  {
    PairIsNumbered();
    var i := Issued(PAIR, PAIR_BLOCKS, 2);
    var es := [Started(0), Started(1), Progressed(1), Finished(1, false)];
    assert es[1..] == [Started(1), Progressed(1), Finished(1, false)]
           && es[1..][1..] == [Progressed(1), Finished(1, false)];
    assert es[1..][1..][1..] == [Finished(1, false)] && es[1..][1..][1..][1..] == [];
    var a0 := OnReset(PAIR, Weigh);
    SumRemove(a0.requests, {0, 1}, 1);
    SumRemove(a0.requests, {0, 1} - {1}, 0);
    assert PAIR.Keys == {0, 1} && {0, 1} - {1} - {0} == {} && a0.totalSize == 5;
    assert PAIR - {1} == map[0 := PAIR[0]];
  }

  // Then the directory fails, and the file's five bytes are counted out a second time.
  lemma BooksOfTheFailure(a: Account, g: Gui, i: Issued)
    requires i == Issued(PAIR, PAIR_BLOCKS, 2) && g.pending == Pending(map[0 := PAIR[0]], Cons(0, Nil))
    requires FromForest(g.pending.requests, i.requests, i.ends)
    requires a.totalSize == 5 && a.currentDone == 5 && Lookup(a.requests, 0).size == 0
             && Lookup(a.requests, 1).size == 5
    ensures var (b, h) := Follow(a, g, i, [Reported(0, Canceled, false), Finished(0, true)]);
            b.totalSize == 0 && b.currentDone == 5 && h.state == Idle && h.pending == Pending(map[], Nil)
  {
    var es, r := [Reported(0, Canceled, false), Finished(0, true)], g.pending.requests;
    assert es[1..] == [Finished(0, true)] && es[1..][1..] == [];
    assert Walked(r, i.requests, i.ends, a.requests, 1) == 0;
    assert WalkedTo(r, i.requests, i.ends, a.requests, 0, 0) == 0;
    assert WalkedTo(r, i.requests, i.ends, a.requests, 0, 1) == 5;
    assert WithoutChildren(r, 0) - {0} == map[];
  }

  lemma BooksOfTheRun()
    ensures var (b, h) := Follow(Account(0, 0, 0, NONE, map[]), Gui(Pending(PAIR, Nil), Idle, false, false, []),
                                 Issued(PAIR, PAIR_BLOCKS, 2), HEARD);
            b.totalSize == 0 && b.currentDone == 5 && h.state == Idle && h.pending == Pending(map[], Nil)
  {
    var i, a, g := Issued(PAIR, PAIR_BLOCKS, 2), Account(0, 0, 0, NONE, map[]),
        Gui(Pending(PAIR, Nil), Idle, false, false, []);
    var es := [Started(0), Started(1), Progressed(1), Finished(1, false)];
    BooksOfTheFile();
    PairIsNumbered();
    var (b, h) := Follow(a, g, i, es);
    FollowOn(a, g, i, es, [Reported(0, Canceled, false), Finished(0, true)]);
    assert es + [Reported(0, Canceled, false), Finished(0, true)] == HEARD;
    BooksOfTheFailure(b, h, i);
  }

  // A plain copy of a directory with one file of five bytes, canceled when the file has been copied: at the end
  // the dialog shows a total of nothing, and five bytes done.
  lemma LateCancelGoesWrong() returns (acts: seq<SystemAction>)
    ensures CleanRun(acts) && SystemRun(acts).w.stack.Bottom? && SystemRun(acts).w.queue == map[]
    ensures Heard(acts).state == Idle && Heard(acts).pending == Pending(map[], Nil)
    ensures Books(acts, AT).totalSize == 0 && Books(acts, AT).currentDone == 5
  {
    var start;
    start, acts := PairFinished();
    BooksOfTheRun();
  }

  // ---------- resetOverwrite() ----------

  const FILE: Requests := map[0 := Sample([], false)]

  const FILE_BLOCK: Ends := map[0 := 1]

  // A file's chain has been built, with or without a call of resetOverwrite() before.
  lemma FileOpened(reset: bool) returns (acts: seq<SystemAction>)
    ensures CleanRun(acts) && SystemRun(acts).inbox == []
    ensures var w := Fresh(FILE, FILE_BLOCK, 1).w;
            SystemRun(acts).w == w.(stack := Frame(0, false, NONE, Chain(false, reset), Bottom), currentId := 0,
                                    events := Log(Started(0), Silent), control := w.control.(overwriteAll := reset))
  {
    assert Node(FILE, FILE_BLOCK, 0);
    acts := Begin(FILE, FILE_BLOCK, 1);
    if reset {
      LogGrows(Silent);
      acts := Step(acts, Thread(ResetOverwrite));
      assert [] + EmittedBy(Silent, Silent) == [];
    }
    acts := Take(acts, 0);
    acts := Open(acts);
  }

  // The attempt under way can end with the error `e`.
  ghost predicate CanFail(w: State, e: Error) {
    var t := WorkStep(w, Fails(e));
    t.stack.Frame? && t.stack.pc == Result(false, e)
  }

  ghost predicate CanSucceed(w: State) {
    var t := WorkStep(w, FileCopied);
    t.stack.Frame? && t.stack.pc == Result(true, NoError)
  }

  lemma FileCanFail(w: State, replace: bool)
    requires w.stack == Frame(0, false, NONE, Chain(false, replace), Bottom) && 0 in w.queue && 0 in w.issued.requests
    requires w.issued.requests[0] == Sample([], false) && !w.queue[0].moveError
    ensures CanFail(w, DestinationExists) <==> !replace
    ensures CanSucceed(w)
  {
    var r := w.issued.requests[0];
    assert ChainError(r, replace, false, DestinationExists) <==> !replace;
    assert WorkStep(w, Fails(DestinationExists)) == if replace then w else Goto(w, Result(false, DestinationExists));
    assert WorkStep(w, FileCopied) == Goto(Emit(w, Progressed(0)), Result(true, NoError));
  }

  // The first file of a new copier meets an existing destination.  The user is asked; but if resetOverwrite() was
  // called before, which is documented to restore just that, nobody is, and the destination is overwritten.
  lemma ResetOverwriteOverwrites() returns (asked: seq<SystemAction>, silent: seq<SystemAction>)
    ensures CleanRun(asked) && CanFail(SystemRun(asked).w, DestinationExists)
    ensures CleanRun(silent) && !CanFail(SystemRun(silent).w, DestinationExists) && CanSucceed(SystemRun(silent).w)
    ensures SystemRun(silent).w.dialogue.answers == 0
  {
    asked := FileOpened(false);
    FileCanFail(SystemRun(asked).w, false);
    silent := FileOpened(true);
    FileCanFail(SystemRun(silent).w, true);
  }

  // ---------- cancelAll() after a failure ----------

  const ROW: Requests := map[0 := Sample([], false), 1 := Sample([], false)]

  const ROW_BLOCKS: Ends := map[0 := 1, 1 := 2]

  // The first of two files was canceled before its turn.
  lemma FirstCanceled() returns (acts: seq<SystemAction>)
    ensures var s, w := SystemRun(acts), Fresh(ROW, ROW_BLOCKS, 2).w;
            && s.inbox == []
            && s.w == w.(queue := s.w.queue, events := s.w.events, currentId := 0,
                         stack := Frame(0, false, NONE, Chain(true, false), Bottom)) && s.w.queue.Keys == {0, 1}
  {
    assert Node(ROW, ROW_BLOCKS, 0) && Node(ROW, ROW_BLOCKS, 1);
    acts := Begin(ROW, ROW_BLOCKS, 2);
    acts := CancelHears(acts, 0);
    ReachSelf(ROW, {0, 1}, 0);
    assert SystemRun(acts).w.queue.Keys == {0, 1} && SystemRun(acts).w.queue[0] == UNMARKED.(canceled := true);
    acts := Take(acts, 0);
    acts := Open(acts);
  }

  // That counts as a failure.
  lemma FirstFailed() returns (acts: seq<SystemAction>)
    ensures var s, w := SystemRun(acts), Fresh(ROW, ROW_BLOCKS, 2).w;
            && s.inbox == [] && s.delivered.Log? && s.delivered.last == Finished(0, true)
            && s.w == w.(queue := s.w.queue, events := s.w.events) && s.w.queue.Keys == {1}
  {
    acts := FirstCanceled();
    var w := SystemRun(acts).w;
    LogGrows(w.events);
    assert WorkStep(w, Proceed) == Goto(w, Result(true, Canceled));
    acts := Tick(acts, Proceed);
    acts := FinishCanceled(acts);
  }

  // A failure that was heard last is remembered.
  lemma {:induction false} HeardFailure(acts: seq<SystemAction>)
    requires SystemRun(acts).delivered.Log? && SystemRun(acts).delivered.last.Finished?
             && SystemRun(acts).delivered.last.error
    ensures FailedSince(acts)
  {
    var x, before := acts[|acts| - 1], acts[..|acts| - 1];
    if x.Thread? || SystemRun(before).inbox == [] { HeardFailure(before); }
  }

  // Then cancelAll(): done() says that nothing failed.
  lemma CanceledBatchClaimsSuccess() returns (acts: seq<SystemAction>)
    ensures FailedSince(acts) && FailedSince(acts + [Deliver])
    ensures var out := Heard(acts + [Deliver]).out; out != [] && out[|out| - 1] == DoneSignal(false)
  {
    acts := FirstFailed();
    var w := SystemRun(acts).w;
    LogGrows(w.events);
    acts := Step(acts, Thread(CancelAll));
    var v := SystemRun(acts).w;
    assert v.queue.Keys == {1} && v.control.cancelRequest && v.events == w.events;
    acts := Step(acts, Thread(Work(Proceed)));
    assert SystemRun(acts).inbox == [AllCanceled];
    HeardFailure(acts);
    DoneTellsFailure(acts);
    assert (acts + [Deliver])[..|acts|] == acts;
  }
}
