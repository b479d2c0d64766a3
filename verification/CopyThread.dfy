/** The copier's worker thread as a state machine.

    The worker's call stack is explicit: each frame is one activation of handle() or renameChildren().  One
    step of the worker is what it does between two points where another thread can get in: the mutex sections,
    the signals it emits and the file-system outcomes, which the environment chooses.  The GUI thread submits
    batches, cancels, answers errors and destroys the copier at any moment in between.
 */
module CopyThread {
  import opened Forest

  datatype Error =
    | NoError
    | SourceNotExists
    | DestinationExists
    | SourceDirectoryOmitted
    | SourceFileOmitted
    | PathToDestinationNotExists
    | CannotCreateDestinationDirectory
    | CannotOpenSourceFile
    | CannotOpenDestinationFile
    | CannotRemoveDestinationFile
    | CannotCreateSymLink
    | CannotReadSourceFile
    | CannotWriteDestinationFile
    | CannotRemoveSource
    | Canceled

  // The flags a queued request carries beside the request itself.
  datatype Marks = Marks(canceled: bool, overwrite: bool, moveError: bool)

  datatype Pc =
    | Start                                 // currentId is set, started() not emitted yet
    | Attempt                               // top of the retry loop
    | Chain(canceled: bool, replace: bool)  // the handler chain was built from these flags
    | Kids(todo: seq<int>)                  // CopyDirNode handles the children in turn
    | RenameKids(todo: seq<int>)            // renameChildren() on the children in turn
    | AfterKids
    | RemoveSource                          // MoveNode, the copy itself succeeded
    | Result(done: bool, err: Error)        // the chain returned
    | Waiting(error: Error)                 // inside interactionCondition.wait()
    | Finish(outcome: Error)                // about to emit finished()
    | Leave                                 // finished() emitted, about to drop the request

  // The activations of handle() and renameChildren(), innermost first.  `previous` is oldCurrentId;
  // `rename` tells renameChildren() from handle().
  datatype Stack = Bottom | Frame(id: int, rename: bool, previous: int, pc: Pc, below: Stack)

  datatype RunPc = NotRunning | Top | Ready | Sleeping | Stopped

  datatype Event =
    | Started(id: int)
    | Finished(id: int, error: bool)
    | Reported(id: int, err: Error, stopped: bool)
    | Progressed(id: int)
    | AllCanceled

  // The signals emitted so far, latest first.
  datatype Log = Silent | Log(last: Event, past: Log)

  datatype GuiPc = GuiIdle | MustEnqueue(ids: set<int>) | MustSchedule

  // What the user asked for that is not tied to one request.
  datatype Control = Control(
    stopRequest: bool, skipAllRequest: bool, skipAllError: set<Error>,
    overwriteAll: bool, cancelRequest: bool, autoReset: bool)

  // Every request issued so far; ids below nextId are in use.
  datatype Issued = Issued(requests: Requests, ends: Ends, nextId: int)

  // run() and the way jobs reach it: `wakeUp` is a wake-up pending on newCopyCondition, `restarts` counts
  // the restart() calls the GUI event loop still owes.
  datatype Schedule = Schedule(run: RunPc, wakeUp: bool, gui: GuiPc, restarts: nat)

  // The dialogue with the user: `answered` is a wake-up pending on interactionCondition;
  // `answers` is a history variable counting the answers accepted.
  datatype Dialogue = Dialogue(waiting: bool, answered: bool, answers: nat)

  // `undefined` is set where the source would dereference QMap::end(); `events` is a history variable.
  datatype State = State(
    issued: Issued, queue: map<int, Marks>, stack: Stack, currentId: int,
    schedule: Schedule, dialogue: Dialogue, control: Control, undefined: bool, events: Log)

  datatype Choice =
    | Proceed
    | Fails(err: Error)
    | Linked
    | Renamed
    | FileCopied
    | DirEntered
    | CanceledMidway
    | SourceRemoved
    | SourceKept

  datatype Action =
    | Work(choice: Choice)
    | Submit(batch: Requests, blocks: Ends, hi: int)
    | Enqueue
    | ScheduleRestart
    | Restart
    | CancelAll
    | Cancel(id: int)
    | Skip
    | SkipAll
    | Overwrite
    | OverwriteAll
    | Retry
    | ResetSkip
    | ResetOverwrite
    | SetAutoReset(on: bool)
    | Destroy

  const NONE: int := -1

  const INIT := State(
    Issued(map[], map[], 0), map[], Bottom, NONE, Schedule(NotRunning, false, GuiIdle, 0),
    Dialogue(false, false, 0), Control(false, false, {}, false, false, true), false, Silent)

  // ---------- the walks over pending requests ----------

  ghost function MarkCanceled(s: State, id: int): (q: map<int, Marks>)
    ensures q.Keys == s.queue.Keys
  {
    map x | x in s.queue ::
      if x in Reach(s.issued.requests, s.queue.Keys, id) then s.queue[x].(canceled := true) else s.queue[x]
  }

  ghost function MarkOverwrite(s: State, id: int): (q: map<int, Marks>)
    ensures q.Keys == s.queue.Keys
  {
    map x | x in s.queue ::
      if x in Reach(s.issued.requests, s.queue.Keys, id) then s.queue[x].(overwrite := true) else s.queue[x]
  }

  ghost function DropChildren(s: State, id: int): map<int, Marks> {
    s.queue - (Reach(s.issued.requests, s.queue.Keys, id) - {id})
  }

  // ---------- the worker ----------

  function Emit(s: State, e: Event): State {
    s.(events := Log(e, s.events))
  }

  // The innermost activation goes on at `pc`.
  function Goto(s: State, pc: Pc): State
    requires s.stack.Frame?
  {
    s.(stack := s.stack.(pc := pc))
  }

  // Entry of handle() and renameChildren(): look the request up and make it the current one.
  function Push(s: State, id: int, rename: bool): State {
    if id in s.queue && id in s.issued.requests then
      s.(stack := Frame(id, rename, s.currentId, Start, s.stack), currentId := id)
    else s.(undefined := true)
  }

  predicate IsCanceled(s: State, id: int) {
    s.control.cancelRequest || (id in s.queue && s.queue[id].canceled)
  }

  // Errors the nodes of the chain can report before the copy succeeded.
  predicate ChainError(r: CopyRequest, replace: bool, moveError: bool, e: Error) {
    match e
    case NoError => false
    case Canceled => false
    case CannotRemoveSource => false
    case SourceNotExists => true
    case DestinationExists => !replace && !r.copyFlags.nonInteractive
    case CannotCreateSymLink => true
    case SourceFileOmitted => r.dir && !moveError
    case PathToDestinationNotExists => r.dir && !moveError
    case CannotCreateDestinationDirectory => r.dir && !moveError
    case _ => !r.dir && !moveError
  }

  // What the worker's own steps inside handle() leave alone.
  predicate Untouched(s: State, t: State) {
    && t.issued == s.issued && t.schedule == s.schedule
    && t.control.stopRequest == s.control.stopRequest && t.control.cancelRequest == s.control.cancelRequest
    && t.control.overwriteAll == s.control.overwriteAll
    && OneMore(s.events, t.events)
  }

  // A step emits at most one signal.
  predicate OneMore(before: Log, after: Log) {
    after == before || (after.Log? && after.past == before)
  }

  // One evaluation of the handler chain, up to the children of a directory.
  ghost function ChainStep(s: State, canceled: bool, replace: bool, choice: Choice): (t: State)
    requires s.stack.Frame? && s.stack.id in s.issued.requests && s.stack.id in s.queue
    ensures Untouched(s, t)
  {
    var id := s.stack.id;
    var r := s.issued.requests[id];
    var moveError := s.queue[id].moveError;
    if canceled then
      Goto(if r.dir then s.(queue := DropChildren(s, id)) else s, Result(true, Canceled))
    else
      match choice
      case Fails(e) => if ChainError(r, replace, moveError, e) then Goto(s, Result(false, e)) else s
      case Linked => Goto(s, Result(true, NoError))
      case Renamed =>
        if !r.move then s
        else if r.dir then Goto(s, RenameKids(r.childrenQueue))
        else Goto(Emit(s, Progressed(id)), Result(true, NoError))
      case FileCopied =>
        if r.dir || moveError then s
        else Goto(Emit(s, Progressed(id)), if r.move then RemoveSource else Result(true, NoError))
      case DirEntered =>
        if !r.dir || moveError then s else Goto(s, Kids(r.childrenQueue))
      case CanceledMidway =>
        if r.dir || moveError || !IsCanceled(s, id) then s else Goto(s, Result(true, Canceled))
      case Proceed =>
        // the copy was done before, only the removal of the source is tried again
        if moveError && r.move then Goto(s, RemoveSource) else s
      case _ => s
  }

  function KidsStep(s: State, todo: seq<int>): (t: State)
    requires s.stack.Frame?
    ensures Untouched(s, t)
  {
    if todo == [] then Goto(s, AfterKids)
    else
      var u := Goto(s, Kids(todo[1..]));
      if s.control.cancelRequest then u else Push(u, todo[0], false)
  }

  function RenameKidsStep(s: State, todo: seq<int>): (t: State)
    requires s.stack.Frame? && s.stack.id in s.issued.requests
    ensures Untouched(s, t)
  {
    var f := s.stack;
    if todo != [] then Push(Goto(s, RenameKids(todo[1..])), todo[0], true)
    else if !f.rename then Goto(s, Result(true, NoError))
    else Goto(if s.issued.requests[f.id].dir then s else Emit(s, Progressed(f.id)), Finish(NoError))
  }

  function SetMoveError(s: State, id: int, error: bool): State
    requires id in s.queue
  {
    s.(queue := s.queue[id := s.queue[id].(moveError := error)])
  }

  function RemoveSourceStep(s: State, choice: Choice): (t: State)
    requires s.stack.Frame? && s.stack.id in s.queue
    ensures Untouched(s, t)
  {
    match choice
    case SourceRemoved => Goto(SetMoveError(s, s.stack.id, false), Result(true, NoError))
    case SourceKept => Goto(SetMoveError(s, s.stack.id, true), Result(false, CannotRemoveSource))
    case _ => s
  }

  // What handle() does with the outcome of an attempt.
  function ResultStep(s: State, done: bool, err: Error): (t: State)
    requires s.stack.Frame? && s.stack.id in s.issued.requests
    ensures Untouched(s, t)
  {
    var id := s.stack.id;
    if done || s.issued.requests[id].copyFlags.nonInteractive then
      Goto(if err != NoError then Emit(s, Reported(id, err, false)) else s, Finish(err))
    else if s.control.stopRequest then Goto(s, Finish(err))
    else if err in s.control.skipAllError then Goto(Emit(s, Reported(id, err, false)), Finish(err))
    else Goto(Emit(s, Reported(id, err, true)), Waiting(err)).(dialogue := s.dialogue.(waiting := true))
  }

  // Back from interactionCondition.wait().
  function WaitingStep(s: State, err: Error): (t: State)
    requires s.stack.Frame?
    ensures Untouched(s, t)
  {
    if !s.dialogue.answered then s
    else
      var c := s.control;
      Goto(s, Attempt).(
        dialogue := s.dialogue.(answered := false, waiting := false),
        control := if c.skipAllRequest then c.(skipAllRequest := false, skipAllError := c.skipAllError + {err}) else c)
  }

  ghost function FrameStep(s: State, choice: Choice): (t: State)
    requires s.stack.Frame?
    ensures Untouched(s, t)
  {
    var f := s.stack;
    if f.id !in s.issued.requests || f.id !in s.queue then s.(undefined := true)
    else
      match f.pc
      case Start =>
        Goto(Emit(s, Started(f.id)), if f.rename then RenameKids(s.issued.requests[f.id].childrenQueue) else Attempt)
      case Attempt =>
        Goto(s, Chain(s.queue[f.id].canceled, s.queue[f.id].overwrite || s.control.overwriteAll))
      case Chain(canceled, replace) => ChainStep(s, canceled, replace, choice)
      case Kids(todo) => KidsStep(s, todo)
      case RenameKids(todo) => RenameKidsStep(s, todo)
      case AfterKids =>
        Goto(s, if IsCanceled(s, f.id) then Result(true, Canceled)
                else if s.issued.requests[f.id].move then RemoveSource
                else Result(true, NoError))
      case RemoveSource => RemoveSourceStep(s, choice)
      case Result(done, err) => ResultStep(s, done, err)
      case Waiting(err) => WaitingStep(s, err)
      case Finish(err) => Goto(Emit(s, Finished(f.id, err != NoError)), Leave)
      case Leave =>
        s.(stack := f.below, currentId := f.previous, queue := s.queue - {f.id})
  }

  ghost predicate IsLeast(ids: set<int>, m: int) {
    m in ids && forall x :: x in ids ==> m <= x
  }

  lemma {:induction false} FindLeast(ids: set<int>) returns (m: int)
    requires ids != {}
    ensures IsLeast(ids, m)
    decreases |ids|
  {
    assert (forall x :: x !in ids) ==> ids == {};
    m :| m in ids;
    var rest := ids - {m};
    assert forall y :: y in ids ==> y == m || y in rest;
    if rest != {} {
      assert rest < ids;
      var n := FindLeast(rest);
      if n < m { m := n; }
    }
  }

  lemma LeastExists(ids: set<int>)
    requires ids != {}
    ensures exists m :: IsLeast(ids, m)
  {
    var m := FindLeast(ids);
  }

  // The first key of a QMap.
  ghost function Least(ids: set<int>): (m: int)
    requires ids != {}
    ensures IsLeast(ids, m)
  {
    LeastExists(ids);
    var m :| IsLeast(ids, m);
    m
  }

  function SetRun(s: State, run: RunPc): State {
    s.(schedule := s.schedule.(run := run))
  }

  // run(), outside handle().
  ghost function RunStep(s: State): State {
    var c := s.control;
    match s.schedule.run
    case Top =>
      if s.queue.Keys == {} then
        if c.stopRequest then SetRun(s, Stopped) else SetRun(s.(control := c.(cancelRequest := false)), Sleeping)
      else if c.cancelRequest then
        Emit(s, AllCanceled).(queue := map[], control := c.(cancelRequest := false))
      else SetRun(s, Ready)
    case Ready =>
      if c.cancelRequest || s.queue.Keys == {} then SetRun(s, Top)
      else Push(SetRun(s, Top), Least(s.queue.Keys), false)
    case Sleeping =>
      if !s.schedule.wakeUp then s
      else
        s.(schedule := s.schedule.(run := Top, wakeUp := false),
           control := if c.autoReset then c.(overwriteAll := false, skipAllError := {}) else c)
    case _ => s
  }

  ghost function WorkStep(s: State, choice: Choice): State {
    if s.stack.Frame? then FrameStep(s, choice) else RunStep(s)
  }

  // ---------- the GUI thread ----------

  ghost predicate GoodBatch(s: State, batch: Requests, blocks: Ends, hi: int) {
    Numbered(batch, blocks) && s.issued.nextId < hi && forall id :: id in batch <==> s.issued.nextId <= id < hi
  }

  // An answer of the user counts only while the worker waits for one.
  function Answer(s: State, queue: map<int, Marks>, control: Control): State {
    var d := s.dialogue;
    if d.waiting then
      s.(queue := queue, control := control,
         dialogue := d.(waiting := false, answered := true, answers := d.answers + 1))
    else s
  }

  // The three steps of copy(), copyFiles() and copyDirectory() on the GUI side.
  ghost function SubmitStep(s: State, a: Action): State {
    var c := s.schedule;
    match a
    case Submit(batch, blocks, hi) =>
      if c.gui.GuiIdle? && GoodBatch(s, batch, blocks, hi) then
        s.(issued := Issued(s.issued.requests + batch, s.issued.ends + blocks, hi),
           schedule := c.(gui := MustEnqueue(batch.Keys)))
      else s
    case Enqueue =>
      if c.gui.MustEnqueue? then
        s.(queue := s.queue + (map x | x in c.gui.ids :: Marks(false, false, false)),
           schedule := c.(gui := MustSchedule))
      else s
    case ScheduleRestart =>
      if c.gui.MustSchedule? then s.(schedule := c.(gui := GuiIdle, restarts := c.restarts + 1)) else s
    case _ => s
  }

  // copierDestroyed(): wakes whichever condition the worker sleeps on.
  function DestroyStep(s: State): State {
    var d := s.dialogue;
    var sleeps := s.stack.Frame? && s.stack.pc.Waiting? && !d.answered;
    s.(control := s.control.(stopRequest := true),
       schedule := s.schedule.(wakeUp := s.schedule.wakeUp || s.schedule.run.Sleeping?),
       dialogue := if sleeps then d.(answered := true, answers := d.answers + 1) else d)
  }

  ghost function SlotStep(s: State, a: Action): State {
    var c := s.control;
    match a
    case CancelAll =>
      s.(queue := map x | x in s.queue :: s.queue[x].(canceled := true), control := c.(cancelRequest := true))
    case Cancel(id) => s.(queue := MarkCanceled(s, id))
    case Skip => Answer(s, MarkCanceled(s, s.currentId), c)
    case SkipAll => Answer(s, MarkCanceled(s, s.currentId), c.(skipAllRequest := true))
    case Overwrite => Answer(s, MarkOverwrite(s, s.currentId), c)
    case OverwriteAll => Answer(s, s.queue, c.(overwriteAll := true))
    case Retry => Answer(s, s.queue, c)
    case ResetSkip => s.(control := c.(skipAllError := {}))
    case ResetOverwrite => s.(control := c.(overwriteAll := true))
    case SetAutoReset(on) => s.(control := c.(autoReset := on))
    case Destroy => DestroyStep(s)
    case _ => s
  }

  // restart(): start the thread if it is not running, then wake it if it sleeps.
  function RestartStep(s: State): State {
    var c := s.schedule;
    if c.restarts == 0 then s
    else if c.run.NotRunning? || c.run.Stopped? then s.(schedule := c.(restarts := c.restarts - 1, run := Top))
    else s.(schedule := c.(restarts := c.restarts - 1, wakeUp := c.wakeUp || c.run.Sleeping?))
  }

  // The GUI thread finishes a copy() call before it does anything else.  After the copier is gone nobody
  // calls its slots; restart() calls already scheduled still arrive.
  ghost function Apply(s: State, a: Action): State {
    if s.undefined then s
    else if a.Work? then WorkStep(s, a.choice)
    else if a.Enqueue? || a.ScheduleRestart? then SubmitStep(s, a)
    else if !s.schedule.gui.GuiIdle? then s
    else if a.Restart? then RestartStep(s)
    else if s.control.stopRequest then s
    else if a.Submit? then SubmitStep(s, a)
    else SlotStep(s, a)
  }

  ghost function Run(acts: seq<Action>): State {
    if acts == [] then INIT else Apply(Run(acts[..|acts| - 1]), acts[|acts| - 1])
  }

  // ---------- started() and finished() are brackets ----------

  datatype Ids = Nil | Cons(head: int, tail: Ids)

  datatype Nesting = Broken | Open(ids: Ids)

  // The stack a listener keeps: push on started(), pop on finished() of the same request.
  function NestStep(n: Nesting, e: Event): Nesting {
    match e
    case Started(id) => if n.Open? then Open(Cons(id, n.ids)) else Broken
    case Finished(id, _) => if n.Open? && n.ids.Cons? && n.ids.head == id then Open(n.ids.tail) else Broken
    case _ => n
  }

  function Nest(events: Log): Nesting {
    match events
    case Silent => Open(Nil)
    case Log(e, past) => NestStep(Nest(past), e)
  }

  function OpenIds(k: Stack): Ids {
    match k
    case Bottom => Nil
    case Frame(id, _, _, pc, below) => if pc.Start? || pc.Leave? then OpenIds(below) else Cons(id, OpenIds(below))
  }

  // Each activation was called by the one below it, which is in a loop over its children.
  predicate CallStack(k: Stack, currentId: int) {
    match k
    case Bottom => currentId == NONE
    case Frame(id, _, previous, _, below) =>
      currentId == id && CallStack(below, previous) && (below.Frame? ==> below.pc.Kids? || below.pc.RenameKids?)
  }

  predicate Bracketed(s: State) {
    && CallStack(s.stack, s.currentId)
    && Nest(s.events) == Open(OpenIds(s.stack))
    && (s.dialogue.waiting || s.dialogue.answered ==> s.stack.Frame? && s.stack.pc.Waiting?)
  }

  lemma ChainBracketed(s: State, canceled: bool, replace: bool, choice: Choice)
    requires Bracketed(s) && s.stack.Frame? && s.stack.id in s.issued.requests && s.stack.id in s.queue
             && s.stack.pc.Chain?
    ensures Bracketed(ChainStep(s, canceled, replace, choice))
  {
  }

  // A step that moves only the innermost program counter, and may report an error.
  lemma ReportBracketed(s: State, t: State)
    requires Bracketed(s) && s.stack.Frame? && t.stack.Frame? && s.stack.pc.Result?
    requires t.stack == s.stack.(pc := t.stack.pc) && !t.stack.pc.Start? && !t.stack.pc.Leave?
             && t.currentId == s.currentId
    requires t.events == s.events || (t.events.Log? && t.events.past == s.events && t.events.last.Reported?)
    requires t.dialogue.waiting || t.dialogue.answered ==> t.stack.pc.Waiting?
    ensures Bracketed(t)
  {
  }

  lemma ResultBracketed(s: State, done: bool, err: Error)
    requires Bracketed(s) && s.stack.Frame? && s.stack.id in s.issued.requests && s.stack.pc.Result?
    ensures Bracketed(ResultStep(s, done, err))
  {
    ReportBracketed(s, ResultStep(s, done, err));
  }

  lemma PushBracketed(s: State, t: State, id: int, rename: bool)
    requires Bracketed(s) && s.stack.Frame? && (t.stack.Frame? && (t.stack.pc.Kids? || t.stack.pc.RenameKids?))
    requires (s.stack.pc.Kids? || s.stack.pc.RenameKids?) && t == s.(stack := s.stack.(pc := t.stack.pc))
    ensures Bracketed(Push(t, id, rename))
  {
  }

  lemma KidsBracketed(s: State, todo: seq<int>)
    requires Bracketed(s) && s.stack.Frame? && s.stack.pc.Kids?
    ensures Bracketed(KidsStep(s, todo))
  {
    if todo != [] { PushBracketed(s, Goto(s, Kids(todo[1..])), todo[0], false); }
  }

  lemma RenameKidsBracketed(s: State, todo: seq<int>)
    requires Bracketed(s) && s.stack.Frame? && s.stack.pc.RenameKids? && s.stack.id in s.issued.requests
    ensures Bracketed(RenameKidsStep(s, todo))
  {
    if todo != [] { PushBracketed(s, Goto(s, RenameKids(todo[1..])), todo[0], true); }
  }

  // Announcing the request, its end, and leaving the activation.
  lemma EndsBracketed(s: State, choice: Choice)
    requires Bracketed(s) && s.stack.Frame? && (s.stack.pc.Start? || s.stack.pc.Finish? || s.stack.pc.Leave?)
    ensures Bracketed(FrameStep(s, choice))
  {
  }

  lemma FrameBracketed(s: State, choice: Choice)
    requires Bracketed(s) && s.stack.Frame?
    ensures Bracketed(FrameStep(s, choice))
  {
    var f := s.stack;
    if f.id in s.issued.requests && f.id in s.queue {
      match f.pc
      case Chain(canceled, replace) => ChainBracketed(s, canceled, replace, choice);
      case Kids(todo) => KidsBracketed(s, todo);
      case RenameKids(todo) => RenameKidsBracketed(s, todo);
      case Result(done, err) => ResultBracketed(s, done, err);
      case Start => EndsBracketed(s, choice);
      case Finish(_) => EndsBracketed(s, choice);
      case Leave => EndsBracketed(s, choice);
      case _ =>
    }
  }

  lemma RunStepBracketed(s: State)
    requires Bracketed(s) && s.stack.Bottom?
    ensures Bracketed(RunStep(s))
  {
  }

  lemma GuiBracketed(s: State, a: Action)
    requires Bracketed(s)
    ensures Bracketed(SubmitStep(s, a)) && Bracketed(SlotStep(s, a)) && Bracketed(RestartStep(s))
  {
  }

  lemma {:induction false} RunBracketed(acts: seq<Action>)
    ensures Bracketed(Run(acts))
  {
    if acts != [] {
      var s, a := Run(acts[..|acts| - 1]), acts[|acts| - 1];
      RunBracketed(acts[..|acts| - 1]);
      GuiBracketed(s, a);
      if a.Work? {
        if s.stack.Frame? { FrameBracketed(s, a.choice); } else { RunStepBracketed(s); }
      }
    }
  }

  // In every run, clean or not, started() and finished() nest, so a listener's pop always meets the finished id.
  lemma {:induction false} BracketsMatch(acts: seq<Action>)
    ensures Nest(Run(acts).events).Open?
    ensures Run(acts).stack.Bottom? ==> Nest(Run(acts).events) == Open(Nil)
  {
    RunBracketed(acts);
  }

  // While the worker waits for an answer, the current request is the innermost open one: the one that failed.
  lemma {:induction false} AnswersHitTheFailedRequest(acts: seq<Action>)
    requires Run(acts).dialogue.waiting
    ensures var s := Run(acts);
            && s.stack.Frame? && s.stack.pc.Waiting? && s.currentId == s.stack.id
            && Nest(s.events).Open? && Nest(s.events).ids.Cons? && Nest(s.events).ids.head == s.currentId
  {
    RunBracketed(acts);
  }

  // ---------- no job and no answer is lost ----------

  predicate AsleepWithWork(s: State) {
    (s.schedule.run.Sleeping? || s.schedule.run.NotRunning?) && !s.schedule.wakeUp && s.queue.Keys != {}
  }

  predicate JobsNoticed(s: State) {
    && (AsleepWithWork(s) ==> s.schedule.restarts > 0 || s.schedule.gui.MustSchedule?)
    && (s.schedule.wakeUp ==> s.schedule.run.Sleeping?)
    && (s.stack.Frame? ==> s.schedule.run.Top?)
    && (s.schedule.run.Stopped? ==> s.queue.Keys == {} && s.control.stopRequest)
    && (s.control.stopRequest ==> s.schedule.gui.GuiIdle?)
  }

  // The errors reported as stopped.
  function Stops(events: Log): nat {
    match events
    case Silent => 0
    case Log(e, past) => Stops(past) + if e.Reported? && e.stopped then 1 else 0
  }

  predicate Unanswered(s: State) {
    s.stack.Frame? && s.stack.pc.Waiting? && !s.dialogue.answered
  }

  predicate AnswersCounted(s: State) {
    && Stops(s.events) == s.dialogue.answers + (if Unanswered(s) then 1 else 0)
    && (s.dialogue.answered ==> s.stack.Frame? && s.stack.pc.Waiting?)
    && (s.dialogue.waiting ==> s.stack.Frame? && s.stack.pc.Waiting? && (!s.dialogue.answered || s.control.stopRequest))
    && (Unanswered(s) ==> s.dialogue.waiting)
  }

  lemma ChainCounted(s: State, canceled: bool, replace: bool, choice: Choice)
    requires s.stack.Frame? && s.stack.id in s.issued.requests && s.stack.id in s.queue && s.stack.pc.Chain?
    requires AnswersCounted(s)
    ensures AnswersCounted(ChainStep(s, canceled, replace, choice))
  {
  }

  lemma DialogueCounted(s: State, choice: Choice)
    requires s.stack.Frame? && AnswersCounted(s) && (s.stack.pc.Result? || s.stack.pc.Waiting?)
    ensures AnswersCounted(FrameStep(s, choice))
  {
  }

  lemma LoopCounted(s: State, todo: seq<int>)
    requires s.stack.Frame? && AnswersCounted(s)
    ensures s.stack.pc.Kids? ==> AnswersCounted(KidsStep(s, todo))
    ensures s.stack.pc.RenameKids? && s.stack.id in s.issued.requests ==> AnswersCounted(RenameKidsStep(s, todo))
  {
  }

  lemma OthersCounted(s: State, choice: Choice)
    requires s.stack.Frame? && AnswersCounted(s) && CallStack(s.stack, s.currentId)
    requires s.stack.pc.Start? || s.stack.pc.Attempt? || s.stack.pc.AfterKids? || s.stack.pc.RemoveSource?
             || s.stack.pc.Finish? || s.stack.pc.Leave?
    ensures AnswersCounted(FrameStep(s, choice))
  {
  }

  lemma FrameCounted(s: State, choice: Choice)
    requires s.stack.Frame? && AnswersCounted(s) && Bracketed(s)
    ensures AnswersCounted(FrameStep(s, choice))
  {
    match s.stack.pc
    case Result(_, _) => DialogueCounted(s, choice);
    case Waiting(_) => DialogueCounted(s, choice);
    case Kids(todo) => LoopCounted(s, todo);
    case RenameKids(todo) => LoopCounted(s, todo);
    case Chain(canceled, replace) =>
      if s.stack.id in s.issued.requests && s.stack.id in s.queue { ChainCounted(s, canceled, replace, choice); }
    case _ => OthersCounted(s, choice);
  }

  lemma SubmitNoticed(s: State, a: Action)
    requires JobsNoticed(s) && AnswersCounted(s) && (a.Submit? ==> !s.control.stopRequest)
    ensures JobsNoticed(SubmitStep(s, a)) && AnswersCounted(SubmitStep(s, a))
    ensures JobsNoticed(RestartStep(s)) && AnswersCounted(RestartStep(s))
  {
  }

  lemma SlotNoticed(s: State, a: Action)
    requires JobsNoticed(s) && AnswersCounted(s) && !s.control.stopRequest && s.schedule.gui.GuiIdle?
    ensures JobsNoticed(SlotStep(s, a)) && AnswersCounted(SlotStep(s, a))
  {
  }

  lemma {:induction false} RunLosesNothing(acts: seq<Action>)
    ensures JobsNoticed(Run(acts)) && AnswersCounted(Run(acts))
  {
    if acts != [] {
      var s, a := Run(acts[..|acts| - 1]), acts[|acts| - 1];
      RunLosesNothing(acts[..|acts| - 1]);
      RunBracketed(acts[..|acts| - 1]);
      if a.Submit? ==> !s.control.stopRequest { SubmitNoticed(s, a); }
      if !s.control.stopRequest && s.schedule.gui.GuiIdle? { SlotNoticed(s, a); }
      if a.Work? && s.stack.Frame? {
        FrameCounted(s, a.choice);
      }
    }
  }

  // A worker that sleeps beside a job has its wake-up on the way.
  lemma {:induction false} NoJobIsLost(acts: seq<Action>)
    requires Run(acts).schedule.run.Sleeping? && Run(acts).queue.Keys != {}
    ensures var c := Run(acts).schedule; c.wakeUp || c.restarts > 0 || c.gui.MustSchedule?
  {
    RunLosesNothing(acts);
  }

  // Each error reported as stopped takes exactly one answer (or the wake-up of the destroyed copier), and
  // the next attempt starts only after it.
  lemma {:induction false} OneAnswerPerStop(acts: seq<Action>)
    ensures var s := Run(acts); Stops(s.events) == s.dialogue.answers + (if Unanswered(s) then 1 else 0)
    ensures Run(acts).stack.Frame? && !Run(acts).stack.pc.Waiting? ==>
              Stops(Run(acts).events) == Run(acts).dialogue.answers
    ensures Run(acts).stack.Frame? && Run(acts).stack.pc.Waiting?
            && Stops(Run(acts).events) > Run(acts).dialogue.answers ==>
              forall choice :: Apply(Run(acts), Work(choice)) == Run(acts) || Apply(Run(acts), Work(choice)).undefined
  {
    RunLosesNothing(acts);
  }

  // ---------- resetOverwrite() ----------

  // The automatic reset, when run() wakes up for new work.
  predicate AutoResets(s: State, a: Action) {
    a.Work? && s.stack.Bottom? && s.schedule.run.Sleeping? && s.schedule.wakeUp && s.control.autoReset
  }

  // Once set, the overwrite-all flag is cleared by the automatic reset and by nothing else.
  lemma OnlyAutoResetClears(s: State, a: Action)
    requires s.control.overwriteAll && !s.undefined
    ensures Apply(s, a).control.overwriteAll <==> !AutoResets(s, a)
  {
    if a.Work? {
      if s.stack.Frame? { FrameLeaves(s, a.choice); }
    } else {
      GuiLeaves(s, a);
    }
  }

  lemma FrameLeaves(s: State, choice: Choice)
    requires s.stack.Frame?
    ensures FrameStep(s, choice).control.overwriteAll == s.control.overwriteAll
  {
  }

  lemma GuiLeaves(s: State, a: Action)
    requires s.control.overwriteAll && !a.Work?
    ensures SubmitStep(s, a).control.overwriteAll && SlotStep(s, a).control.overwriteAll
            && RestartStep(s).control.overwriteAll
  {
  }

  // How often the user was told of an existing destination.
  function Asks(events: Log): nat {
    match events
    case Silent => 0
    case Log(e, past) => Asks(past) + if e.Reported? && e.err == DestinationExists then 1 else 0
  }

  // An attempt that does not overwrite is under way, or has just met an existing destination.
  predicate MayAsk(s: State) {
    s.stack.Frame? &&
    match s.stack.pc
    case Chain(_, replace) => !replace
    case Result(_, e) => e == DestinationExists
    case _ => false
  }

  function Due(s: State): nat {
    Asks(s.events) + if MayAsk(s) then 1 else 0
  }

  lemma ChainAsks(s: State, canceled: bool, replace: bool, choice: Choice)
    requires s.stack.Frame? && s.stack.id in s.issued.requests && s.stack.id in s.queue
             && s.stack.pc == Chain(canceled, replace)
    ensures Due(ChainStep(s, canceled, replace, choice)) <= Due(s)
  {
  }

  lemma AttemptAsks(s: State, choice: Choice)
    requires s.control.overwriteAll && s.stack.Frame? && s.stack.pc.Attempt?
    requires s.stack.id in s.issued.requests && s.stack.id in s.queue
    ensures FrameStep(s, choice) == Goto(s, Chain(s.queue[s.stack.id].canceled, true))
  {
  }

  lemma ResultAsks(s: State, done: bool, err: Error)
    requires s.stack.Frame? && s.stack.id in s.issued.requests && s.stack.pc == Result(done, err)
    ensures Due(ResultStep(s, done, err)) <= Due(s)
  {
  }

  lemma LoopAsks(s: State, todo: seq<int>)
    requires s.stack.Frame? && s.stack.id in s.issued.requests
    ensures s.stack.pc == Kids(todo) ==> Due(KidsStep(s, todo)) <= Due(s)
    ensures s.stack.pc == RenameKids(todo) ==> Due(RenameKidsStep(s, todo)) <= Due(s)
  {
  }

  // Announcing, waiting, removing the source and returning.
  lemma OthersAsk(s: State, choice: Choice)
    requires Bracketed(s) && s.stack.Frame? && !s.stack.pc.Attempt? && !s.stack.pc.Chain? && !s.stack.pc.Result?
    requires !s.stack.pc.Kids? && !s.stack.pc.RenameKids?
    ensures Due(FrameStep(s, choice)) <= Due(s)
  {
  }

  lemma FrameAsks(s: State, choice: Choice)
    requires s.control.overwriteAll && Bracketed(s) && s.stack.Frame?
    ensures Due(FrameStep(s, choice)) <= Due(s)
  {
    var f := s.stack;
    if f.id in s.issued.requests && f.id in s.queue {
      match f.pc
      case Attempt => AttemptAsks(s, choice);
      case Chain(canceled, replace) => ChainAsks(s, canceled, replace, choice);
      case Kids(todo) => LoopAsks(s, todo);
      case RenameKids(todo) => LoopAsks(s, todo);
      case Result(done, err) => ResultAsks(s, done, err);
      case _ => OthersAsk(s, choice);
    }
  }

  lemma StepAsks(s: State, a: Action)
    requires s.control.overwriteAll && Bracketed(s)
    ensures Due(Apply(s, a)) <= Due(s)
  {
    if a.Work? && s.stack.Frame? { FrameAsks(s, a.choice); }
  }

  // No automatic reset happens during `span`.
  ghost predicate NoAutoReset(acts: seq<Action>, span: seq<Action>) {
    span == [] || (NoAutoReset(acts, span[..|span| - 1])
                   && !AutoResets(Run(acts + span[..|span| - 1]), span[|span| - 1]))
  }

  lemma RunSnoc(acts: seq<Action>, a: Action)
    ensures Run(acts + [a]) == Apply(Run(acts), a)
  {
    assert (acts + [a])[..|acts|] == acts;
  }

  lemma {:induction false} OverwritesThroughout(acts: seq<Action>, span: seq<Action>)
    requires Run(acts).control.overwriteAll && NoAutoReset(acts, span)
    ensures Run(acts + span).control.overwriteAll && Due(Run(acts + span)) <= Due(Run(acts))
  {
    if span == [] {
      assert acts + span == acts;
    } else {
      var before, a := span[..|span| - 1], span[|span| - 1];
      OverwritesThroughout(acts, before);
      RunBracketed(acts + before);
      StepAsks(Run(acts + before), a);
      RunSnoc(acts + before, a);
      assert acts + before + [a] == acts + span;
      if !Run(acts + before).undefined { OnlyAutoResetClears(Run(acts + before), a); }
    }
  }

  // After resetOverwrite() every attempt overwrites until the next automatic reset, so the user is never asked
  // about an existing destination again; only an attempt already under way can still report one.
  lemma {:induction false} ResetOverwriteStopsAsking(acts: seq<Action>, span: seq<Action>)
    requires var s := Run(acts); !s.undefined && s.schedule.gui.GuiIdle? && !s.control.stopRequest
    requires NoAutoReset(acts + [ResetOverwrite], span)
    ensures var t := Run(acts + [ResetOverwrite] + span);
            && t.control.overwriteAll
            && Asks(t.events) <= Asks(Run(acts).events) + (if MayAsk(Run(acts)) then 1 else 0)
            && (t.stack.Frame? && t.stack.pc.Attempt? && !t.undefined ==>
                  forall choice :: Apply(t, Work(choice)).undefined || Overwrites(Apply(t, Work(choice)).stack))
  {
    RunSnoc(acts, ResetOverwrite);
    OverwritesThroughout(acts + [ResetOverwrite], span);
    var t := Run(acts + [ResetOverwrite] + span);
    if t.stack.Frame? && t.stack.pc.Attempt? && !t.undefined {
      forall choice ensures Apply(t, Work(choice)).undefined || Overwrites(Apply(t, Work(choice)).stack) {
        if t.stack.id in t.issued.requests && t.stack.id in t.queue { AttemptAsks(t, choice); }
      }
    }
  }

  // The chain just built overwrites.
  predicate Overwrites(k: Stack) {
    k.Frame? && k.pc.Chain? && k.pc.replace
  }
}
