/** What done() tells the copier's users. */
module DoneSignal {
  import opened Forest
  import opened CopyThread
  import opened CleanRuns
  import opened FileCopier
  import opened Mirror
  import opened FileCopierPrivate
  import opened Numbering

  // skip(), skipAll(), overwrite(), overwriteAll() and retry() resume a copier that waits for an answer.
  predicate IsAnswer(a: Action) {
    a.Skip? || a.SkipAll? || a.Overwrite? || a.OverwriteAll? || a.Retry?
  }

  function Resumed(g: Gui): Gui {
    if g.state.WaitingForInteraction? then SetTo(g, Busy) else g
  }

  // The GUI side after `acts`, with its state and everything it told its users.
  ghost function Heard(acts: seq<SystemAction>): Gui {
    if acts == [] then Gui(Pending(map[], Nil), Idle, false, false, [])
    else
      var x, before := acts[|acts| - 1], acts[..|acts| - 1];
      var g, s := Heard(before), SystemRun(before);
      match x
      case Thread(a) => (if IsAnswer(a) then Resumed(g) else g).(pending := SystemApply(s, x).gui)
      case Deliver => if s.inbox == [] then g else Hear(g, s.inbox[0])
  }

  // Has a request failed since the last batch ended?
  ghost function Failed(acts: seq<SystemAction>): bool {
    if acts == [] then false
    else
      var x, before := acts[|acts| - 1], acts[..|acts| - 1];
      var s := SystemRun(before);
      if x.Thread? || s.inbox == [] then Failed(before)
      else
        var e := s.inbox[0];
        !EmitsDone(s.gui, e) && (Failed(before) || (e.Finished? && e.error))
  }

  ghost predicate Honest(g: Gui, failed: bool) {
    && (g.state.Idle? ==> !failed && g.pending.stack == Nil)
    && (!g.state.Idle? ==> g.error == failed)
  }

  lemma HearHonest(g: Gui, e: Event, failed: bool)
    requires Honest(g, failed) && Expected(g.pending, e)
    requires StackPending(OnSignal(g.pending, e).stack, OnSignal(g.pending, e).requests)
    ensures Hear(g, e).pending == OnSignal(g.pending, e)
    ensures Honest(Hear(g, e), !EmitsDone(g.pending, e) && (failed || (e.Finished? && e.error)))
  {
  }

  lemma {:induction false} RunHonest(acts: seq<SystemAction>)
    requires CleanRun(acts)
    ensures Heard(acts).pending == SystemRun(acts).gui && Honest(Heard(acts), Failed(acts))
  {
    if acts != [] {
      var x, before := acts[|acts| - 1], acts[..|acts| - 1];
      var s := SystemRun(before);
      RunHonest(before);
      if x.Deliver? && s.inbox != [] {
        var v := RunMirrored(before, false);
        SignalKeepsStack(s.gui, s.inbox[0], s.w.issued.requests, s.w.issued.ends);
        HearHonest(Heard(before), s.inbox[0], Failed(before));
      }
    }
  }

  // ---------- what done() says, in every run ----------

  // Has a request failed since the copier last left Idle?
  ghost function FailedSince(acts: seq<SystemAction>): bool {
    if acts == [] then false
    else
      var x, before := acts[|acts| - 1], acts[..|acts| - 1];
      var s := SystemRun(before);
      if x.Thread? || s.inbox == [] then FailedSince(before)
      else
        var e := s.inbox[0];
        (FailedSince(before) && !(e.Started? && Heard(before).state.Idle?)) || (e.Finished? && e.error)
  }

  // What is told on a change to Idle.
  function ToIdle(state: CopierState): seq<Signal> {
    if state.Idle? then [] else [StateChanged(Idle)]
  }

  lemma HearFlag(g: Gui, e: Event)
    ensures Hear(g, e).pending == OnSignal(g.pending, e)
    ensures Hear(g, e).error == ((g.error && !(e.Started? && g.state.Idle?)) || (e.Finished? && e.error))
    ensures g.progressing == g.state.Busy? ==> Hear(g, e).progressing == Hear(g, e).state.Busy?
  {
  }

  // The error flag says whether a request has failed, and progress is told exactly while the copier is busy.
  lemma {:induction false} RunKeepsFlag(acts: seq<SystemAction>)
    ensures Heard(acts).pending == SystemRun(acts).gui && Heard(acts).error == FailedSince(acts)
    ensures Heard(acts).progressing == Heard(acts).state.Busy?
  {
    if acts != [] {
      var before := acts[..|acts| - 1];
      RunKeepsFlag(before);
      if SystemRun(before).inbox != [] { HearFlag(Heard(before), SystemRun(before).inbox[0]); }
    }
  }

  // In every run, clean or not, done() is told exactly when finished() leaves nothing pending or everything
  // was canceled.  After finished() its flag says whether a request has failed; after cancelAll() it never does.
  lemma {:induction false} DoneTellsFailure(acts: seq<SystemAction>)
    requires SystemRun(acts).inbox != []
    ensures var s, e := SystemRun(acts), SystemRun(acts).inbox[0];
            var told, now, idle := Heard(acts).out, Heard(acts + [Deliver]).out, ToIdle(Heard(acts).state);
            && (EmitsDone(s.gui, e) && e.Finished? ==>
                  now == told + [FinishedSignal(e.id, e.error)] + idle + [DoneSignal(FailedSince(acts) || e.error)])
            && (e.AllCanceled? ==> EmitsDone(s.gui, e) && now == told + [CanceledSignal] + idle + [DoneSignal(false)])
            && (!EmitsDone(s.gui, e) ==>
                  told <= now && forall k :: |told| <= k < |now| ==> !now[k].DoneSignal?)
  {
    RunKeepsFlag(acts);
    HearTells(Heard(acts), SystemRun(acts).inbox[0]);
    assert (acts + [Deliver])[..|acts|] == acts;
  }

  lemma HearTells(g: Gui, e: Event)
    ensures EmitsDone(g.pending, e) && e.Finished? ==>
              Hear(g, e).out == g.out + [FinishedSignal(e.id, e.error)] + ToIdle(g.state)
                                + [DoneSignal(g.error || e.error)]
    ensures e.AllCanceled? ==> Hear(g, e).out == g.out + [CanceledSignal] + ToIdle(g.state) + [DoneSignal(false)]
    ensures !EmitsDone(g.pending, e) ==>
              g.out <= Hear(g, e).out && forall k :: |g.out| <= k < |Hear(g, e).out| ==> !Hear(g, e).out[k].DoneSignal?
  {
  }

  // So the flag tells the truth except exactly when everything is canceled after a request has failed.
  lemma {:induction false} FlagIsHonest(acts: seq<SystemAction>)
    requires SystemRun(acts).inbox != [] && EmitsDone(SystemRun(acts).gui, SystemRun(acts).inbox[0])
    ensures var e, now := SystemRun(acts).inbox[0], Heard(acts + [Deliver]).out;
            && now != [] && now[|now| - 1].DoneSignal?
            && (now[|now| - 1].failed == FailedSince(acts + [Deliver]) <==> !(e.AllCanceled? && FailedSince(acts)))
  {
    DoneTellsFailure(acts);
    assert (acts + [Deliver])[..|acts|] == acts;
  }

  // In clean runs done() comes once for each batch, and speaks of that batch alone.
  lemma {:induction false} DoneEndsTheBatch(acts: seq<SystemAction>)
    requires CleanRun(acts) && SystemRun(acts).inbox != [] && EmitsDone(SystemRun(acts).gui, SystemRun(acts).inbox[0])
    ensures var e := SystemRun(acts).inbox[0];
            && e.Finished? && !Heard(acts).state.Idle? && FailedSince(acts) == Failed(acts)
            && Heard(acts + [Deliver]).out ==
               Heard(acts).out + [FinishedSignal(e.id, e.error), StateChanged(Idle),
                                  DoneSignal(Failed(acts) || e.error)]
  {
    RunHonest(acts);
    RunKeepsFlag(acts);
    FirstExpected(acts);
    DoneTellsFailure(acts);
  }

  lemma {:induction false} FirstExpected(acts: seq<SystemAction>)
    requires CleanRun(acts) && SystemRun(acts).inbox != []
    ensures Expected(SystemRun(acts).gui, SystemRun(acts).inbox[0])
  {
    var v := RunMirrored(acts, false);
  }

  // The files that copyFiles() numbers are a batch the worker can take.
  lemma RowIsGoodBatch(s: State, batch: Requests, row: seq<CopyRequest>)
    requires Row(batch, s.issued.nextId, row) && row != [] && forall k :: 0 <= k < |row| ==> row[k].childrenQueue == []
    ensures GoodBatch(s, batch, RowEnds(batch), s.issued.nextId + |row|)
  {
    RowIsNumbered(batch, s.issued.nextId, row);
  }
}
