# cppdevtk: the file lock, the file copier, threads and the backtrace parser

A Dafny model of the concurrent and stateful parts of cppdevtk, with proofs of what they are for.
`dafny verify dfyconfig.toml` checks the whole project.

* **LockedFile.dfy** is the Windows reader/writer file lock: any number of lock objects, each in a thread of its
  own, share one named "writer" mutex and 64 named slot mutexes that are opened, created and destroyed on the fly.
  One atomic Win32 call is one step.  A run is any sequence of actions.
* **Semaphore.dfy**, **ThreadLife.dfy** and **Interruption.dfy** are the counting semaphore, the shared data of a
  thread from `Start` to `Join`, `Detach` or the destructor, and thread interruption with its condition-variable
  wait and its guards, again as interleaved steps with spurious wake-ups and timeouts.
* The **file copier** is split as the source is.  **Forest.dfy** holds the requests and the pending descendants of
  a request.  **Numbering.dfy** and **FileCopierPrivate.dfy** are the GUI thread's side: the recursive numbering of
  a directory tree, handing jobs over, the slots that listen to the worker.  **CopyQueue.dfy** holds the worker's
  queue and its recursive walks; **CopyThread.dfy** is the worker with an explicit call stack, against a GUI thread
  that submits, cancels, answers and destroys at any moment.  **FileCopier.dfy**, **CleanRuns.dfy**,
  **LinkFreeRuns.dfy** and **Mirror.dfy** put the two sides and the undelivered signals between them together;
  **StartOrder.dfy** and **Ascent.dfy** are about the order in which requests start.  **DoneSignal.dfy** is what users are told, **CopyDialog.dfy** the dialog's byte accounting, **FileMove.dfy** the
  handler chain that moves one file over an abstract file system with links and hard links.  **Scenarios.dfy**
  builds, step by step from the start, runs of the whole copier that show where it departs from its promises.
* **SymbolParser.dfy** is the in-place parser for lines of `backtrace_symbols()`.

Code that other threads can interrupt is a state machine over its steps: `Apply` is total and deterministic, and
the environment's choices (schedules, file-system outcomes, timeouts) are part of the action.  Code that runs
undisturbed is written as classes and methods over the same data.

A **clean run** of the copier has no NonInteractive request, no `skipAll`, no `cancelAll`, no destruction of the
copier, and no successful rename after the removal of the source failed.  Cancelling, skipping, overwriting and
retrying single requests is allowed, and so is a directory that turns into a link after its children were queued.
A **link-free run** has no such directory.  Theorems about both sides of the copier are about clean runs; where one
holds only in some of them, the exact condition is proved, and the link-free runs are a corollary.  The bracket,
lost-wake-up, `resetOverwrite()` and `done()` theorems are about all runs.

Where the code departs from what it promises, the model follows the code, and says exactly when:

* A move loses the bytes if source and destination are two names of one file and an attempt overwrites: opening the
  destination empties the source.  If nothing disturbs the disk, the bytes survive if and only if only a link is
  made or no attempt overwrites (`FileMove.Copier.Handle`).
* The dialog subtracts the children of a failed directory again if they had been handled before.  The total is right
  at a given moment if and only if no request that lists a child of recorded size has failed after a child of it had
  started (`CopyDialog.ConservedExactly`); in particular whenever directories fail only before their children start
  (`CopyDialog.EarlyErrorsConserve`).  A directory canceled after its one file was copied ends with five bytes done
  of a total of none (`Scenarios.LateCancelGoesWrong`).
* `resetOverwrite()` sets the overwrite-all flag, although its documentation says that it restores asking.  Nobody is
  asked any more until the next automatic reset (`CopyThread.ResetOverwriteStopsAsking`,
  `CopyThread.OnlyAutoResetClears`, `Scenarios.ResetOverwriteOverwrites`).
* `done(error)` is documented to tell whether a request failed.  It does, except exactly when `cancelAll()` comes
  after a failure (`DoneSignal.FlagIsHonest`, `Scenarios.CanceledBatchClaimsSuccess`).
* If a queued directory has become a link, its children stay queued on both sides, and run() takes them later
  (`Scenarios.LinkLeavesTheFile`, `Scenarios.LinkBreaksTheOrder`).  Once all is dealt with, requests have started in
  the order of their numbers if and only if nothing of the same top-level request came after any such directory
  (`Ascent.AscendsExactly`).  A walk over the pending requests reaches all of a block if and only if nothing of it has
  left with something below it still queued (`Mirror.WalksTakeTheBlockExactly`).
* A `RestoreInterruptionGuard` opened while interruption is enabled leaves it disabled
  (`Interruption.GuardScopeExactly`, `Interruption.NestedRestoreLosesTheFlag`).
* The parser trims names, so a name with white space at an end does not come back
  (`SymbolParser.FieldsComeBackExactly`).

## Model

| member | source | states |
|---|---|---|
| LockedFile.RunKeepsInv | src/QtLockedFile/qtlockedfile_win.cpp:118-225 | After any actions of any number of objects the kernel's owner table is what the program counters say, also in a half-done slot scan, during the clean-up of a failed write and while readers leave |
| LockedFile.MutualExclusion | src/QtLockedFile/qtlockedfile_win.cpp:118-189 | While one object is in a write section no other is in a read or write section, in every interleaving |
| LockedFile.ReadersHaveDistinctSlots | src/QtLockedFile/qtlockedfile_win.cpp:140-166 | Two objects in read sections hold different slots |
| LockedFile.AnswersAreTrue | src/QtLockedFile/qtlockedfile.cpp:171-192 | On an open file lock() answers true exactly if the object holds the mode asked for, and otherwise holds nothing; unlock() answers true and leaves nothing |
| LockedFile.SeenIsASnapshot | src/QtLockedFile/qtlockedfile_win.cpp:137-158 | What a scanning reader recorded is the set of readers at the step where it took the free writer mutex |
| LockedFile.TooManyReaders | src/QtLockedFile/qtlockedfile_win.cpp:142-153 | A read attempt that fails for want of a slot took the writer mutex at a moment when readers owned all slots |
| LockedFile.WaitsAreClean | src/QtLockedFile/qtlockedfile_win.cpp:137-166 | A slot just created is always free, and no thread waits for a mutex it owns itself |
| LockedFile.WaitAllFits | src/QtLockedFile/qtlockedfile_win.cpp:168-176 | The wait-all call never gets more handles than the API allows |
| LockedFile.CloseKeepsOwners | src/QtLockedFile/qtlockedfile_win.cpp:159-162 | Closing a handle of a mutex that the object does not own takes ownership from nobody |
| LockedFile.StepRefines | src/QtLockedFile/qtlockedfile_win.cpp:128-188 | Each atomic step is invisible or exactly one legal acquire or release of the documented lock |
| LockedFile.Refinement | src/QtLockedFile/qtlockedfile.cpp:56-60 | Every run of the slot protocol is a run of the documented lock: many readers or one writer |
| LockedFile.EveryStepCounts | src/QtLockedFile/qtlockedfile_win.cpp:118-217 | Every step of a call that is not in a blocking wait on somebody else's mutex brings it closer to its return, and no action of others takes it further away |
| Semaphore.RunKeepsInv | src/base/semaphore.cpp:42-116 | Mutual exclusion, conservation of the counter and no lost wake-up, after any actions of any threads |
| Semaphore.CounterConserved | src/base/semaphore.cpp:42-116 | With the mutex free the counter is the initial count plus notifications minus successful waits |
| Semaphore.NoLostWakeUp | src/base/semaphore.cpp:42-63 | While a thread is blocked, the counter is at most the number of woken threads that have not looked at it again |
| Semaphore.NobodySleepsOnAToken | src/base/semaphore.cpp:61-65 | A thread blocked with nobody awake to take a token sleeps on an empty counter |
| Semaphore.DecrementIsGuarded | src/base/semaphore.cpp:98-109 | The counter is positive at every decrement, also after a timeout: the assertion there holds |
| Semaphore.OnlyTheMutexOrAnEmptyCounterWaits | src/base/semaphore.cpp:50-116 | A call is held up only by the mutex or by an empty counter |
| ThreadLife.RunKeepsInv | src/base/thread.cpp:142-310 | The shared references, the stored result and the joined-or-detached flag fit both threads' positions, in every interleaving |
| ThreadLife.DataOutlivesItsUsers | src/base/thread.cpp:363-370 | Nobody touches the thread data after it was freed; while the child holds only the raw pointer, the parent holds a shared one |
| ThreadLife.JoinAnswers | src/base/thread.cpp:189-245 | A join that completes does so after the main function ended, with its value if it returned, with an exception if it threw |
| ThreadLife.AfterTheCall | src/base/thread.cpp:189-310 | An interrupted, failed or timed-out join leaves the thread joinable; a completed join or a detach does not |
| ThreadLife.DataIsFreed | src/base/thread.cpp:363-440 | Once the Thread object is destroyed and the child is gone, the data is freed |
| Interruption.RegistrationFollowsTheWait | src/base/condition_variable.cpp:50-115 | The registered condition variable is exactly the one the thread is inside Wait or WaitFor of, also when an interruption or the wait of the platform throws, and a request reaches a sleeping thread |
| Interruption.InterruptionsArePaidFor | src/base/thread_data.hpp:286-302 | Interruptions thrown never exceed requests made, and none is thrown while disabled |
| Interruption.ProperRunKeepsGuards | src/base/thread.cpp:497-525 | If restore guards are opened only while disabled, the flag depends on the open guards alone |
| Interruption.GuardsPutTheFlagBack | src/base/thread.cpp:497-525 | A scope that has closed the guards it opened leaves the flag as it found it |
| Interruption.GuardScopeExactly | src/base/thread.cpp:497-525 | In every run, whatever happens in the scope of a guard, closing it puts the flag back if and only if it is a guard that disables, or was opened while interruption was disabled |
| Interruption.NestedRestoreLosesTheFlag | src/base/thread.cpp:513-525 | A run of three guards after which interruption is disabled although the guards still open had left it enabled |
| Forest.BlocksNest | src/QtCopyDialog/qtfilecopier.cpp:1022-1088 | Every number in a request's block is a request whose own block lies inside |
| Forest.ReachInside | src/QtCopyDialog/qtfilecopier.cpp:168-190 | A walk from a request meets only pending requests of its block |
| Forest.ReachIsTheBlockExactly | src/QtCopyDialog/qtfilecopier.cpp:168-190 | A walk meets all pending requests of the block if and only if no request of the block has left with something below it pending |
| Forest.ReachIsTheBlock | src/QtCopyDialog/qtfilecopier.cpp:654-683 | If nothing below a finished request is pending, a walk meets exactly the pending requests of the block |
| Forest.ReachNextChild | src/QtCopyDialog/qtfilecopier.cpp:668-673 | What a walk removed below earlier children does not change what it meets below the next |
| Forest.NumberedUnion | src/QtCopyDialog/qtfilecopier.cpp:1010-1014 | Batches with different numbers form one forest |
| Numbering.ExactlyOneQueue | src/QtCopyDialog/qtfilecopier.cpp:1022-1088 | Each number but the root's is in exactly one children queue, once, and exceeds its parent's |
| Numbering.RootHasNoParent | src/QtCopyDialog/qtfilecopier.cpp:1031-1034 | The first number of a tree is nobody's child |
| Numbering.DepthFirstIsInterval | src/QtCopyDialog/qtfilecopier.cpp:1022-1088 | Following the children queues depth first lists the block's numbers in order |
| FileCopierPrivate.FirstKey | src/QtCopyDialog/qtfilecopier.cpp:1057 | The least key of a batch |
| FileCopierPrivate.QtFileCopierPrivate.constructor | src/QtCopyDialog/qtfilecopier.cpp:827-833 | The copier starts idle, with nothing pending |
| FileCopierPrivate.QtFileCopierPrivate.AddDirs | src/QtCopyDialog/qtfilecopier.cpp:1046-1059 | The sub-directories, each with everything below it, become the next children in listing order |
| FileCopierPrivate.QtFileCopierPrivate.AddFiles | src/QtCopyDialog/qtfilecopier.cpp:1060-1085 | The links of a directory (or its other files) become the next children in listing order |
| FileCopierPrivate.QtFileCopierPrivate.CopyDirectoryContents | src/QtCopyDialog/qtfilecopier.cpp:1022-1088 | For every finite tree the keys are a contiguous interval whose least key is the root, the result is a numbered forest, and request after request is the depth-first listing of the tree |
| FileCopierPrivate.QtFileCopierPrivate.Copy | src/QtCopyDialog/qtfilecopier.cpp:953-961 | One request under the next number, on both sides |
| FileCopierPrivate.QtFileCopierPrivate.CopyFiles | src/QtCopyDialog/qtfilecopier.cpp:963-986 | The files that are no directories, numbered in order, on both sides; nothing if the destination is no directory |
| FileCopierPrivate.QtFileCopierPrivate.CopyDirectory | src/QtCopyDialog/qtfilecopier.cpp:988-1020 | The whole tree below an existing directory on both sides, nothing otherwise |
| FileCopierPrivate.QtFileCopierPrivate.SetState | src/QtCopyDialog/qtfilecopier.cpp:835-852 | A change of state is told once, the progress timer runs exactly while the copier is busy, and leaving Idle for Busy clears the error flag |
| FileCopierPrivate.QtFileCopierPrivate.CopyError | src/QtCopyDialog/qtfilecopier.cpp:854-860 | An error that stops the worker makes the copier wait for interaction |
| FileCopierPrivate.QtFileCopierPrivate.CopyStarted | src/QtCopyDialog/qtfilecopier.cpp:862-868 | The request is pushed, the copier is busy |
| FileCopierPrivate.QtFileCopierPrivate.CopyFinished | src/QtCopyDialog/qtfilecopier.cpp:870-886 | The request, and on error what is pending below it, is dropped; done() follows exactly if nothing is left |
| FileCopierPrivate.QtFileCopierPrivate.CopyCanceled | src/QtCopyDialog/qtfilecopier.cpp:902-909 | Everything pending is dropped and done(false) is told |
| FileCopierPrivate.QtFileCopierPrivate.RemoveChildren | src/QtCopyDialog/qtfilecopier.cpp:888-900 | Terminates on every numbered forest and deletes exactly the pending proper descendants |
| CopyQueue.QtCopyThread.Copy | src/QtCopyDialog/qtfilecopier.cpp:156-166 | Fresh entries for the batch, the rest unchanged |
| CopyQueue.QtCopyThread.Cancel | src/QtCopyDialog/qtfilecopier.cpp:192-197 | Every entry is marked canceled and cancelling is requested |
| CopyQueue.QtCopyThread.CancelChildRequests | src/QtCopyDialog/qtfilecopier.cpp:168-178 | Terminates on every numbered forest and marks exactly the request and its pending descendants |
| CopyQueue.QtCopyThread.OverwriteChildRequests | src/QtCopyDialog/qtfilecopier.cpp:180-190 | The same for the overwrite mark |
| CopyQueue.QtCopyThread.CancelChildren | src/QtCopyDialog/qtfilecopier.cpp:654-683 | Deletes exactly the pending proper descendants from the queue |
| CopyQueue.WalksAreSteps | src/QtCopyDialog/qtfilecopier.cpp:168-190 | The three walks are the steps of the worker's state machine |
| CopyThread.FrameStep | src/QtCopyDialog/qtfilecopier.cpp:623-751 | A step inside handle() or renameChildren() emits at most one signal and leaves the issued requests, the schedule, stop and cancel requests alone |
| CopyThread.RunBracketed | src/QtCopyDialog/qtfilecopier.cpp:623-751 | In every run the open brackets are the activations on the worker's stack |
| CopyThread.BracketsMatch | src/QtCopyDialog/qtfilecopier.cpp:862-875 | In every run started and finished nest, so a listener's pop meets the finished id, and nothing is open between top-level requests |
| CopyThread.AnswersHitTheFailedRequest | src/QtCopyDialog/qtfilecopier.cpp:216-264 | While the worker waits for an answer the current id is the innermost open one |
| CopyThread.RunLosesNothing | src/QtCopyDialog/qtfilecopier.cpp:134-166 | In every run a worker that sleeps, or was never started, beside queued work has a restart due, it stops only with an empty queue, and answers match the stops |
| CopyThread.NoJobIsLost | src/QtCopyDialog/qtfilecopier.cpp:753-785 | If the worker sleeps beside a queued job, a wake-up or a restart is on its way |
| CopyThread.OneAnswerPerStop | src/QtCopyDialog/qtfilecopier.cpp:727-742 | Each error reported as stopped takes exactly one answer, or the wake-up of the destroyed copier, before the next attempt |
| CopyThread.OnlyAutoResetClears | src/QtCopyDialog/qtfilecopier.cpp:753-769 | Once set, the overwrite-all flag is cleared by the automatic reset at a wake-up and by nothing else, in every run |
| CopyThread.ResetOverwriteStopsAsking | src/QtCopyDialog/qtfilecopier.cpp:266-270 | After resetOverwrite() every attempt overwrites until the next automatic reset: at most one attempt already under way still reports an existing destination |
| CleanRuns.CutStep | src/QtCopyDialog/qtfilecopier.cpp:333-350 | A canceled directory drops its whole block, unless only its source is left to be removed, and the invariant of clean runs holds afterwards |
| CleanRuns.LoopStep | src/QtCopyDialog/qtfilecopier.cpp:525-526 | The loop over the children takes its next child, which still waits with its whole block |
| CleanRuns.RunCleanStep | src/QtCopyDialog/qtfilecopier.cpp:781 | The next top-level request is the least one waiting, and it waits with its whole block |
| CleanRuns.EnqueueCleanStep | src/QtCopyDialog/qtfilecopier.cpp:156-166 | A batch handed over in the middle of anything joins what waits and changes nothing else |
| StartOrder.WorkInLine | src/QtCopyDialog/qtfilecopier.cpp:623-781 | Whatever the worker takes next is the least of what waits, as long as only directories that end their top-level request leave children behind |
| LinkFreeRuns.WorkInOrder | src/QtCopyDialog/qtfilecopier.cpp:623-781 | In a link-free clean run, besides, nothing below a departed request stays pending |
| LinkFreeRuns.PendingDescendants | src/QtCopyDialog/qtfilecopier.cpp:168-190 | Then the pending descendants of a request are the queued numbers of its block |
| LinkFreeRuns.QueueClosed | src/QtCopyDialog/qtfilecopier.cpp:654-683 | Then nothing below a request that left the queue is queued |
| FileCopier.SignalKeepsStack | src/QtCopyDialog/qtfilecopier.cpp:862-900 | A signal the listener can account for keeps its open requests pending |
| FileCopier.BatchCommutes | src/QtCopyDialog/qtfilecopier.cpp:1010-1016 | Registering a batch before or after the signals on their way gives the same pending set |
| Mirror.RunMirrored | src/QtCopyDialog/qtfilecopier.cpp:685-900 | The invariant of the whole system in clean runs, and in link-free ones with the order |
| Mirror.MirrorHolds | src/QtCopyDialog/qtfilecopier.cpp:753-900 | Between top-level requests, replaying all signals emitted so far gives, request by request, the worker's queue and a batch that is just being handed over, with an empty stack |
| Mirror.DoneOncePerBatch | src/QtCopyDialog/qtfilecopier.cpp:870-886 | done() is told exactly by the signal that empties the pending set, and then no request is open |
| Mirror.FinishedTakes | src/QtCopyDialog/qtfilecopier.cpp:870-900 | In every clean run finished() takes the request alone out of the pending set, or with its whole block if it failed before anything else started |
| Mirror.FinishedTakesTheBlockExactly | src/QtCopyDialog/qtfilecopier.cpp:870-900 | In every clean run it takes the whole block if and only if the request failed before anything else started, or nothing below it is pending |
| Mirror.FinishedTakesTheBlock | src/QtCopyDialog/qtfilecopier.cpp:870-900 | In link-free clean runs finished() takes exactly the request's block out of the pending set |
| Mirror.WalksTakeTheBlock | src/QtCopyDialog/qtfilecopier.cpp:168-190 | In link-free clean runs the worker's walks meet every pending descendant and nothing else |
| Mirror.NothingUndefined | src/QtCopyDialog/qtfilecopier.cpp:690-702 | A clean run never dereferences the end of the queue |
| Mirror.WalksTakeTheBlockExactly | src/QtCopyDialog/qtfilecopier.cpp:168-190 | In every clean run the worker's walks meet only pending descendants, and all of them if and only if nothing of the block has left with something below it queued |
| Mirror.EachStartsOnce | src/QtCopyDialog/qtfilecopier.cpp:685-696 | In every clean run each request starts at most once |
| Ascent.StartsAscend | src/QtCopyDialog/qtfilecopier.cpp:685-696 | In link-free clean runs the ids of started are strictly increasing over the whole run |
| Ascent.LinksLastAscend | src/QtCopyDialog/qtfilecopier.cpp:685-696 | They are in every clean run in which each directory that leaves children behind is the last of its top-level request |
| Ascent.AscendsExactly | src/QtCopyDialog/qtfilecopier.cpp:421-445 | When the queue is empty they have been if and only if each such directory was the last |
| Mirror.NeverStartedIsDropped | src/QtCopyDialog/qtfilecopier.cpp:333-350 | The ids that neither started nor are pending are exactly the proper descendants of directories canceled or skipped before their children were reached |
| Mirror.WorkerRuns | src/QtCopyDialog/qtfilecopier.cpp:753-786 | The worker of the whole system runs as the worker alone, so the theorems about all runs apply |
| DoneSignal.DoneTellsFailure | src/QtCopyDialog/qtfilecopier.cpp:1404-1409 | In every run done() comes exactly with the signal that leaves nothing pending; after finished() its flag says whether a request has failed, after cancelAll() it never does |
| DoneSignal.FlagIsHonest | src/QtCopyDialog/qtfilecopier.cpp:1404-1409 | In every run the flag of done() is right if and only if it is not for a cancelAll() after a failure |
| DoneSignal.DoneEndsTheBatch | src/QtCopyDialog/qtfilecopier.cpp:870-886 | In clean runs done() ends the drained batch and its flag speaks of that batch alone |
| DoneSignal.RunKeepsFlag | src/QtCopyDialog/qtfilecopier.cpp:835-886 | In every run the error flag says whether a request has failed since Idle was left, and progress is asked for exactly while the copier is busy |
| DoneSignal.RowIsGoodBatch | src/QtCopyDialog/qtfilecopier.cpp:963-986 | What copyFiles() numbers is a batch the worker's model accepts |
| CopyDialog.QtCopyDialogPrivate.Started | src/QtCopyDialog/qtcopydialog.cpp:339-353 | The request's size is replaced by its present one, in the total too |
| CopyDialog.QtCopyDialogPrivate.Finished | src/QtCopyDialog/qtcopydialog.cpp:364-383 | The books after a finished request, with all it subtracts on error |
| CopyDialog.QtCopyDialogPrivate.ChildrenCanceled | src/QtCopyDialog/qtcopydialog.cpp:393-408 | Terminates on every numbered forest and subtracts what it walks over |
| CopyDialog.QtCopyDialogPrivate.Reset | src/QtCopyDialog/qtcopydialog.cpp:435-456 | The books hold the pending requests and the total is the sum of their sizes |
| CopyDialog.QtCopyDialogPrivate.Hear | src/QtCopyDialog/qtcopydialog.cpp:306-391 | The connected slots together do, for each signal of the worker, the step of the books that the theorems about runs speak of |
| CopyDialog.WalkedIsSum | src/QtCopyDialog/qtcopydialog.cpp:393-408 | The walk subtracts exactly the sizes of all that pending requests list below, each once |
| CopyDialog.BelowSplits | src/QtCopyDialog/qtcopydialog.cpp:393-408 | That is the pending proper descendants and the children that had finished before |
| CopyDialog.FailedBalance | src/QtCopyDialog/qtcopydialog.cpp:364-376 | A failed request takes the pending ones with it and counts the finished ones twice |
| CopyDialog.StraysAreCounted | src/QtCopyDialog/qtcopydialog.cpp:393-408 | What a failed directory lists and no longer finds pending is nothing if it failed before its children started, and all of its children if later |
| CopyDialog.BytesConserved | src/QtCopyDialog/qtcopydialog.cpp:339-408 | In every clean run the total plus the recorded sizes of children whose parent failed after one of them had started equals the bytes done plus the sizes of all pending requests |
| CopyDialog.TotalIsDone | src/QtCopyDialog/qtcopydialog.cpp:364-383 | When done() is told the total equals the bytes done if and only if no request with a child of recorded size failed after a child had started |
| CopyDialog.EarlyErrorsConserve | src/QtCopyDialog/qtcopydialog.cpp:374-376 | In every clean run in which directories fail only before a child of theirs has started, the total equals the bytes done plus the sizes of all pending requests, at every moment |
| CopyDialog.ConservedExactly | src/QtCopyDialog/qtcopydialog.cpp:339-408 | At every moment of a clean run the total is at most that sum, and equal to it if and only if no request with a child of recorded size has failed after a child of it had started |
| CopyDialog.ProgressIsCurrent | src/QtCopyDialog/qtcopydialog.cpp:355-360 | The dialog's assertion: progress always comes for the request it takes for the current one |
| FileMove.Copier.OpenDest | src/QtCopyDialog/qtfilecopier.cpp:556-580 | Opening the destination, also under Force, leaves another file's bytes alone; on one file under two names it empties the source |
| FileMove.Copier.CopyBlocks | src/QtCopyDialog/qtfilecopier.cpp:581-606 | The block loop ends with the whole source in the destination or with an error, whatever is read short, written short or canceled |
| FileMove.Copier.CopyFileNode | src/QtCopyDialog/qtfilecopier.cpp:550-616 | Success means a complete copy; at every point the source stays complete |
| FileMove.Copier.MoveNode | src/QtCopyDialog/qtfilecopier.cpp:469-494 | The source is removed only when the destination is complete; a failed removal keeps both and is retried alone |
| FileMove.Copier.Attempt | src/QtCopyDialog/qtfilecopier.cpp:333-494 | One pass of the handler chain, with the same promise; on one file under two names an attempt that does not overwrite changes nothing |
| FileMove.Copier.Handle | src/QtCopyDialog/qtfilecopier.cpp:685-751 | Over any number of attempts with any failures and answers the original bytes are complete at the source or the destination at every point if the two are different files; if they are one file and nothing disturbs the disk, the bytes survive if and only if only a link is made or no attempt overwrites |
| FileMove.OverwritingItself | src/QtCopyDialog/qtfilecopier.cpp:562 | Truncating an existing destination keeps the bytes if and only if it is another file than the source |
| FileMove.LostStaysLost | src/QtCopyDialog/qtfilecopier.cpp:483 | Once emptied, neither keeping nor removing the source brings the bytes back |
| FileMove.RemoveElsewhere | src/QtCopyDialog/qtfilecopier.cpp:567-610 | Removing a name leaves every file that another name leads to |
| SymbolParser.ScanFindsDelimiters | src/base/stack_trace_lnx_gcc.cpp:69-165 | The scan accepts exactly the lines with at most one of each delimiter in the order ( + ) [ ], and finds exactly their places |
| SymbolParser.CutDelimiters | src/base/stack_trace_lnx_gcc.cpp:69-165 | The loop cuts the buffer exactly there and touches nothing else |
| SymbolParser.CString | src/base/stack_trace_lnx_gcc.cpp:182-202 | The C string from a place ends at the next cut |
| SymbolParser.ParseSymbolicAddressRepresentation | src/base/stack_trace_lnx_gcc.cpp:42-246 | The parser in place returns the fields between the delimiters of the line as it was |
| SymbolParser.ParsingUndoesPrinting | src/base/stack_trace_lnx_gcc.cpp:42-246 | For every module, function, 64-bit offset and address without delimiters, with or without each optional part, parsing the printed line gives the fields back, the names trimmed; only a blank line is refused |
| SymbolParser.FieldsComeBackExactly | src/base/stack_trace_lnx_gcc.cpp:42-246 | The fields come back unchanged if and only if the names have no white space at their ends and the line is not empty |
| SymbolParser.NumberOfHexText | src/base/stack_trace_lnx_gcc.cpp:205-231 | A 64-bit number printed in hexadecimal is read back |
| Scenarios.LinkLeavesTheFile | src/QtCopyDialog/qtfilecopier.cpp:421-445 | A run in which a queued directory has become a link: its file stays pending on both sides and the walk from the outer directory misses it |
| Scenarios.LinkBreaksTheOrder | src/QtCopyDialog/qtfilecopier.cpp:421-445 | The same run goes on to start that file after its larger neighbour |
| Scenarios.LateCancelGoesWrong | src/QtCopyDialog/qtcopydialog.cpp:364-408 | A run that cancels a directory after its one file of five bytes was copied ends with a total of zero and five bytes done |
| Scenarios.ResetOverwriteOverwrites | src/QtCopyDialog/qtfilecopier.cpp:1943-1960 | A run in which the user is asked about an existing destination, and one in which, after resetOverwrite(), nobody is asked and the file is overwritten |
| Scenarios.CanceledBatchClaimsSuccess | src/QtCopyDialog/qtfilecopier.cpp:902-909 | A run in which a request fails, everything is canceled, and done() says that nothing failed |

## Left out

- The Unix file lock, sockets, services, D-Bus, signals, widgets, locale and error tables: thin calls to the platform or user interface.
- The kernel: Windows mutexes are recursive for their thread without a count, waits are never abandoned, creating and duplicating handles succeeds, wait-all is atomic, and a named mutex vanishes with its last handle; OpenMutex fails only for a missing mutex.
- LockedFile: an object destroyed while it is locked and its file has been closed.
- LockedFile, Semaphore, ThreadLife, Interruption and CopyThread are state machines on values, not classes: their code runs interleaved, so a method contract cannot say what holds between its steps. Updates in place appear as steps.
- Semaphore: wrap-around of the counter, and the build with interruption points.
- ThreadLife: one owner at a time, `Swap`, `TryJoinUntil` and self-join; thread creation is one step.
- Interruption: threads without thread-local data, on which interruption points do nothing.
- CopyThread: progress timing; the unlocked reads of the cancel request and of the queue's first key are one atomic read each; the guard that lets answers through only while the copier's own state says it waits, so the model allows more answers than the code.
- CleanRuns.CutStep: says nothing of runs that are not clean, in which a failed directory can leave its children in the worker's queue while the GUI side drops them.
- FileCopierPrivate.QtFileCopierPrivate.CopyDirectoryContents: trees are finite and paths plain text; `.lnk` handling, absolute paths and link cycles under FollowLinks are not modelled. The three loops of the source are two methods, one of them called twice.
- FileMove.Copier.Handle: one file, not a directory; write errors that surface only when a buffered file is closed, permissions, other programs changing the files, and rename falling back to copying inside the library are not modelled.
- CopyDialog.ConservedExactly: speaks of clean runs, in which everything is never canceled at once.
- CopyDialog.QtCopyDialogPrivate.Finished: counts of files and directories, times and labels are not modelled, nor the empty entries that looking up an unknown request inserts.
- SymbolParser.ParseSymbolicAddressRepresentation: demangling is any function; signs before a number and white space outside ASCII are not modelled.
