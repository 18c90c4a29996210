# Verification of the build engine, the workflow coordinator and their streams

A Dafny model of the parts of the backend that keep state and make promises over whole runs, with proofs
of those promises. `dafny verify dfyconfig.toml` checks everything.

Three things are modelled.

**The build auto-resume engine** (`backend/usecase/buildengine.go` over `backend/infra/memstore.go`, with
the decisions of `backend/usecase/buildclass.go`). POSTs, exit goroutines, timers, sweeps and stops
interleave freely on one run store. `BuildEngine` is a state machine: each call is a thread with a program
counter, and a step is what a thread does from one store call to the next. Clock readings, fresh ids,
journal and spawn results, output and fingerprints come with each step as an `Oracle` that may be
anything, as long as the clock does not run backwards and ids are fresh. `BuildInvariant` states what all
interleavings keep, `BuildFrames`, `BuildSteps` and `BuildSpawn` prove it step by step, `BuildReach` for
every run from a reloaded journal that satisfies `Boot`, and `BuildVerdicts`, `BuildTheorems`, `BuildChains`
and `BuildStops` draw the consequences. `BuildLanes` needs no assumption about the start. `BuildJournal` adds
what the engine writes to its journal, one write at a time between a thread's store calls, and the restart on
whatever is on disk when the process ends. `BuildWitness` and `BuildRestart` play two runs event by event.
`BuildSections` holds the engine's critical sections as in-place updates of the store, each proved to be a
step of the machine. `Watchdog` is the stall watchdog.

**The workflow coordinator** (`backend/usecase/workflow.go`). A class with the source's maps, one method per
source method, every branch kept. The file system, git, the run store, clocks, ids and the journal's disk
are a `World` whose answer may change at every reading. `WorkflowRecord` is the record and its
transitions, `WorkflowWorld` verification, `WorkflowBook` the invariants, `WorkflowJournal` the reload,
`WorkflowService` the class, `WorkflowTheorems` the consequences.

**The streams.** `Ndjson` and `Stream` follow the output file, `Sse` prints and reads server-sent events
(section 9.2.6 of the WHATWG HTML Living Standard), `WorkItems` finds the resume point behind the progress
fingerprint.

Assumptions about the surroundings are in four predicates: `BuildEngine.Fair` (time and fresh ids),
`BuildReach.Boot` (what a reloaded run journal looks like, below), `WorkflowWorld.WorldOk` (rooted paths stay put, a
target keeps its track, ids are fresh) and `WorkflowWorld.RunsSane` (a run keeps the resume count it was
made with, below the cap; `BuildChains.ChainsAreShort` and `BuildTheorems.StartedRunsLiveOn` prove that of
the engine's store).

`Boot` admits any records filed under their own id, on any lanes, shared or not, and any budgets: `Caps`
bounds the resume counts and waits of journal and settings together, so settings may have been lowered since
the journal was written. It excludes a resume armed on a running or pushed record, for a successor whose
record is loaded too, for the successor of another record as well, for anything but the record's next turn, or
with more than MAX_SPAWN_RETRIES attempts; a push on a running record; and a streak at its limit. Of all that
the engine's own journal can only hold a resume whose successor's record is there too, at whatever moment the
process ends (`BuildJournal.ReloadBootsIff`). It comes about after a failed spawn (second finding), when the
write that clears the resume fails, and when the write of an older snapshot with the resume comes last: a
rejournal reads the store first and writes later, and a sweep may clear, rejournal and journal the successor in
between (backend/usecase/buildengine.go:438 against 452-459).

## Findings

- A Stop can be lost: on a run that is reserved and not yet started. When its record then cannot be journaled
  or its spawn fails, the record is deleted with the request on it, and a firing arms its resume again for the
  same id (`BuildStops.StopBeforeStartIsLost` for every caller and failure, `BuildWitness.AStopIsLost` for a
  run from an empty store). A stop request stays whatever happens next if and only if the process was started
  (`BuildStops.StopSticksIffStarted`).
- The journal has no delete, so a record whose spawn failed is loaded at the next boot beside the resume armed
  again for its id (backend/usecase/buildengine.go:201-209 and 479-502; a run from an empty store, its journal
  and the restart on it in `BuildRestart.AnEndedRecordComesBack`). Once that record is ended, the firing puts it
  back to running if and only if the journal can be written, no Stop came for the predecessor and the lane is
  free (`BuildStops.LeftoverRevivedIff`).
- A restart changes the engine of a build. backend/domain/run.go:97-98 says the engine is journaled so that a
  restart never silently resumes on claude; the record on disk has no field for it (backend/infra/journal.go:18-37
  and 81-88, backend/infra/journalreader.go:40-57). A chain keeps its engine across a restart if and only if that
  is claude (`BuildJournal.EngineSurvivesIff`; codex becomes claude in `BuildRestart.AnEndedRecordComesBack`).
- The resume target can move back when two slices of a manifest share a number, and only then
  (`WorkItems.NeverMovesBackIffDistinct`).
- A record that awaits a decision and is refused at a lane collision is written with its decision still in
  place, so the next boot drops it (`WorkflowTheorems.RefusedLoadsIff`).
- A lane collision fails closed if and only if the number of live records on the lane is even; of an odd number
  the last one read owns the lane (`WorkflowTheorems.CollisionFailsClosedIffEven`, three records in
  `WorkflowTheorems.ThirdRivalOwns`).

## Model

| member | source | states |
|---|---|---|
| BuildLanes.LanesNeverShared | backend/infra/memstore.go:65-115 | from any state at all, after any interleaving, two running builds that share a non-empty lane shared it at the start; none come to share one |
| BuildTheorems.StartedRunsLiveOn | backend/usecase/buildengine.go:191-241 | over any stretch of any run a started run's record is never deleted, once ended it keeps status and exit code, and a stop request, a push, a decision and its place in the chain stay |
| BuildTheorems.OneSuccessorEach | backend/usecase/buildengine.go:319-386 | in every reachable state no two ids were planned as successors of one run |
| BuildTheorems.SuccessorStartsOnce | backend/usecase/buildengine.go:446-474 | whenever a firing is about to start its successor's process, no successor of that run was started before |
| BuildTheorems.ResumeSpentOnce | backend/usecase/buildengine.go:422-502 | an armed resume stays until exactly one firing takes it or a Stop on that run cancels it; while armed nobody holds it, and never two hold it |
| BuildTheorems.AttemptsBounded | backend/usecase/buildengine.go:479-502 | one predecessor causes at most 1 + MAX_SPAWN_RETRIES reserve-and-spawn calls in any interleaving |
| BuildVerdicts.HandshakeComplete | backend/usecase/buildengine.go:220-251 | a build seen ended and not finalizing was decided on or a Stop ended it; one kept has no resume planned; a planned resume was armed for the run's own successor, or refused by a Stop that is on the record, or stems from an earlier process, and since then it is armed, in the hand of a firing, was tried, or a Stop came |
| BuildVerdicts.AlwaysDecided | backend/usecase/buildengine.go:245-251 | what a decision means holds ever after, in every run; no planned resume gets lost |
| BuildVerdicts.AloneForever | backend/usecase/buildengine.go:260-284 | a run decided on is neither planned for nor pushed again |
| BuildTheorems.StopEndsTheChain | backend/usecase/buildengine.go:422-474 | after a stop request on a started run no decision arms a resume for it, a resume armed again after a failed spawn is dropped by the firing that takes it, at most one firing already past its check still reserves, and with no firing under way no successor is ever reserved or started again |
| BuildStops.StopSticksIffStarted | backend/usecase/buildengine.go:201-235 | in every reachable state, a stop request on a record stays there after every continuation if and only if the run's process was started |
| BuildStops.StopBeforeStartIsLost | backend/usecase/buildengine.go:201-209 | a Stop on a reserved run that is then not journaled or not spawned leaves the very store a run without the Stop leaves, the run gone; a firing with attempts left has its resume armed again for the same id |
| BuildWitness.AStopIsLost | backend/usecase/buildengine.go:124-242 | from an empty store, a POST, its failing build, its resume, a Stop before the successor's start and a failed spawn, event by event: the Stop is lost |
| BuildStops.SpawnFailure | backend/usecase/buildengine.go:479-502 | whoever asked and however the spawn failed, the store is left without the run; a firing with attempts left, and no missing binary, arms its resume once more with one more attempt |
| BuildStops.RememberedKeySpawnsNothing | backend/usecase/buildengine.go:128-135 | a POST whose key names a started run takes no id and, whatever happens before it looks at that run, ends without spawning |
| BuildStops.LeftoverRevivedIff | backend/usecase/buildengine.go:446-474 | with the ended record of a failed spawn still loaded, the firing of its resume puts it back to running if and only if the journal is writable, the predecessor was not stopped and the lane is free |
| BuildRestart.AnEndedRecordComesBack | backend/usecase/buildengine.go:201-209 | from an empty store, a journal with the record of a failed spawn beside the resume armed for it, the restart on it, that record's end and its return to running, event by event; asked for on codex, it returns on claude |
| BuildJournal.ReloadBootsIff | backend/usecase/buildengine.go:538-576 | whenever the process ends, with whatever writes done, refused or outstanding, the restart satisfies Boot under any settings if and only if no resume on disk is armed for a run whose record is there too |
| BuildJournal.JournalAddsNothing | backend/usecase/buildengine.go:759-763 | the engine with its journal calls behaves as the engine without them |
| BuildJournal.RecordSound | backend/infra/journal.go:81-94 | every journal call and every step keeps each record on disk one the engine could have meant |
| BuildJournal.RestartSound | backend/usecase/buildengine.go:538-576 | a restart that satisfies Boot begins another life of the engine over the same journal |
| BuildJournal.EndedOnDiskLeftAlone | backend/usecase/buildengine.go:536-546 | a build ended on disk with no resume armed keeps its end in the next process, is neither pushed nor resumed and has no successor |
| BuildJournal.RestartFiresIff | backend/usecase/buildengine.go:446-468 | in a process that has just reloaded, the firing for a build goes on to reserve a successor if and only if a resume is on disk for it, whether a Stop had come before or not |
| BuildJournal.RearmIgnoresStop | backend/usecase/buildengine.go:479-502 | a failed firing puts its resume back, in memory and on disk, if and only if attempts are left, even when a Stop came for that build meanwhile; the request stays in memory only |
| BuildJournal.EngineSurvivesIff | backend/infra/journalreader.go:40-57 | after a restart a successor runs on the engine its chain was asked for if and only if that is claude; nothing else it was asked for changes |
| BuildTheorems.StopHoldsOn | backend/usecase/buildengine.go:724-748 | the stop guarantees between any two moments of a run: reserve chances never grow, firings only end |
| BuildChains.ChainsAreShort | backend/usecase/buildengine.go:319-386 | one chain has at most one id more than the largest resume count of settings and journal; every run's resume count is its depth and its streak is below the limit |
| BuildChains.PostedChainsAreShort | backend/usecase/buildengine.go:332-335 | one POST yields at most 1 + maxBuildResumes runs, and whatever this process plans stays within its settings, whatever the journal brought |
| BuildChains.PlaceInChain | backend/usecase/buildengine.go:341-385 | a run carries its chain's start and root, and has waited between 0 and one limit wait a link |
| BuildChains.SamePlaceSameRun | backend/usecase/buildengine.go:446-468 | a chain is a line: same root and depth means the same run |
| BuildChains.TimeIsAccounted | backend/usecase/buildengine.go:341-360 | FirstStartedAt is the first run's start plus the limit waits on the way, each between 0 and its cap |
| BuildChains.ArmedWithinBudgets | backend/usecase/buildengine.go:332-385 | every armed resume is the next turn within the cap (that of the settings when this process armed it), with a streak below the limit on both branches and a start moved by at most one limit wait |
| BuildChains.ChainsRunAlike | backend/usecase/buildengine.go:446-468 | all runs of a chain share prompt, directory, profile, lane, engine and key |
| BuildChains.OrdinaryResumeInTime | backend/usecase/buildengine.go:361-366 | every ordinary resume is planned before start + maxWallMs + (resume cap) * (wait cap) |
| BuildChains.PushedOnceNeverResumed | backend/usecase/buildengine.go:260-284 | at most one push a run; a pushed run has no resume armed, none planned, no successor |
| BuildReach.AlwaysInv | backend/usecase/buildengine.go:538-576 | the engine's invariant holds from every reloaded journal that satisfies Boot after every sequence of events |
| BuildReach.BootInv | backend/usecase/buildengine.go:538-576 | a reloaded journal that satisfies Boot satisfies the invariant, whatever its lanes and budgets |
| BuildReach.StepKeeps | backend/usecase/buildengine.go:124-748 | every step of every thread keeps the invariant |
| BuildSteps.FinalizeKeeps | backend/usecase/buildengine.go:220-233 | finalizing a run, or losing to another finisher, keeps the invariant |
| BuildSteps.DecideKeeps | backend/usecase/buildengine.go:245-284 | push and plan on the finished output keep the invariant, with a new link of the chain when it resumes |
| BuildSteps.ArmKeeps | backend/usecase/buildengine.go:422-440 | arming, or refusing after a stop, keeps the invariant |
| BuildSteps.ClearKeeps | backend/usecase/buildengine.go:446-458 | the test-and-clear of a firing keeps the invariant |
| BuildSteps.GoNotComplete | backend/usecase/buildengine.go:260-284 | a build that resumes did not push in the same breath |
| BuildSpawn.ReserveKeeps | backend/usecase/buildengine.go:191-200 | reserving, joining a lane's holder, or an unwritable journal keeps the invariant |
| BuildSpawn.StartKeeps | backend/usecase/buildengine.go:201-215 | journaling and spawning, or failing to, keeps the invariant |
| BuildSpawn.UndoKeeps | backend/usecase/buildengine.go:201-209 | deleting an unstarted record keeps the invariant |
| BuildLives.StepFair | backend/usecase/buildengine.go:124-748 | what any one step does to a started run's record, armed resume, decision and firings |
| BuildSections.BuildEngineService.ReserveLane | backend/infra/memstore.go:87-115 | the in-place reserve is the machine's reserve step, both ways |
| BuildSections.BuildEngineService.BeginFinalizing | backend/usecase/buildengine.go:599-608 | the in-place mark is the machine's step and reports the branch taken |
| BuildSections.BuildEngineService.FinalizeRun | backend/infra/memstore.go:65-81 | the in-place finalize is the machine's step and reports who won |
| BuildSections.BuildEngineService.EndOfFinalizing | backend/usecase/buildengine.go:610-612 | the in-place end of the handshake is the machine's step |
| BuildSections.BuildEngineService.MaybePushOnComplete | backend/usecase/buildengine.go:260-276 | the in-place test-and-set is the machine's and reports the one push |
| BuildSections.BuildEngineService.ScheduleResume | backend/usecase/buildengine.go:422-440 | the in-place arm is the machine's step, timer only when armed |
| BuildSections.BuildEngineService.TestAndClear | backend/usecase/buildengine.go:446-458 | the in-place test-and-clear is the machine's step and hands out the resume once |
| BuildSections.BuildEngineService.RearmOrPark | backend/usecase/buildengine.go:479-502 | the in-place re-arm is the machine's step |
| BuildSections.BuildEngineService.StopRunning | backend/usecase/buildengine.go:724-742 | an uninterrupted Stop is the machine's two stop steps |
| ResumePlan.Backoff | backend/usecase/buildengine.go:403-415 | the doubling loop gives min(base * 2^streak, cap) |
| ResumePlan.DecideResume | backend/usecase/buildengine.go:319-386 | the step-by-step plan equals the plan the theorems speak about |
| ResumePlan.ClampDelayBounds | backend/usecase/buildengine.go:391-400 | a limit wait lies between 0 and its cap, at least the base when that fits, and hits the reset time when in range |
| ResumePlan.PlanWithinBudgets | backend/usecase/buildengine.go:319-386 | every resume keeps the turn, streak and wall budgets, and moves the chain's start by exactly the limit wait |
| ResumePlan.CompletionStays | backend/usecase/buildengine.go:319-331 | a completed or operator-stopped build never resumes |
| ResumePlan.NoProgressParks | backend/usecase/buildengine.go:367-378 | a turn without progress at the end of the streak parks the chain |
| BuildClass.FinalSpokenText | backend/usecase/buildclass.go:73-89 | the loop's text is the fold of the spoken messages, result before assistant |
| BuildClass.NoiseChangesNothing | backend/usecase/buildclass.go:73-138 | a line that speaks nothing can be added anywhere without changing the final text |
| BuildClass.OtherKindIsNoise | backend/usecase/buildclass.go:91-138 | a message of any other kind speaks nothing |
| BuildClass.LastResultWins | backend/usecase/buildclass.go:91-100 | the last result text is the final text whatever assistant text surrounds it |
| BuildClass.CompletionNeverRetries | backend/usecase/buildclass.go:231-252 | a completion sentinel classifies as terminal or awaiting for every exit |
| BuildClass.BreadcrumbsChangeNoOutcome | backend/usecase/buildclass.go:231-252 | any number of breadcrumbs appended to the output leaves the outcome as it was |
| MemStore.MemStore.ReserveKind | backend/infra/memstore.go:103-115 | the record is put exactly when the lane is free, otherwise a holder is named and nothing changes |
| MemStore.MemStore.Finalize | backend/infra/memstore.go:65-81 | only a running record takes the exit code, and the answer says whether it did |
| MemStore.MemStore.Update | backend/infra/memstore.go:120-130 | exactly the named record changes, by the given function, and the record the change saw is reported |
| MemStore.MemStore.Get | backend/infra/memstore.go:24-29 | the record under the id, or none exactly when there is none |
| MemStore.MemStore.Put | backend/infra/memstore.go:18-22 | the record is filed under its id, replacing one |
| MemStore.MemStore.SetPid | backend/infra/memstore.go:43-51 | only the named record's pid changes |
| MemStore.MemStore.Delete | backend/infra/memstore.go:54-58 | only the named record goes |
| MemStore.MemStore.ReserveBuild | backend/infra/memstore.go:87-89 | reserved exactly when no running build holds the lane |
| MemStore.MemStore.ReserveInit | backend/infra/memstore.go:95-97 | reserved exactly when no running init holds the lane |
| MemStore.MemStore.List | backend/infra/memstore.go:31-39 | every record once, in some order |
| MemStore.ReserveKeepsLanes | backend/infra/memstore.go:87-115 | putting a run on a free lane makes no two running builds share a lane that did not before |
| MemStore.ChangeKeepsLanes | backend/infra/memstore.go:120-130 | nor does a change that revives nothing and moves no lane |
| MemStore.FirstFinalizeWins | backend/infra/memstore.go:65-81 | a second finalize changes nothing |
| Watchdog.Watchdog.SweepRun | backend/usecase/buildengine.go:687-718 | one look at one run: the record's new marks and the signal sent |
| Watchdog.Watchdog.SweepStalls | backend/usecase/buildengine.go:675-683 | a sweep looks at every run once, whatever the order, and does nothing when disabled |
| Watchdog.TermExactly | backend/usecase/buildengine.go:694-717 | over any sweeps, SIGTERM exactly when alive, silent, not yet signalled, and silent for the whole window since the last growth and the baseline |
| Watchdog.KillExactly | backend/usecase/buildengine.go:701-709 | over any sweeps, SIGKILL exactly when alive in a signalled silence, the grace after the last signal |
| Watchdog.KillFollowsTerm | backend/usecase/buildengine.go:701-717 | every SIGKILL follows a SIGTERM of the watchdog by the grace at least with no growth seen between |
| WorkflowService.WorkflowService.AdvanceLocked | backend/usecase/workflow.go:459-570 | the pump terminates, works on one workflow only, spawns at most one child and none beside a working one, leaves a running workflow with a child when the journal is writable, and keeps every invariant of the books |
| WorkflowService.WorkflowService.ObserveLocked | backend/usecase/workflow.go:723-804 | the observation terminates, leaves a child that runs or is still being decided alone, a running workflow with a child when the journal is writable, and keeps every invariant |
| WorkflowService.WorkflowService.SettleStep | backend/usecase/workflow.go:754-782 | a build's end hands over to a running build, waits for an armed resume, or waits for the push result, in that order, within the invariants |
| WorkflowService.WorkflowService.ReadChild | backend/usecase/workflow.go:783-803 | a decision is asked, else a park reason kept, else a bad exit fails the phase, else it is completed; within the invariants |
| WorkflowService.WorkflowService.VerifyStep | backend/usecase/workflow.go:506-517 | failed exactly when some fact does not hold, done only with evidence of them all |
| WorkflowService.WorkflowService.ChildStep | backend/usecase/workflow.go:521-568 | a running child of the lane is adopted and nothing spawned; with none there is exactly one spawn |
| WorkflowService.WorkflowService.ChildGoneStep | backend/usecase/workflow.go:727-737 | a vanished child is replaced by a running one of the lane, or the workflow fails |
| WorkflowService.WorkflowService.FindLiveChild | backend/usecase/workflow.go:677-684 | a running child of the lane, or none exactly when there is none |
| WorkflowService.WorkflowService.TransitionLocked | backend/usecase/workflow.go:599-609 | the new phase and its started record in one write |
| WorkflowService.WorkflowService.ChooseFirst | backend/usecase/workflow.go:473-479 | the phase the target calls for (rplan for a plan; pickup, proto or build for a PRD by its path, lock and preview), with its started record |
| WorkflowService.WorkflowService.SkipDone | backend/usecase/workflow.go:484-495 | a phase recorded done hands over to its successor in the track without a child; with none the workflow fails |
| WorkflowService.WorkflowService.LockStep | backend/usecase/workflow.go:496-505 | the lock phase is completed exactly when there is a path and its lock is given, else the workflow fails |
| WorkflowService.WorkflowService.Save | backend/usecase/workflow.go:670-675 | memory holds the record; the journal holds it exactly when writing works |
| WorkflowService.WorkflowService.Enter | backend/usecase/workflow.go:322-346 | the new workflow owns the open lane and is pumped: with a writable journal it has a child unless it came to rest |
| WorkflowService.WorkflowService.LoadOne | backend/usecase/workflow.go:142-198 | one record is taken, or it and the lane's owner are both refused |
| WorkflowService.WorkflowService.RecheckDone | backend/usecase/workflow.go:200-213 | every done record ends done or failed, done exactly when its facts held when read; no other record changes |
| WorkflowService.PickBuild | backend/usecase/workflow.go:755-762 | a running build of the lane, or none exactly when there is none |
| WorkflowService.WorkflowService.SpawnStep | backend/usecase/workflow.go:531-568 | exactly one spawn is asked for, with the phase's request, and the workflow has a child or failed |
| WorkflowService.WorkflowService.CompletePhaseLocked | backend/usecase/workflow.go:611-631 | the closed record and its successor in one journal write |
| WorkflowService.WorkflowService.FailLocked | backend/usecase/workflow.go:658-668 | failed, childless, the open record marked, in one write |
| WorkflowService.WorkflowService.Start | backend/usecase/workflow.go:292-346 | refused without a target; otherwise a known workflow that was live, or a fresh one that owns the lane and is attended, never both; the known one is answered as failed exactly when it was done and its facts no longer hold, which takes its own idempotency key |
| WorkflowService.WorkflowService.Admit | backend/usecase/workflow.go:324-340 | a new workflow enters an open lane, or, when its first write fails, never was |
| WorkflowService.WorkflowService.Continue | backend/usecase/workflow.go:963-1004 | unknown, historical or wrong-option requests change nothing; running and done ones are answered as they are; any other is written as running with a record of the option and then pumped |
| WorkflowService.WorkflowService.Stop | backend/usecase/workflow.go:1006-1020 | exactly the running workflow and its child are stopped, and nothing else changes |
| WorkflowService.WorkflowService.Sweep | backend/usecase/workflow.go:712-721 | every invariant, lanes, keys and whoever does not run stay; afterwards, with a writable journal, every running workflow has a child |
| WorkflowService.WorkflowService.RefreshTerminalLocked | backend/usecase/workflow.go:348-360 | a done workflow stays done exactly when its facts still hold |
| WorkflowService.WorkflowService.LoadRecords | backend/usecase/workflow.go:131-199 | any distinct records in any order leave at most one live owner a lane, one exactly when an odd number of live records was read for it, and then the last of them; a recoverable journal comes back whole |
| WorkflowService.WorkflowService.Recover | backend/usecase/workflow.go:118-199 | started on what the journal held after any single write of any run, the reload makes each live workflow its lane's owner, the same in every field, with all invariants |
| WorkflowService.WorkflowService.Rehydrate | backend/usecase/workflow.go:118-221 | reload, re-check of what is done and pump: done records end by their facts, other resting ones stay, running ones get a child, with all invariants for a recoverable journal |
| WorkflowService.WorkflowService.Serve | backend/usecase/workflow.go:292-1020 | any sequence of Start, Continue, Stop and Sweep keeps every invariant |
| WorkflowService.WorkflowService.FindBuildSuccessor | backend/usecase/workflow.go:690-708 | for a build with a lane: a later turn whenever one is there, further on in its chain and within the cap, and none exactly when there is none |
| WorkflowService.PickSuccessor | backend/usecase/workflow.go:694-706 | the later turn of the same lane and prompt with the largest resume count, or none when there is none |
| WorkflowTheorems.OneLivePerLane | backend/usecase/workflow.go:131-199 | a lane has at most one workflow not failed or stopped, and byLane names it |
| WorkflowTheorems.NeverRevived | backend/usecase/workflow.go:963-1020 | a failed or stopped workflow stays exactly as it is, whatever is called later |
| WorkflowTheorems.PhasesGoForward | backend/usecase/workflow.go:599-656 | the phase index never decreases |
| WorkflowTheorems.PhasesWalked | backend/usecase/workflow.go:599-656 | every phase from the first chosen one up to the current one has a done record |
| WorkflowTheorems.DoneIsProven | backend/usecase/workflow.go:506-517 | done is only reached at verify, on evidence of facts that held then |
| WorkflowTheorems.SpawnsAreCharged | backend/usecase/workflow.go:521-567 | over any stretch a phase's spawns never exceed the history records it gained, plus the one owed to a childless running workflow; who does not run has no child |
| WorkflowTheorems.RefusedLoadsIff | backend/usecase/workflow.go:178-190 | a record refused at a collision is valid again exactly when it did not await a decision |
| WorkflowTheorems.CollisionFailsClosedIffEven | backend/usecase/workflow.go:142-190 | after a reload nobody lives on a lane if and only if an even number of live records was read for it; an odd one out is the last read |
| WorkflowTheorems.ThirdRivalOwns | backend/usecase/workflow.go:178-190 | three given live records of one lane: the third owns it |
| WorkflowJournal.LoadKeepsOdd | backend/usecase/workflow.go:131-199 | reading one more record, accepted, refused or dropped, keeps the lanes' parity |
| WorkflowJournal.RestartRestores | backend/usecase/workflow.go:131-199 | between calls the journal says what memory says: a restart makes each live workflow its lane's owner with the same phase, status and history |
| WorkflowJournal.EveryCrashRecovers | backend/usecase/workflow.go:118-199 | whatever the journal held after any single write of any run, a restart accepts every record of it and, reading in any order, makes each live workflow its lane's owner, the same in every field |
| WorkflowJournal.SafeIsRecoverable | backend/usecase/workflow.go:223-264 | every record of a safe journal passes validWorkflow, and no two live ones share a lane |
| WorkflowJournal.RefusalsStaySafe | backend/usecase/workflow.go:178-190 | the reload's own writes leave a safe journal safe |
| WorkflowJournal.LoadKeepsRecords | backend/usecase/workflow.go:144-190 | only historical records of a good journal collide, so none that lives is lost |
| WorkflowJournal.LoadKeepsLanes | backend/usecase/workflow.go:144-190 | loading one record, taken or refused, keeps lane ownership |
| WorkflowBook.SoundIsValid | backend/usecase/workflow.go:223-264 | every record the coordinator keeps passes the boot check |
| WorkflowBook.VerdictsInevitable | backend/usecase/workflow.go:891-907 | at verify the build verdict, or the qa, reviewer and wrap verdicts, are there |
| WorkflowBook.CompletedOnward | backend/usecase/workflow.go:611-631 | completing a phase keeps order, budget and identity |
| WorkflowBook.FactsOutlive | backend/usecase/workflow.go:506-517 | what was verified still holds of the record once the verify phase is closed |
| WorkflowBook.JournalSafe | backend/usecase/workflow.go:223-264 | a journal in step with sound books on owned lanes is safe |
| WorkflowBook.WriteAdvances | backend/usecase/workflow.go:670-675 | one workflow's onward write, journaled, keeps all books' invariants |
| WorkflowBook.SpawnAdvances | backend/usecase/workflow.go:558-567 | a spawn for a running childless workflow is paid for by its open record |
| WorkflowBook.EnterAdvances | backend/usecase/workflow.go:324-340 | a new workflow on an open lane keeps all books' invariants |
| WorkflowRecord.CloseRecord | backend/usecase/workflow.go:612-619 | the backward search closes the last open record of the phase and no other |
| WorkflowRecord.LastOfClosed | backend/usecase/workflow.go:611-641 | closing makes the phase's last open record done and no other phase's last record changes |
| WorkflowRecord.PhaseIsDone | backend/usecase/workflow.go:633-641 | the last record of the phase decides |
| WorkflowRecord.NextPhase | backend/usecase/workflow.go:643-656 | the scan finds the successor in the track's order |
| WorkflowRecord.OrderIsPosition | backend/domain/workflow.go:87-93 | the rank of a phase is its index in its track's list |
| WorkflowWorld.VerifyWorkflow | backend/usecase/workflow.go:838-925 | evidence exactly when every fact about target, artifacts, manifest or plan, verdicts and push holds; it names path, time, verdicts and commits |
| WorkflowWorld.CheckPrd | backend/usecase/workflow.go:850-893 | no doubt exactly when lock, preview, manifest, slices and build verdict are all there |
| WorkflowWorld.CheckPlan | backend/usecase/workflow.go:894-907 | no doubt exactly when the plan is there with all boxes ticked and its three verdicts |
| WorkflowWorld.FindBuildChild | backend/usecase/workflow.go:908-914 | the child of the last build record that names one |
| WorkflowWorld.CheckSlice | backend/usecase/workflow.go:867-890 | a slice passes exactly when it and all its steps are done with their artifacts and commits there |
| WorkflowWorld.WorkflowParkReason | backend/usecase/workflow.go:806-823 | the last park line, else a blocked final text, else nothing |
| Ndjson.NdjsonParser.Push | backend/usecase/ndjson.go:30-46 | a chunk yields the lines it completes and keeps the rest |
| Ndjson.NdjsonParser.Flush | backend/usecase/ndjson.go:49-56 | the tail once, then nothing is left |
| Ndjson.ReadAll | backend/infra/output.go:21-32 | push of the whole file and flush is the one-shot parse |
| Ndjson.ChunkingIrrelevant | backend/usecase/ndjson.go:30-56 | any cutting into chunks yields exactly the parse of the whole text |
| Ndjson.SegmentsJoin | backend/usecase/ndjson.go:30-46 | splitting at line feeds undoes joining with them |
| Ndjson.ParseRoundTrip | backend/usecase/ndjson.go:30-63 | non-blank lines without line feeds come back as they were written |
| Stream.Stream | backend/usecase/stream.go:36-75 | the events before end are the one-shot parse of the bytes read, in order, each once, numbered 0, 1, 2, ... |
| Stream.Drain | backend/usecase/stream.go:40-50 | one read catches the parser, the offset and the events up with the bytes seen |
| Stream.Turn | backend/usecase/stream.go:53-74 | a turn that finds the run over parses everything read; any other stays caught up |
| Stream.EndSeesWholeFile | backend/usecase/stream.go:50-70 | a run seen ended is read once more before the end, so all of its output is seen |
| Sse.ResponseWriter.Emit | backend/adapter/http.go:445-449 | a data frame is appended to the body |
| Sse.ResponseWriter.End | backend/adapter/http.go:450-454 | an end frame is appended to the body |
| Sse.FramesConcat | src/sse.ts:81-92 | cutting frames off a growing buffer finds the frames of the whole text |
| Sse.ParseFrame | src/sse.ts:19-33 | the loop's event is the last event field and its data the data fields joined |
| Sse.StreamClient.Drain | src/sse.ts:81-92 | every complete frame is handled in order and only the unfinished rest stays |
| Sse.StreamClient.Handle | src/sse.ts:94-104 | an end frame sets the end, a data frame may add a line |
| Sse.StreamRun | src/sse.ts:81-118 | whatever the chunks, the lines and the end are those of the whole text |
| Sse.RoundTrip | src/sse.ts:10-33 | printed frames whose payloads have no line feed and do not end in a carriage return, cut anywhere, are read back in order with nothing extra |
| Sse.ComesBackIff | src/sse.ts:10-33 | a printed frame comes back if and only if its payload has no line feed and does not end in a carriage return |
| WorkItems.SortedSlices | backend/domain/workitems.go:213-223 | the in-place insertion sort is a stable sorted permutation of a copy |
| WorkItems.StableSortUnique | backend/domain/workitems.go:213-223 | there is only one stable sort of a list |
| WorkItems.ComputeResumeTarget | backend/domain/workitems.go:157-176 | the least slice that is not done with a verified commit, at its first unverified step; nothing when there is none |
| WorkItems.TargetAdvances | backend/domain/workitems.go:140-176 | as files and commits appear and statuses become done the target only moves forward |
| WorkItems.FinishedStays | backend/domain/workitems.go:157-176 | once every slice is finished it stays so as the repository grows |
| WorkItems.NeverMovesBackIffDistinct | backend/domain/workitems.go:157-176 | it can never move back exactly when the slice numbers are distinct |

## Left out

- The other writers of the run store: plain and init runs (Put, Delete, Finalize, ReserveInit in
  backend/usecase/spawn.go), StopService (stop.go) and the reaper (reaper.go) take no part in the engine's
  interleavings. They write runs of other kinds than build only: the stop routes send builds to the engine.
- The build engine's breadcrumb texts, log lines and push results: only that a push is asked for, once.
- What a restart forgets: stop requests, fingerprints and the watchdog's marks are not journaled, by design
  (backend/domain/run.go:110-117), so the next process knows a Stop only by what it left on disk, and fires a
  resume armed again after it (`BuildJournal.RestartFiresIff`, `BuildJournal.RearmIgnoresStop`). A crash between
  the finalizing write and the arming drops a resume, so only at-most-once is claimed.
- The order of the records on disk, records of other kinds, and files that do not parse: the restart takes the
  engine's own records as written.
- Processes and signals of the engine: a kill is a recorded action, a spawn an oracle's answer. One live
  process per lane does not follow, since Stop ends the record before the child is dead.
- BuildEngine.WatchStep: writes anything to the watchdog's own fields; what it writes is the subject of
  module Watchdog.
- The engine between store calls is modelled on values, one step function per call; its critical sections
  are given in place in BuildSections. A resume delay is an unbounded integer, so a base of more than 2^62 ms
  does not overflow here.
- JSON decoding, the limit, park and push-line patterns, reset times and time zones: functions of a `Reader`
  or `World`. Sentinels are matched literally at a line start after white space.
- Decoding of UTF-8 across chunks: lines are bytes, the event stream is characters.
- Roadmap, lock marker, checkbox and path rules behind a workflow's target and files: answers of the `World`.
  That a target keeps its track is assumed.
- Verify reads all its files at one tick.
- WorkflowService.WorkflowService.LoadOne: the branch for a done owner and a historical record is not
  modelled, because the branch before it takes every such case.
- WorkflowService.WorkflowService.Serve: the source has no such loop; it stands for the mutex that orders the
  calls.
- The workflow event stream, workflow reads, HTTP routes, the CLI, the daemon lock and profile handling.
- ActiveStepFor and the Markdown readers of work items.
