/** The workflow coordinator (backend/usecase/workflow.go). One mutex makes every public call atomic; what
    it reads outside is the `World`'s answer at that tick. */
module WorkflowService {
  import opened Wrappers
  import opened Ndjson
  import opened WorkflowRecord
  import opened WorkflowWorld
  import opened WorkflowBook
  import opened WorkflowJournal
  import B = BuildClass
  import M = MemStore
  import R = Runs

  /** The prompt of a phase's child. */
  function PhaseName(p: Phase): string {
    match p
    case Resolve => "resolve"
    case Pickup => "pickup"
    case Proto => "proto"
    case Lock => "lock"
    case Build => "build"
    case RPlan => "rplan"
    case RPlanReview => "rplan-review"
    case Approved => "approved"
    case QA => "qa"
    case Reviewer => "reviewer"
    case Wrap => "wrap"
    case Verify => "verify"
    case OtherPhase => ""
  }

  const BUILD_NOTE :=
    "\nWhen all required implementation work is complete and the durable build evidence is written, "
    + "end your final response with PRD_BUILD_COMPLETE on its own line."

  function PromptOf(w: Workflow, continuation: string): string {
    var target := if w.resolvedPath == "" || w.phase == Pickup || w.phase == RPlan then w.target else w.resolvedPath;
    "/saki-builder:" + PhaseName(w.phase)
    + (if target != "" then " " + target else "")
    + (if w.phase == Build then BUILD_NOTE else "")
    + (if continuation != "" then "\nOperator selected option: " + continuation else "")
  }

  function RequestOf(w: Workflow, configDir: Option<string>, engine: string, continuation: string): SpawnRequest {
    SpawnRequest(PromptOf(w, continuation), w.cwd,
                 if configDir.None? && w.configDir != "" then Some(w.configDir) else configDir,
                 w.phase, w.laneKey,
                 if engine == "" then R.ResolveEngine(w.engine) else engine, w.phase == Build)
  }

  /** A running child of the lane. */
  predicate LiveChild(r: R.Run, laneKey: string) {
    r.IsRunning() && r.meta.Some? && r.meta.value.laneKey == laneKey && r.prompt != ""
  }

  ghost predicate LaneBusy(runs: M.RunMap, laneKey: string) {
    exists id :: id in runs && LiveChild(runs[id], laneKey)
  }

  /** A later turn of the same build. */
  predicate LaterTurn(r: R.Run, pred: R.Run, laneKey: string) {
    && r.id != pred.id && r.meta.Some? && r.meta.value.laneKey == laneKey && r.meta.value.kind == "build"
    && r.prompt == pred.prompt && r.resumeCount > pred.resumeCount
  }

  function LaneOf(info: Target): string {
    info.cwd + "::" + info.identity
  }

  function Asked(d: B.Decision): WorkflowDecision {
    WorkflowDecision(d.kind, d.question, d.options, d.slice)
  }

  ghost predicate BuildOnLane(runs: M.RunMap, laneKey: string) {
    exists id :: id in runs && R.Holds(runs[id], "build", laneKey)
  }

  /** A child works on the phase. */
  predicate HasChild(w: Workflow) {
    w.child != "" && !Childless(w.phase) && LastOf(w.history, w.phase) != Some(PhaseDone)
  }

  /** A running workflow has a child at work. */
  predicate Attended(w: Workflow) {
    w.status == Running ==> w.child != ""
  }

  /** Continue takes the option. */
  predicate Reopens(w: Workflow, option: string) {
    && !w.Historical() && w.status != Done && w.status != Running
    && (w.status == AwaitingDecision ==> w.decision.Some? && option in w.decision.value.options)
  }

  /** A done record was checked on facts read between the two ticks; no other record changed. */
  ghost predicate Rechecked(world: World, a: Workflow, b: Workflow, from: nat, to: nat) {
    && (a.status != Done ==> b == a)
    && (a.status == Done ==>
          && (b.status == Done || b.status == Failed)
          && exists n :: from <= n < to && (b.status == Done <==> Facts(world, n, a)))
  }

  /** Parked and awaiting count: they hand over to the operator. */
  predicate Terminal(s: Status) {
    s == Done || s == Failed || s == Status.Stopped || s == Parked || s == AwaitingDecision
  }

  function StoppedBy(w: Workflow): Workflow {
    w.(status := Status.Stopped, reason := StoppedByOperator, child := "", pendingUntil := 0)
  }

  lemma StoppedOnward(world: World, w: Workflow)
    requires !Terminal(w.status)
    ensures Onward(world, w, StoppedBy(w))
  {
    hide LastOf, RecordsOf, ValidId, OnLane, Order;
  }

  ghost predicate NoLaterTurn(runs: M.RunMap, run: R.Run, laneKey: string) {
    forall x | x in runs :: !LaterTurn(runs[x], run, laneKey)
  }

  /** The child runs, or its end is still being decided, and no later turn of its build is there. */
  ghost predicate Undecided(world: World, n: nat, w: Workflow) {
    && w.child != "" && w.child in world.runs(n)
    && var run := world.runs(n)[w.child];
       && (run.IsRunning() || run.finalizing)
       && (w.phase == Build && run.meta.Some? ==> NoLaterTurn(world.runs(n + 1), run, w.laneKey))
  }

  datatype StartRequest = StartRequest(
    cwd: string, target: string, configDir: Option<string>, engine: string, idemKey: string)

  datatype Call = DoStart(req: StartRequest) | DoContinue(id: string, option: string) | DoStop(id: string) | DoSweep

  datatype Outcome = Refused | Answered(workflow: Workflow, deduped: bool)

  /** The store's listing of runs, in whatever order: the first running child of the lane. */
  method PickLive(world: World, runs: M.RunMap, laneKey: string) returns (child: string)
    requires SaneRuns(world, runs)
    ensures child != "" ==> child in runs && LiveChild(runs[child], laneKey)
    ensures child == "" ==> forall id | id in runs :: !LiveChild(runs[id], laneKey)
  {
    var rest := runs.Keys;
    while rest != {}
      invariant rest <= runs.Keys
      invariant forall id | id in runs && id !in rest :: !LiveChild(runs[id], laneKey)
      decreases rest
    {
      var id :| id in rest;
      if LiveChild(runs[id], laneKey) { return runs[id].id; }
      rest := rest - {id};
    }
    child := "";
  }

  /** findBuildSuccessor: the run of the same lane and prompt with the largest greater resume count. */
  method PickSuccessor(world: World, runs: M.RunMap, pred: R.Run, laneKey: string) returns (best: string)
    requires SaneRuns(world, runs)
    ensures best != "" ==> best in runs && LaterTurn(runs[best], pred, laneKey)
    ensures best != "" ==>
              forall id | id in runs && LaterTurn(runs[id], pred, laneKey) :: runs[id].resumeCount <= runs[best].resumeCount
    ensures best == "" ==> forall id | id in runs :: !LaterTurn(runs[id], pred, laneKey)
  {
    best := "";
    var bestResume := pred.resumeCount;
    var rest := runs.Keys;
    while rest != {}
      invariant rest <= runs.Keys
      invariant best != "" ==> best in runs && LaterTurn(runs[best], pred, laneKey) && bestResume == runs[best].resumeCount
      invariant best == "" ==> bestResume == pred.resumeCount
      invariant forall id | id in runs && id !in rest && LaterTurn(runs[id], pred, laneKey) ::
                  best != "" && runs[id].resumeCount <= bestResume
      decreases rest
    {
      var id :| id in rest;
      var c := runs[id];
      rest := rest - {id};
      if c.id == pred.id || c.meta.None? || c.meta.value.laneKey != laneKey || c.meta.value.kind != "build"
         || c.prompt != pred.prompt { continue; }
      if c.resumeCount <= bestResume { continue; }
      if best == "" || c.resumeCount > bestResume {
        best, bestResume := c.id, c.resumeCount;
      }
    }
  }

  /** A running build of the lane, whichever comes first. */
  method PickBuild(world: World, runs: M.RunMap, laneKey: string) returns (found: string)
    requires SaneRuns(world, runs)
    ensures found != "" ==> found in runs && R.Holds(runs[found], "build", laneKey)
    ensures found == "" ==> forall id | id in runs :: !R.Holds(runs[id], "build", laneKey)
  {
    var rest := runs.Keys;
    while rest != {}
      invariant rest <= runs.Keys
      invariant forall id | id in runs && id !in rest :: !R.Holds(runs[id], "build", laneKey)
      decreases rest
    {
      var id :| id in rest;
      if R.Holds(runs[id], "build", laneKey) { return runs[id].id; }
      rest := rest - {id};
    }
    found := "";
  }

  class WorkflowService {
    const world: World
    var tick: nat
    var workflows: map<string, Workflow>
    var byLane: map<string, string>
    var byIdem: map<string, string>
    var journal: map<string, Workflow>
    ghost var written: seq<map<string, Workflow>>
    var spawned: seq<SpawnCall>
    var stopped: seq<string>

    ghost function Books(): Book
      reads this
    {
      Book(workflows, byLane, byIdem, journal, written, spawned)
    }

    /** The clock, at the next tick. */
    method Clock() returns (now: int)
      modifies `tick
      ensures WorldOk(world) ==> now > 0
    {
      now := world.now(tick);
      tick := tick + 1;
    }

    /** The record as it now is in memory, and persist. */
    method Save(id: string, w: Workflow) returns (ok: bool)
      requires id in workflows
      modifies `workflows, `journal, `written, `tick
      ensures Writes(world, old(Books()), Books(), id, w, []) && workflows[id] == w
      ensures ok || !AllWritable(world)
      ensures workflows == old(workflows)[id := w] && tick == old(tick) + 1
      ensures journal == if ok then old(journal)[id := w] else old(journal)
      ensures written == if ok then old(written) + [journal] else old(written)
    {
      workflows := workflows[id := w];
      ok := world.writable(tick);
      tick := tick + 1;
      if ok {
        journal := journal[id := w];
        written := written + [journal];
      }
    }

    method FailLocked(id: string, reason: Reason) returns (ok: bool)
      requires id in workflows
      modifies `workflows, `journal, `written, `tick
      ensures exists at :: Writes(world, old(Books()), Books(), id, Failing(old(workflows)[id], reason, at), [])
      ensures id in workflows && workflows[id].status == Failed
    {
      var w := workflows[id];
      var at := Clock();
      w := w.(status := Failed, reason := reason, child := "", updatedAt := at);
      var n := |w.history|;
      if n > 0 && w.history[n - 1].status == PhaseStarted {
        w := w.(history := w.history[n - 1 := w.history[n - 1].(status := PhaseFailed, reason := reason)]);
      }
      assert w == Failing(workflows[id], reason, at);
      ok := Save(id, w);
    }

    method TransitionLocked(id: string, next: Phase) returns (ok: bool)
      requires id in workflows && workflows[id].phase != next
      modifies `workflows, `journal, `written, `tick
      ensures exists at :: Writes(world, old(Books()), Books(), id, Moved(old(workflows)[id], next, at), [])
                           && workflows[id] == Moved(old(workflows)[id], next, at)
      ensures id in workflows && workflows[id].phase == next && workflows[id].track == old(workflows)[id].track
      ensures workflows[id].status == old(workflows)[id].status && (ok || !AllWritable(world))
    {
      var at := Clock();
      ok := Save(id, Moved(workflows[id], next, at));
    }

    /** The record is w in memory; its phase is completed and its successor started in one write. */
    method CompletePhaseLocked(id: string, w: Workflow, reason: Reason) returns (ok: bool)
      requires id in workflows
      modifies `workflows, `journal, `written, `tick
      ensures exists startAt, at :: Writes(world, old(Books()), Books(), id, Completed(w, reason, startAt, at), [])
                                    && workflows[id] == Completed(w, reason, startAt, at)
      ensures id in workflows && (ok || !AllWritable(world))
    {
      var h := CloseRecord(w.history, w.phase, w.child, reason);
      var w' := w.(history := h, child := "");
      var next := NextPhase(w.track, w.phase);
      var startAt := 0;
      if next.Some? {
        startAt := Clock();
        w' := w'.(phase := next.value, history := Begin(h, next.value, startAt));
      }
      var at := Clock();
      w' := w'.(updatedAt := at);
      assert w' == Completed(w, reason, startAt, at);
      ok := Save(id, w');
    }

    /** A running child of the lane in the store as it is at this tick. */
    method FindLiveChild(laneKey: string) returns (child: string)
      requires RunsSane(world)
      modifies `tick
      ensures tick == old(tick) + 1
      ensures child != "" ==> child in world.runs(old(tick)) && LiveChild(world.runs(old(tick))[child], laneKey)
      ensures child == "" ==> forall id | id in world.runs(old(tick)) :: !LiveChild(world.runs(old(tick))[id], laneKey)
    {
      SaneAt(world, tick);
      child := PickLive(world, world.runs(tick), laneKey);
      tick := tick + 1;
    }

    /** The target, read afresh: its path may have appeared or gone. */
    method ResolveTarget(id: string) returns (info: Option<Target>)
      requires id in workflows && workflows[id].status == Running
      modifies `workflows, `tick
      ensures Works(world, old(Books()), Books(), id)
      ensures workflows[id] == old(workflows)[id].(resolvedPath := workflows[id].resolvedPath)
      ensures Left(workflows[id]) == Left(old(workflows)[id])
      ensures info.Some? && WorldOk(world) ==>
                info.value.track == world.trackOf(world.root(workflows[id].cwd), world.trim(workflows[id].target))
    {
      hide Works, Onward, Advances;
      var w := workflows[id];
      info := world.resolve(tick, w.cwd, w.target);
      tick := tick + 1;
      if info.None? {
        WorksSelf(world, Books(), id);
        return;
      }
      ghost var before := Books();
      workflows := workflows[id := w.(resolvedPath := info.value.path)];
      StayedOnward(world, w, workflows[id]);
      assert before.spawned + [] == before.spawned;
      WriteWorks(world, before, Books(), id, workflows[id]);
    }

    method FailNow(id: string, reason: Reason) returns (ok: bool)
      requires id in workflows && workflows[id].status == Running
      modifies `workflows, `journal, `written, `tick
      ensures id in workflows && Works(world, old(Books()), Books(), id) && workflows[id].status == Failed
    {
      hide Works, Onward, Advances, Writes, Failing;
      ghost var before := Books();
      ok := FailLocked(id, reason);
      ghost var at :| Writes(world, before, Books(), id, Failing(before.workflows[id], reason, at), []);
      FailingOnward(world, before.workflows[id], reason, at);
      WriteWorks(world, before, Books(), id, Failing(before.workflows[id], reason, at));
    }

    /** On to the first phase of the track. */
    method ChooseFirst(id: string, info: Target) returns (ok: bool)
      requires id in workflows && workflows[id].status == Running && workflows[id].phase == Resolve
      requires WorldOk(world)
               && info.track == world.trackOf(world.root(workflows[id].cwd), world.trim(workflows[id].target))
      modifies `workflows, `journal, `written, `tick
      ensures Works(world, old(Books()), Books(), id) && Left(workflows[id]) < Left(old(workflows)[id])
      ensures exists at :: workflows[id] == Moved(old(workflows)[id], FirstPhase(world, old(tick), info), at)
      ensures FirstOf(info.track, workflows[id].phase) && workflows[id].status == Running && (ok || !AllWritable(world))
    {
      hide Works, Onward, Advances, Writes, Moved, AllWritable;
      ghost var before := Books();
      var w := workflows[id];
      var next := FirstPhase(world, tick, info);
      tick := tick + 1;
      ok := TransitionLocked(id, next);
      ghost var at :| Writes(world, before, Books(), id, Moved(w, next, at), []) && workflows[id] == Moved(w, next, at);
      FirstIsFirst(world, w, info, next);
      MovedOnward(world, w, next, at);
      WriteWorks(world, before, Books(), id, Moved(w, next, at));
    }

    /** Recovery: the phase is recorded done already. */
    method SkipDone(id: string) returns (ok: bool)
      requires id in workflows && workflows[id].status == Running && workflows[id].phase != Verify
      requires LastOf(workflows[id].history, workflows[id].phase) == Some(PhaseDone)
      modifies `workflows, `journal, `written, `tick
      ensures Works(world, old(Books()), Books(), id) && Left(workflows[id]) < Left(old(workflows)[id])
      ensures match NextOf(old(workflows)[id].track, old(workflows)[id].phase)
              case Some(next) => exists at, at' :: workflows[id] == Skipped(old(workflows)[id], next, at, at')
              case None => workflows[id].status == Failed
      ensures ok || !AllWritable(world) || workflows[id].status == Failed
    {
      hide Works, Onward, Advances, Writes, Skipped, AllWritable;
      ghost var before := Books();
      var w := workflows[id];
      var next := NextPhase(w.track, w.phase);
      if next.None? {
        ok := FailNow(id, NoSuccessor);
        return;
      }
      var at := Clock();
      var at' := Clock();
      ok := Save(id, Skipped(w, next.value, at, at'));
      SkippedOnward(world, w, next.value, at, at');
      WriteWorks(world, before, Books(), id, Skipped(w, next.value, at, at'));
    }

    method LockStep(id: string, path: string) returns (ok: bool)
      requires id in workflows && workflows[id].status == Running && workflows[id].phase == Lock && Walkable(workflows[id])
      modifies `workflows, `journal, `written, `tick
      ensures Works(world, old(Books()), Books(), id) && Left(workflows[id]) < Left(old(workflows)[id])
      ensures if path != "" && world.lock(old(tick), old(workflows)[id].cwd, path)
              then exists startAt, at :: workflows[id] == Completed(old(workflows)[id], LockComplete, startAt, at)
              else workflows[id].status == Failed
      ensures ok || !AllWritable(world) || workflows[id].status == Failed
    {
      hide Works, Onward, Advances, Writes, Completed, AllWritable;
      if path == "" {
        ok := FailNow(id, CannotLock);
        return;
      }
      var locked := world.lock(tick, workflows[id].cwd, path);
      tick := tick + 1;
      if !locked {
        ok := FailNow(id, LockRefused);
        return;
      }
      OnwardSelf(world, workflows[id]);
      BuildFollowsLock(workflows[id].track);
      ok := CompleteNow(id, workflows[id], LockComplete);
    }

    /** The phase of w is complete. */
    method CompleteNow(id: string, w: Workflow, reason: Reason) returns (ok: bool)
      requires id in workflows && workflows[id].status == Running && Onward(world, workflows[id], w) && w.status == Running
      requires Sound(world, w) ==> w.phase != Resolve
      modifies `workflows, `journal, `written, `tick
      ensures id in workflows && Works(world, old(Books()), Books(), id)
      ensures workflows[id].status == Running && workflows[id].track == w.track
      ensures NextOf(w.track, w.phase).Some? ==> Some(workflows[id].phase) == NextOf(w.track, w.phase)
      ensures NextOf(w.track, w.phase).None? ==> workflows[id].phase == w.phase
      ensures ok || !AllWritable(world)
      ensures exists startAt, at :: workflows[id] == Completed(w, reason, startAt, at)
      ensures w.phase == Verify && Sound(world, workflows[id]) ==>
                workflows[id].history != [] && workflows[id].history[|workflows[id].history| - 1].status == PhaseDone
    {
      hide Works, Onward, Advances, Writes, Sound;
      ghost var before := Books();
      ok := CompletePhaseLocked(id, w, reason);
      ghost var startAt, at :| Writes(world, before, Books(), id, Completed(w, reason, startAt, at), [])
                               && workflows[id] == Completed(w, reason, startAt, at);
      CompletedOnward(world, w, reason, startAt, at);
      OnwardTrans(world, before.workflows[id], w, Completed(w, reason, startAt, at));
      WriteWorks(world, before, Books(), id, Completed(w, reason, startAt, at));
    }

    /** The verify phase: done on evidence, or failed. */
    method VerifyStep(id: string) returns (ok: bool)
      requires id in workflows && workflows[id].status == Running && workflows[id].phase == Verify && WorldOk(world)
      modifies `workflows, `journal, `written, `tick
      ensures Works(world, old(Books()), Books(), id)
      ensures workflows[id].status == Done ==> workflows[id].evidence.Some? && Facts(world, old(tick), old(workflows)[id])
      ensures workflows[id].status == Failed <==> !Facts(world, old(tick), old(workflows)[id])
      ensures workflows[id].status == Done || workflows[id].status == Failed || !AllWritable(world)
    {
      hide Works, Onward, Advances, Writes, Sound, Facts, Order, NextOf, HasVerdict, CommitNamed, WorldOk, Proven;
      ghost var before := Books();
      var w := workflows[id];
      var evidence, doubt := VerifyWorkflow(world, tick, w);
      ClockPositive(world, tick);
      ghost var n := tick;
      NothingFollowsVerify(w.track);
      tick := tick + 1;
      if evidence.None? {
        ok := FailNow(id, Unverified(doubt));
        return;
      }
      EvidenceOnward(world, w, evidence.value);
      ok := CompleteNow(id, w.(evidence := evidence), VerifiedCompletion);
      if !ok { return; }
      ghost var mid := Books();
      var done := workflows[id];
      ghost var startAt, at :| done == Completed(w.(evidence := evidence), VerifiedCompletion, startAt, at);
      FactsOutlive(world, n, w, evidence.value, startAt, at);
      FinishedOnward(world, done);
      ok := Save(id, Finished(done));
      WriteWorks(world, mid, Books(), id, Finished(done));
      WorksTrans(world, before, mid, Books(), id);
    }

    /** A running workflow takes this child. */
    method TakeChild(id: string, child: string, resumeCount: int, pendingUntil: int) returns (ok: bool)
      requires id in workflows && workflows[id].status == Running && child != "" && !Childless(workflows[id].phase)
      modifies `workflows, `journal, `written, `tick
      ensures id in workflows && Works(world, old(Books()), Books(), id)
      ensures workflows[id] == old(workflows)[id].(child := child, resumeCount := resumeCount, pendingUntil := pendingUntil)
    {
      hide Works, Onward, Advances, Writes;
      ghost var before := Books();
      var w := workflows[id].(child := child, resumeCount := resumeCount, pendingUntil := pendingUntil);
      ok := Save(id, w);
      StayedOnward(world, before.workflows[id], w);
      WriteWorks(world, before, Books(), id, w);
    }

    /** The resume count a build takes over from its child, if the store still has it. */
    method CountOf(id: string, w: Workflow) returns (resumeCount: int)
      modifies `tick
    {
      var runs := world.runs(tick);
      tick := tick + 1;
      resumeCount := if id in runs && w.phase == Build then runs[id].resumeCount else w.resumeCount;
    }

    /** A child for the current phase: one found running on the lane, or one spawned. */
    method ChildStep(id: string, configDir: Option<string>, engine: string, continuation: string) returns (ok: bool)
      requires WorldOk(world) && RunsSane(world)
      requires id in workflows && workflows[id].status == Running && workflows[id].child == ""
      requires !Childless(workflows[id].phase)
      modifies `workflows, `journal, `written, `tick, `spawned
      ensures id in workflows && Works(world, old(Books()), Books(), id)
      ensures workflows[id].status == Failed || workflows[id].child != ""
      ensures LaneBusy(world.runs(old(tick)), old(workflows)[id].laneKey) ==>
                && spawned == old(spawned) && workflows[id].child in world.runs(old(tick))
                && LiveChild(world.runs(old(tick))[workflows[id].child], workflows[id].laneKey)
      ensures !LaneBusy(world.runs(old(tick)), old(workflows)[id].laneKey) ==>
                spawned == old(spawned) + [SpawnCall(id, old(workflows)[id].phase,
                                                     RequestOf(old(workflows)[id], configDir, engine, continuation))]
    {
      hide Works, WorldOk, LiveChild, RequestOf;
      var w := workflows[id];
      var adopted := FindLiveChild(w.laneKey);
      if adopted != "" {
        var count := CountOf(adopted, w);
        ok := TakeChild(id, adopted, count, w.pendingUntil);
        return;
      }
      ok := SpawnStep(id, configDir, engine, continuation);
    }

    method SpawnStep(id: string, configDir: Option<string>, engine: string, continuation: string) returns (ok: bool)
      requires WorldOk(world)
      requires id in workflows && workflows[id].status == Running && workflows[id].child == ""
      requires !Childless(workflows[id].phase)
      modifies `workflows, `journal, `written, `tick, `spawned
      ensures id in workflows && Works(world, old(Books()), Books(), id)
      ensures spawned == old(spawned) + [SpawnCall(id, old(workflows)[id].phase,
                                                   RequestOf(old(workflows)[id], configDir, engine, continuation))]
      ensures workflows[id].status == Failed || workflows[id].child != ""
    {
      hide Works, Onward, Advances, WorldOk, RequestOf, Failing;
      ghost var before := Books();
      var w := workflows[id];
      var call := SpawnCall(id, w.phase, RequestOf(w, configDir, engine, continuation));
      var run := world.spawn(tick, call.request);
      SpawnedHasId(world, tick, call.request);
      tick := tick + 1;
      spawned := spawned + [call];
      if run.None? {
        ghost var mid := Books();
        ok := FailLocked(id, SpawnError);
        ghost var at :| Writes(world, mid, Books(), id, Failing(w, SpawnError, at), []);
        FailingOnward(world, w, SpawnError, at);
        FailingAll(w, SpawnError, at);
        SpawnWorks(world, before, Books(), id, Failing(w, SpawnError, at), call);
        return;
      }
      var w' := w.(child := run.value.id,
                   resumeCount := if w.phase == Build then run.value.resumeCount else w.resumeCount + 1);
      ok := Save(id, w');
      StayedOnward(world, w, w');
      SpawnWorks(world, before, Books(), id, w', call);
    }

    /** The pump: phases the coordinator does itself, then a child for the first that needs one. */
    method AdvanceLocked(id: string, configDir: Option<string>, engine: string, continuation: string) returns (ok: bool)
      requires WorldOk(world) && RunsSane(world) && LanesOwned(Books()) && id in workflows
      modifies `workflows, `journal, `written, `tick, `spawned
      ensures id in workflows && Works(world, old(Books()), Books(), id) && LanesOwned(Books())
      ensures |spawned| <= |old(spawned)| + 1
      ensures old(workflows)[id].status != Running ==> Books() == old(Books())
      ensures HasChild(old(workflows)[id]) ==> spawned == old(spawned)
      ensures AllWritable(world) ==> Attended(workflows[id])
    {
      hide Works, LanesOwned, WorldOk, RunsSane, Left, AllWritable;
      ghost var start := Books();
      WorksSelf(world, start, id);
      while workflows[id].status == Running
        invariant HasChild(start.workflows[id]) || start.workflows[id].status != Running ==> Books() == start
        invariant id in workflows && Works(world, start, Books(), id) && LanesOwned(Books()) && spawned == start.spawned
        decreases Left(workflows[id])
      {
        ghost var turn := Books();
        LeftPositive(workflows[id]);
        FiledWalkable(turn, id);
        var info := ResolveTarget(id);
        WorksOn(world, start, turn, Books(), id);
        if info.None? {
          ghost var mid := Books();
          ok := FailNow(id, ResolveError);
          WorksOn(world, start, mid, Books(), id);
          return;
        }
        ghost var mid := Books();
        var w := workflows[id];
        if w.phase == Resolve {
          ok := ChooseFirst(id, info.value);
          WorksOn(world, start, mid, Books(), id);
          if !ok { return; }
          continue;
        }
        var done := PhaseIsDone(w.history, w.phase);
        if w.phase != Verify && done {
          ok := SkipDone(id);
          WorksOn(world, start, mid, Books(), id);
          if !ok { return; }
          continue;
        }
        if w.phase == Lock {
          ok := LockStep(id, info.value.path);
          WorksOn(world, start, mid, Books(), id);
          if !ok { return; }
          continue;
        }
        if w.phase == Verify {
          ok := VerifyStep(id);
          WorksOn(world, start, mid, Books(), id);
          return;
        }
        if w.child != "" { return true; }
        ok := ChildStep(id, configDir, engine, continuation);
        WorksOn(world, start, mid, Books(), id);
        return;
      }
      ok := true;
    }

    /** The child is no longer in the store: another running on the lane, or failure. */
    method ChildGoneStep(id: string) returns (ok: bool)
      requires RunsSane(world)
      requires id in workflows && workflows[id].status == Running && workflows[id].child != ""
      modifies `workflows, `journal, `written, `tick
      ensures id in workflows && Works(world, old(Books()), Books(), id)
      ensures LaneBusy(world.runs(old(tick)), old(workflows)[id].laneKey) ==>
                && workflows[id].child in world.runs(old(tick)) && workflows[id].status == Running
                && LiveChild(world.runs(old(tick))[workflows[id].child], workflows[id].laneKey)
      ensures !LaneBusy(world.runs(old(tick)), old(workflows)[id].laneKey) ==> workflows[id].status == Failed
      ensures Attended(workflows[id])
    {
      hide Works, LiveChild, RunsSane;
      var w := workflows[id];
      var adopted := FindLiveChild(w.laneKey);
      if adopted != "" {
        var count := CountOf(adopted, w);
        ok := RetakeChild(id, adopted, count, w.pendingUntil);
        return;
      }
      ok := FailNow(id, ChildGone);
    }

    /** A running workflow with a child takes this one instead. */
    method RetakeChild(id: string, child: string, resumeCount: int, pendingUntil: int) returns (ok: bool)
      requires id in workflows && workflows[id].status == Running && workflows[id].child != "" && child != ""
      modifies `workflows, `journal, `written, `tick
      ensures id in workflows && Works(world, old(Books()), Books(), id)
      ensures workflows[id] == old(workflows)[id].(child := child, resumeCount := resumeCount, pendingUntil := pendingUntil)
    {
      hide Works, Onward, Advances, Writes;
      ghost var before := Books();
      var w := workflows[id].(child := child, resumeCount := resumeCount, pendingUntil := pendingUntil);
      ok := Save(id, w);
      RechildOnward(world, before.workflows[id], w);
      WriteWorks(world, before, Books(), id, w);
    }

    /** No resume is waited for any more; a crash may forget that. */
    method ClearWait(id: string)
      requires id in workflows && workflows[id].status == Running
      modifies `workflows
      ensures id in workflows && Works(world, old(Books()), Books(), id)
      ensures workflows[id] == old(workflows)[id].(pendingUntil := 0)
    {
      hide Works, Onward, Advances;
      ghost var start := Books();
      workflows := workflows[id := workflows[id].(pendingUntil := 0)];
      StayedOnward(world, start.workflows[id], workflows[id]);
      assert start.spawned + [] == start.spawned;
      WriteWorks(world, start, Books(), id, workflows[id]);
    }

    /** The child is over and its engine has decided: wait for a resume, hand over to the operator, fail,
        or complete the phase. */
    method SettleStep(id: string, run: R.Run, configDir: Option<string>, engine: string) returns (ok: bool)
      requires WorldOk(world) && RunsSane(world) && LanesOwned(Books())
      requires id in workflows && workflows[id].status == Running && workflows[id].child != ""
      modifies `workflows, `journal, `written, `tick, `spawned
      ensures id in workflows && Works(world, old(Books()), Books(), id) && LanesOwned(Books())
      ensures |spawned| <= |old(spawned)| + 1
      ensures old(workflows)[id].phase == Build ==>
                var w, runs := old(workflows)[id], world.runs(old(tick));
                if BuildOnLane(runs, w.laneKey) then
                  && workflows[id].child in runs && R.Holds(runs[workflows[id].child], "build", w.laneKey)
                  && workflows[id].status == Running && spawned == old(spawned)
                else if run.pendingResume.Some? then
                  workflows[id] == w.(resumeCount := run.pendingResume.value.resumeCount,
                                      pendingUntil := run.pendingResume.value.resumeAt)
                else
                  run.pushedAt.Some? && !HasRaw(world.reader, world.output(old(tick) + 1, run.id), world.isPushLine) ==>
                    workflows[id] == w.(pendingUntil := 0)
      ensures AllWritable(world) ==> Attended(workflows[id])
    {
      hide Works, LanesOwned, WorldOk, RunsSane, Onward, Advances, Writes, ParkReason, HasRaw, R.Holds, AllWritable;
      ghost var start := Books();
      WorksSelf(world, start, id);
      if workflows[id].phase == Build {
        SaneAt(world, tick);
        var runs := world.runs(tick);
        tick := tick + 1;
        var found := PickBuild(world, runs, workflows[id].laneKey);
        if found != "" {
          ok := RetakeChild(id, found, runs[found].resumeCount, 0);
          WorksOwned(world, start, Books(), id);
          return;
        }
        if run.pendingResume.Some? {
          var p := run.pendingResume.value;
          var _ := RetakeChild(id, workflows[id].child, p.resumeCount, p.resumeAt);
          WorksOwned(world, start, Books(), id);
          return true;
        }
        ClearWait(id);
        WorksOwned(world, start, Books(), id);
      }
      ghost var mid := Books();
      var lines := world.output(tick, run.id);
      tick := tick + 1;
      if workflows[id].phase == Build && run.pushedAt.Some? {
        var pushed := AnyRaw(world.reader, lines, world.isPushLine);
        if !pushed { return true; }
      }
      ok := ReadChild(id, run, lines, configDir, engine);
      WorksOn(world, start, mid, Books(), id);
    }

    method ReadChild(id: string, run: R.Run, lines: seq<ParsedLine>, configDir: Option<string>, engine: string)
      returns (ok: bool)
      requires WorldOk(world) && RunsSane(world) && LanesOwned(Books())
      requires id in workflows && workflows[id].status == Running && workflows[id].child != ""
      modifies `workflows, `journal, `written, `tick, `spawned
      ensures id in workflows && Works(world, old(Books()), Books(), id) && LanesOwned(Books())
      ensures |spawned| <= |old(spawned)| + 1
      ensures var text := B.FinalText(world.reader, lines);
              if text.Some? && world.reader.decision(text.value).Some? then
                && workflows[id].status == AwaitingDecision
                && workflows[id].decision == Some(Asked(world.reader.decision(text.value).value))
              else if ParkReason(world, lines) != "" then
                workflows[id].status == Parked && workflows[id].parkedReason == ParkReason(world, lines)
              else
                run.status != R.Done ==> workflows[id].status == Failed
      ensures AllWritable(world) ==> Attended(workflows[id])
    {
      hide Works, LanesOwned, WorldOk, RunsSane, Onward, Advances, Writes, ParkReason, AllWritable;
      ghost var start := Books();
      var w := workflows[id];
      var final := B.FinalSpokenText(world.reader, lines);
      if final.Some? && world.reader.decision(final.value).Some? {
        var d := world.reader.decision(final.value).value;
        var w' := w.(status := AwaitingDecision, child := "", reason := Said(d.question),
                     decision := Some(Asked(d)));
        ok := Save(id, w');
        StayedOnward(world, w, w');
        WriteWorks(world, start, Books(), id, w');
        WorksOwned(world, start, Books(), id);
        return;
      }
      var reason := WorkflowParkReason(world, lines);
      if reason != "" {
        var w' := w.(status := Parked, parkedReason := reason, reason := Said(reason), child := "");
        ok := Save(id, w');
        StayedOnward(world, w, w');
        WriteWorks(world, start, Books(), id, w');
        WorksOwned(world, start, Books(), id);
        return;
      }
      if run.status != R.Done {
        ok := FailNow(id, ChildFailed);
        WorksOwned(world, start, Books(), id);
        return;
      }
      OnwardSelf(world, w);
      ChildNotAtResolve(world, w);
      ok := CompleteNow(id, w, ChildCompleted);
      ghost var mid := Books();
      WorksOwned(world, start, mid, id);
      if !ok { return; }
      ok := AdvanceLocked(id, configDir, engine, "");
      WorksOn(world, start, mid, Books(), id);
    }

    /** The later turn of this build on the workflow's lane, which may have ended already. */
    method FindBuildSuccessor(w: Workflow, pred: R.Run) returns (successor: string)
      requires RunsSane(world)
      modifies `tick
      ensures successor != "" ==>
                && successor in world.runs(old(tick))
                && LaterTurn(world.runs(old(tick))[successor], pred, w.laneKey)
                && pred.resumeCount < world.resumeOf(successor) <= world.maxResumes
      ensures successor != "" <==>
              w.phase == Build && pred.meta.Some? && !NoLaterTurn(world.runs(old(tick)), pred, w.laneKey)
    {
      hide RunsSane, LaterTurn;
      if w.phase != Build || pred.meta.None? { return ""; }
      var runs := world.runs(tick);
      SaneAt(world, tick);
      tick := tick + 1;
      successor := PickSuccessor(world, runs, pred, w.laneKey);
      if successor != "" { SuccessorIsLater(runs[successor], pred, w.laneKey); }
    }

    /** What a running workflow's child has come to. */
    method ObserveLocked(id: string, configDir: Option<string>, engine: string) returns (ok: bool)
      requires WorldOk(world) && RunsSane(world) && LanesOwned(Books())
      requires id in workflows && workflows[id].status == Running
      modifies `workflows, `journal, `written, `tick, `spawned
      ensures id in workflows && Works(world, old(Books()), Books(), id) && LanesOwned(Books())
      ensures |spawned| <= |old(spawned)| + 1
      ensures Undecided(world, old(tick), old(workflows)[id]) ==> Books() == old(Books())
      ensures AllWritable(world) ==> Attended(workflows[id])
      decreases world.maxResumes - world.resumeOf(workflows[id].child)
    {
      hide Works, LanesOwned, WorldOk, RunsSane, LaterTurn, NoLaterTurn, LiveChild, AllWritable, BuildOnLane, HasRaw, R.Holds;
      var w := workflows[id];
      if w.child == "" {
        ok := AdvanceLocked(id, configDir, engine, "");
        return;
      }
      ghost var start := Books();
      var runs := world.runs(tick);
      SaneAt(world, tick);
      tick := tick + 1;
      if w.child !in runs {
        ok := ChildGoneStep(id);
        WorksOwned(world, start, Books(), id);
        return;
      }
      var run := runs[w.child];
      var successor := FindBuildSuccessor(w, run);
      if successor != "" {
        var count := CountOf(successor, w);
        ok := TakeChild(id, successor, count, 0);
        ghost var mid := Books();
        WorksOwned(world, start, mid, id);
        if !ok { return; }
        ok := ObserveLocked(id, configDir, engine);
        WorksOn(world, start, mid, Books(), id);
        return;
      }
      if run.IsRunning() || run.finalizing {
        WorksSelf(world, start, id);
        return true;
      }
      ok := SettleStep(id, run, configDir, engine);
    }

    /** The periodic pump over every running workflow. */
    method Sweep()
      requires WorldOk(world) && RunsSane(world) && LanesOwned(Books())
      modifies `workflows, `journal, `written, `tick, `spawned
      ensures Advances(world, old(Books()), Books()) && LanesOwned(Books())
      ensures workflows.Keys == old(workflows).Keys && byLane == old(byLane) && byIdem == old(byIdem)
      ensures forall id | id in old(workflows) && old(workflows)[id].status != Running :: workflows[id] == old(workflows)[id]
      ensures AllWritable(world) ==> forall id | id in workflows :: Attended(workflows[id])
    {
      hide Works, LanesOwned, WorldOk, RunsSane, Advances, AllWritable;
      ghost var start := Books();
      AdvancesSelf(world, start);
      var rest := workflows.Keys;
      while rest != {}
        invariant rest <= workflows.Keys && workflows.Keys == start.workflows.Keys
        invariant byLane == start.byLane && byIdem == start.byIdem
        invariant Advances(world, start, Books()) && LanesOwned(Books())
        invariant forall id | id in start.workflows && (id in rest || start.workflows[id].status != Running) ::
                    workflows[id] == start.workflows[id]
        invariant AllWritable(world) ==> forall id | id in workflows && id !in rest :: Attended(workflows[id])
        decreases rest
      {
        var id :| id in rest;
        rest := rest - {id};
        if workflows[id].status != Running { continue; }
        ghost var mid := Books();
        var _ := ObserveLocked(id, None, "");
        WorksAdvances(world, mid, Books(), id);
        AdvancesTrans(world, start, mid, Books());
      }
    }

    /** A done workflow is checked again before it is answered with. */
    method RefreshTerminalLocked(id: string)
      requires WorldOk(world) && LanesOwned(Books()) && id in workflows
      modifies `workflows, `journal, `written, `tick
      ensures id in workflows && Works(world, old(Books()), Books(), id) && LanesOwned(Books())
      ensures old(workflows)[id].status != Done ==> workflows[id] == old(workflows)[id]
      ensures old(workflows)[id].status == Done ==>
                && (workflows[id].status == Done || workflows[id].status == Failed) && tick > old(tick)
                && (workflows[id].status == Done <==> Facts(world, old(tick), old(workflows)[id]))
      ensures tick >= old(tick)
    {
      hide Works, LanesOwned, WorldOk, Onward, Advances, Writes, Facts, HasVerdict, CommitNamed, Proven;
      ghost var start := Books();
      var w := workflows[id];
      if w.status != Done {
        WorksSelf(world, start, id);
        return;
      }
      var evidence, doubt := VerifyWorkflow(world, tick, w);
      ClockPositive(world, tick);
      ghost var n := tick;
      tick := tick + 1;
      if evidence.None? {
        var _ := Save(id, Doubted(w, doubt));
        DoubtedOnward(world, w, doubt);
        WriteWorks(world, start, Books(), id, Doubted(w, doubt));
      } else {
        var _ := Save(id, w.(evidence := evidence));
        FactsFresh(world, n, w, evidence.value);
        EvidenceOnward(world, w, evidence.value);
        WriteWorks(world, start, Books(), id, w.(evidence := evidence));
      }
      WorksOwned(world, start, Books(), id);
    }

    /** Reopens a parked workflow, or one that awaits a decision, with one of the recorded options. */
    method Continue(id: string, option: string) returns (r: Outcome)
      requires WorldOk(world) && RunsSane(world) && LanesOwned(Books())
      modifies `workflows, `journal, `written, `tick, `spawned
      ensures Advances(world, old(Books()), Books()) && LanesOwned(Books())
      ensures workflows.Keys == old(workflows).Keys && byLane == old(byLane) && byIdem == old(byIdem)
      ensures id !in old(workflows) ==> r == Refused
      ensures id in old(workflows) && old(workflows)[id].Historical() ==> r == Refused && Books() == old(Books())
      ensures id in old(workflows) && old(workflows)[id].status == AwaitingDecision
              && (old(workflows)[id].decision.None? || option !in old(workflows)[id].decision.value.options) ==>
                r == Refused && Books() == old(Books())
      ensures id in old(workflows) && (old(workflows)[id].status == Running || old(workflows)[id].status == Done) ==>
                r == Answered(old(workflows)[id], true) && Books() == old(Books())
      ensures id in old(workflows) && Reopens(old(workflows)[id], option) ==>
                && (exists at, mid: Book ::
                      && mid.workflows == old(workflows)[id := Reopened(old(workflows)[id], option, at)]
                      && Works(world, mid, Books(), id))
                && (r.Answered? ==> r == Answered(workflows[id], false))
                && (AllWritable(world) ==> Attended(workflows[id]))
    {
      hide Works, LanesOwned, WorldOk, RunsSane, Onward, Advances, Writes, Reopened, AllWritable;
      ghost var start := Books();
      AdvancesSelf(world, start);
      if id !in workflows { return Refused; }
      var w := workflows[id];
      if w.status == Done || w.status == Running { return Answered(w, true); }
      if w.status == Failed || w.status == Stopped { return Refused; }
      if w.status == AwaitingDecision {
        if w.decision.None? { return Refused; }
        if option !in w.decision.value.options { return Refused; }
      }
      var at := Clock();
      var ok := Save(id, Reopened(w, option, at));
      ReopenedOnward(world, w, option, at);
      WriteWorks(world, start, Books(), id, Reopened(w, option, at));
      WorksOwned(world, start, Books(), id);
      ghost var mid := Books();
      WorksAdvances(world, start, mid, id);
      assert mid.workflows == start.workflows[id := Reopened(w, option, at)];
      if !ok {
        WorksSelf(world, mid, id);
        return Refused;
      }
      ok := AdvanceLocked(id, None, "", option);
      WorksAdvances(world, mid, Books(), id);
      AdvancesTrans(world, start, mid, Books());
      if !ok { return Refused; }
      r := Answered(workflows[id], false);
    }

    /** A workflow to answer with, checked again; while it lives its lane names it. */
    method Refreshed(id: string)
      requires WorldOk(world) && LanesOwned(Books()) && id in workflows
      modifies `workflows, `journal, `written, `tick
      ensures Advances(world, old(Books()), Books()) && LanesOwned(Books()) && workflows.Keys == old(workflows).Keys
      ensures id in workflows && workflows[id].id == id && workflows[id].laneKey == old(workflows)[id].laneKey
      ensures workflows[id].Historical() <==>
                old(workflows)[id].Historical()
                || (old(workflows)[id].status == Done && !Facts(world, old(tick), old(workflows)[id]))
      ensures !workflows[id].Historical() ==> workflows[id].laneKey in byLane && byLane[workflows[id].laneKey] == id
    {
      hide Works, LanesOwned, WorldOk, Advances, Facts;
      ghost var start := Books();
      RefreshTerminalLocked(id);
      WorksAdvances(world, start, Books(), id);
      SameLane(world, start, Books(), id);
      if !workflows[id].Historical() { LiveOwns(Books(), id); }
    }

    /** Starts a workflow for a target, or answers with the one that has its lane. With a known key that may
        be one just found not to be done any more. */
    method Start(req: StartRequest) returns (r: Outcome)
      requires WorldOk(world) && RunsSane(world) && LanesOwned(Books())
      modifies `workflows, `journal, `written, `tick, `spawned, `byLane, `byIdem
      ensures Advances(world, old(Books()), Books()) && LanesOwned(Books())
      ensures (world.trim(req.cwd) == "" || world.trim(req.target) == ""
               || world.resolve(old(tick), req.cwd, req.target).None?) ==> r == Refused && Books() == old(Books())
      ensures r.Answered? ==>
                && world.resolve(old(tick), req.cwd, req.target).Some?
                && r.workflow.laneKey == LaneOf(world.resolve(old(tick), req.cwd, req.target).value)
                && r.workflow.id in workflows && workflows[r.workflow.id] == r.workflow
                && (r.deduped <==> r.workflow.id in old(workflows))
                && (r.deduped ==> spawned == old(spawned))
                && (!r.deduped ==> r.workflow.laneKey in byLane && byLane[r.workflow.laneKey] == r.workflow.id)
                && (!r.deduped && AllWritable(world) ==> Attended(r.workflow))
                && (!r.workflow.Historical() ==> r.workflow.laneKey in byLane && byLane[r.workflow.laneKey] == r.workflow.id)
      ensures r.Answered? && r.deduped ==>
                && r.workflow.id in old(workflows)
                && var w := old(workflows)[r.workflow.id];
                   && !w.Historical()
                   && (r.workflow.Historical() <==> w.status == Done && !Facts(world, old(tick) + 1, w))
                   && (r.workflow.Historical() ==>
                         req.idemKey != "" && req.idemKey in old(byIdem) && old(byIdem)[req.idemKey] == r.workflow.id)
    {
      hide Works, LanesOwned, WorldOk, RunsSane, Advances, Sound, Facts, LaneOf, AllWritable, Attended, LaneOpen;
      ghost var start := Books();
      AdvancesSelf(world, start);
      if world.trim(req.cwd) == "" || world.trim(req.target) == "" { return Refused; }
      var resolved := world.resolve(tick, req.cwd, req.target);
      tick := tick + 1;
      if resolved.None? { return Refused; }
      var info := resolved.value;
      var lane := LaneOf(info);
      if req.idemKey != "" && req.idemKey in byIdem && byIdem[req.idemKey] in workflows {
        var known := byIdem[req.idemKey];
        if workflows[known].laneKey == lane && !workflows[known].Historical() {
          Refreshed(known);
          return Answered(workflows[known], true);
        }
      }
      FiledLane(start, lane);
      if lane in byLane {
        var owner := byLane[lane];
        Refreshed(owner);
        if !workflows[owner].Historical() { return Answered(workflows[owner], true); }
      }
      ghost var mid := Books();
      OpenWhenOver(mid, lane);
      r := Enter(req, info, lane);
      AdvancesTrans(world, start, mid, Books());
    }

    /** The lane is open: a new workflow takes it. */
    method Enter(req: StartRequest, info: Target, lane: string) returns (r: Outcome)
      requires WorldOk(world) && RunsSane(world) && LanesOwned(Books()) && LaneOpen(Books(), lane) && lane == LaneOf(info)
      requires exists n :: world.resolve(n, req.cwd, req.target) == Some(info)
      requires world.trim(req.target) != ""
      modifies `workflows, `journal, `written, `tick, `spawned, `byLane, `byIdem
      ensures Advances(world, old(Books()), Books()) && LanesOwned(Books())
      ensures r.Answered? ==>
                && !r.deduped && r.workflow.laneKey == lane
                && r.workflow.id in workflows && workflows[r.workflow.id] == r.workflow
                && r.workflow.id !in old(workflows)
                && lane in byLane && byLane[lane] == r.workflow.id
                && (AllWritable(world) ==> Attended(r.workflow))
    {
      hide Works, LanesOwned, WorldOk, RunsSane, Advances, Sound, LaneOpen, LaneOf, Walkable, AllWritable, Attended;
      ghost var start := Books();
      var id, w, now := Draft(req, info, lane);
      var ok := Admit(id, w, lane, req.idemKey, now);
      if !ok { return Refused; }
      ghost var mid := Books();
      ok := AdvanceLocked(id, req.configDir, req.engine, "");
      WorksAdvances(world, mid, Books(), id);
      AdvancesTrans(world, start, mid, Books());
      SameLane(world, mid, Books(), id);
      if !ok { return Refused; }
      r := Answered(workflows[id], false);
    }

    /** The record a new workflow starts from, under a fresh id. */
    method Draft(req: StartRequest, info: Target, lane: string) returns (id: string, w: Workflow, now: int)
      requires WorldOk(world) && lane == LaneOf(info) && world.trim(req.target) != ""
      requires exists n :: world.resolve(n, req.cwd, req.target) == Some(info)
      modifies `tick
      ensures id !in workflows && id !in journal && w.id == id && w.laneKey == lane && w.status == Running
      ensures w.child == "" && w.phase == Resolve && w.history == Begin([], Resolve, now)
      ensures Sound(world, w) && Walkable(w)
    {
      hide WorldOk, Sound, NewWorkflow, LaneOf, Walkable;
      now := Clock();
      ghost var n :| world.resolve(n, req.cwd, req.target) == Some(info);
      var used := workflows.Keys + journal.Keys;
      id := world.newId(tick, used);
      var configDir := if req.configDir.Some? then req.configDir.value else "";
      w := NewWorkflow(id, lane, info, world.trim(req.target), R.ResolveEngine(req.engine), configDir, req.idemKey, now);
      LaneParts(info);
      NewIsSound(world, n, tick, req.cwd, req.target, used, R.ResolveEngine(req.engine), configDir, req.idemKey, now);
      NewFields(id, lane, info, world.trim(req.target), R.ResolveEngine(req.engine), configDir, req.idemKey, now);
      tick := tick + 1;
    }

    /** Files the new workflow; when its first write fails, it never was. */
    method Admit(id: string, w: Workflow, lane: string, idemKey: string, now: int) returns (ok: bool)
      requires LanesOwned(Books()) && LaneOpen(Books(), lane) && id !in workflows
      requires w.id == id && w.laneKey == lane && w.status == Running && w.child == "" && w.phase == Resolve
      requires w.history == Begin([], Resolve, now) && Sound(world, w) && Walkable(w)
      modifies `workflows, `journal, `written, `tick, `byLane, `byIdem
      ensures Advances(world, old(Books()), Books()) && LanesOwned(Books())
      ensures ok ==> id in workflows && workflows[id] == w && lane in byLane && byLane[lane] == id
    {
      hide Works, LanesOwned, Advances, Sound, LaneOpen, Writes, AllWritable;
      ghost var start := Books();
      byLane := byLane[lane := id];
      if idemKey != "" { byIdem := byIdem[idemKey := id]; }
      workflows := workflows[id := w];
      ok := Save(id, w);
      assert spawned == start.spawned;
      if !ok {
        workflows := workflows - {id};
        byLane := byLane - {lane};
        PutAndRemoved(start.workflows, id, w);
        PutAndRemoved(start.byLane, lane, id);
        LeaveAdvances(world, start, Books(), lane);
        StillOwned(world, start, Books());
        return;
      }
      assert workflows == start.workflows[id := w];
      EnterAdvances(world, start, Books(), w, now);
      StillOwned(world, start, Books());
    }

    /** One loaded record. Live, resumable or successful identities that collide are refused, rather than
        trusting whichever was read last. The source's branch for a done owner and a failed or stopped
        record repeats the one before it. */
    method LoadOne(w: Workflow)
      requires LanesOwned(Books()) && w.id !in workflows && Walkable(w)
      modifies `workflows, `journal, `written, `tick, `byLane, `byIdem
      ensures LanesOwned(Books()) && LoadsOne(world, old(Books()), Books(), w)
      ensures workflows.Keys == old(workflows).Keys + {w.id}
      ensures SafeToLoad(world, old(Books()), w) ==> StaysSafe(world, Books())
    {
      hide LanesOwned, LoadsOne, Refuses, SafeJournal;
      ghost var start := Books();
      if w.laneKey in byLane && byLane[w.laneKey] in workflows {
        var previous := workflows[byLane[w.laneKey]];
        OwnerFiled(start, w.laneKey);
        if previous.Historical() && !w.Historical() {
          workflows, byLane := workflows[w.id := w], byLane[w.laneKey := w.id];
          if w.idemKey != "" { byIdem := byIdem[w.idemKey := w.id]; }
          Accepted(world, start, Books(), w);
          return;
        }
        if !previous.Historical() && w.Historical() {
          workflows := workflows[w.id := w];
          if w.idemKey != "" { byIdem := byIdem[w.idemKey := w.id]; }
          Accepted(world, start, Books(), w);
          return;
        }
        RefuseBoth(previous, w);
        return;
      }
      workflows, byLane := workflows[w.id := w], byLane[w.laneKey := w.id];
      if w.idemKey != "" { byIdem := byIdem[w.idemKey := w.id]; }
      Accepted(world, start, Books(), w);
    }

    method RefuseBoth(previous: Workflow, w: Workflow)
      requires LanesOwned(Books()) && w.id !in workflows && Walkable(w)
      requires Owned(Books(), w.laneKey) && previous == OwnerOf(Books(), w.laneKey) && previous.id in workflows
      requires previous.Historical() == w.Historical()
      modifies `workflows, `journal, `written, `tick
      ensures LanesOwned(Books()) && LoadsOne(world, old(Books()), Books(), w)
      ensures workflows.Keys == old(workflows).Keys + {w.id}
      ensures SafeToLoad(world, old(Books()), w) ==> StaysSafe(world, Books())
    {
      hide LanesOwned, Writes, Duplicate, LoadsOne, Refuses, SafeToLoad, StaysSafe, AllWritable;
      ghost var start := Books();
      ghost var x := previous;
      OwnerFiled(start, w.laneKey);
      assert workflows[previous.id := x] == workflows;
      if previous.status == Done && w.status != Done {
        var early := Clock();
        var _ := Save(previous.id, Duplicate(previous, early));
        x := Duplicate(previous, early);
      }
      ghost var mid := Books();
      ghost var at, at' := WriteBoth(previous, w);
      RefusedBoth(world, start, mid, Books(), x, w, at, at');
      if SafeToLoad(world, start, w) {
        CollidesHistorical(world, start, w);
        RefusalsStaySafe(world, start, Books(), previous, w, at, at');
      }
      LoadKeepsLanes(world, start, Books(), w);
    }

    /** The lane's owner and w, one write after the other. */
    method WriteBoth(owner: Workflow, w: Workflow) returns (ghost at: int, ghost at': int)
      requires owner.id in workflows
      modifies `workflows, `journal, `written, `tick
      ensures workflows == old(workflows)[owner.id := Duplicate(owner, at)][w.id := Duplicate(w, at')]
      ensures workflows.Keys == old(workflows).Keys + {w.id}
      ensures AllWritable(world) ==>
                var first := old(journal)[owner.id := Duplicate(owner, at)];
                journal == first[w.id := Duplicate(w, at')] && written == old(written) + [first] + [journal]
    {
      hide Writes, Duplicate, AllWritable;
      var now := Clock();
      at := now;
      var _ := Save(owner.id, Duplicate(owner, now));
      ghost var mid := workflows;
      var now' := Clock();
      at' := now';
      workflows := workflows[w.id := Duplicate(w, now')];
      var _ := Save(w.id, Duplicate(w, now'));
      Overwrite(mid, w.id, Duplicate(w, at'), Duplicate(w, at'));
    }

    /** The journal's records, in whatever order the directory lists them. */
    method LoadRecords(recs: seq<Workflow>)
      requires DistinctIds(recs)
      modifies `workflows, `journal, `written, `tick, `byLane, `byIdem
      ensures LanesOwned(Books()) && spawned == old(spawned)
      ensures OddOnesOwn(world, recs, Books())
      ensures Recoverable(world, recs) ==> Restored(recs, Books())
      ensures Recoverable(world, recs) && Lists(old(journal), recs) && old(spawned) == [] && old(written) == [] ==>
                Good(world, Books())
    {
      hide LanesOwned, LoadsOne, Loaded, Synced, Recoverable, DistinctIds, ValidWorkflow, Restored, Good, Walkable, Lists,
        SafeToLoad, StaysSafe, OddOnesOwn;
      workflows, byLane, byIdem := map[], map[], map[];
      ghost var start := Books();
      NothingLoaded(recs, start);
      NothingOwns(world, start);
      ghost var own := Recoverable(world, recs) && AllWritable(world) && Lists(start.journal, recs) && start.written == [];
      if own { StartsSafe(world, recs, start); }
      for i := 0 to |recs|
        invariant LanesOwned(Books()) && spawned == start.spawned && OddOnesOwn(world, recs[..i], Books())
        invariant forall id | id in workflows :: Among(recs, i, id)
        invariant Recoverable(world, recs) ==> Loaded(recs, i, Books())
        invariant own ==> Synced(recs, i, Books()) && StaysSafe(world, Books())
      {
        var w := recs[i];
        ghost var before := Books();
        NotAmong(recs, i);
        if ValidWorkflow(world, w) {
          ValidWalkable(world, w);
          if own { RecoverableLoadsSafely(world, recs, i, before); }
          LoadOne(w);
          if Recoverable(world, recs) { LoadKeepsRecords(world, recs, i, before, Books()); }
          if own { LoadKeepsSynced(world, recs, i, before, Books()); }
        } else {
          RecoverableValid(world, recs, i);
        }
        LoadKeepsOdd(world, recs[..i], w, before, Books());
        assert recs[..i + 1] == recs[..i] + [w];
        forall id | id in workflows ensures Among(recs, i + 1, id) { AmongMore(recs, i, id); }
      }
      assert recs[..|recs|] == recs;
      if Recoverable(world, recs) {
        LoadedRestores(recs, Books());
        if Lists(start.journal, recs) && spawned == [] && start.written == [] { LoadedIsGood(world, recs, Books(), own); }
      }
    }

    /** A crash after the i-th write of any run, and the reload that follows in a new process. */
    method Recover(recs: seq<Workflow>, ghost before: Book, ghost i: nat)
      requires Good(world, before) && AllWritable(world) && i < |before.written|
      requires journal == before.written[i] && Lists(journal, recs) && spawned == [] && written == []
      modifies `workflows, `journal, `written, `tick, `byLane, `byIdem
      ensures LanesOwned(Books()) && Good(world, Books())
      ensures forall id, w | id in before.written[i] && w == before.written[i][id] ::
                && ValidWorkflow(world, w)
                && (!w.Historical() ==>
                      id in workflows && workflows[id] == w && w.laneKey in byLane && byLane[w.laneKey] == id)
    {
      hide LanesOwned, Good, AllWritable, Lists, ValidWorkflow, Recoverable, Restored, OddOnesOwn, DistinctIds;
      CrashRecoverable(world, before, i, recs);
      LoadRecords(recs);
      forall id | id in before.written[i]
        ensures ValidWorkflow(world, before.written[i][id])
        ensures !before.written[i][id].Historical() ==>
                  && id in workflows && workflows[id] == before.written[i][id]
                  && before.written[i][id].laneKey in byLane && byLane[before.written[i][id].laneKey] == id
      {
        EveryCrashRecovers(world, before, i, recs, Books(), id);
      }
    }

    /** Boot: reload, check what is done again, pump what runs. `loaded` is the book after the reload, and
        the check reads the facts between the ticks `from` and `to`. */
    method Rehydrate(recs: seq<Workflow>) returns (ghost loaded: Book, ghost from: nat, ghost to: nat)
      requires WorldOk(world) && RunsSane(world) && DistinctIds(recs)
      modifies `workflows, `journal, `written, `tick, `byLane, `byIdem, `spawned
      ensures LanesOwned(loaded) && Advances(world, loaded, Books()) && LanesOwned(Books())
      ensures OddOnesOwn(world, recs, loaded) && (Recoverable(world, recs) ==> Restored(recs, loaded))
      ensures Recoverable(world, recs) && Lists(old(journal), recs) && old(spawned) == [] && old(written) == [] ==>
                Good(world, Books())
      ensures workflows.Keys == loaded.workflows.Keys
      ensures forall id | id in loaded.workflows && loaded.workflows[id].status != Running ::
                Rechecked(world, loaded.workflows[id], workflows[id], from, to)
      ensures AllWritable(world) ==> forall id | id in workflows :: Attended(workflows[id])
    {
      hide LanesOwned, Recoverable, DistinctIds, Restored, Good, Lists, WorldOk, RunsSane, Onward, Works, OddOnesOwn, Facts,
        AllWritable;
      LoadRecords(recs);
      loaded := Books();
      from := tick;
      RecheckDone();
      ghost var mid := Books();
      to := tick;
      Sweep();
      AdvancesTrans(world, loaded, mid, Books());
    }

    /** A record that says done is not trusted: its facts are checked again. */
    method RecheckDone()
      requires WorldOk(world) && LanesOwned(Books())
      modifies `workflows, `journal, `written, `tick
      ensures Advances(world, old(Books()), Books()) && LanesOwned(Books()) && workflows.Keys == old(workflows).Keys
      ensures forall id | id in old(workflows) :: Rechecked(world, old(workflows)[id], workflows[id], old(tick), tick)
    {
      hide Works, LanesOwned, WorldOk, Advances, Facts;
      ghost var start, from := Books(), tick;
      AdvancesSelf(world, start);
      var rest := workflows.Keys;
      while rest != {}
        invariant rest <= workflows.Keys && workflows.Keys == start.workflows.Keys && from <= tick
        invariant Advances(world, start, Books()) && LanesOwned(Books())
        invariant forall id <- rest :: workflows[id] == start.workflows[id]
        invariant forall id | id in start.workflows && id !in rest ::
                    Rechecked(world, start.workflows[id], workflows[id], from, tick)
        decreases rest
      {
        var id :| id in rest;
        rest := rest - {id};
        ghost var mid := Books();
        RefreshTerminalLocked(id);
        WorksAdvances(world, mid, Books(), id);
        AdvancesTrans(world, start, mid, Books());
      }
    }

    /** Stops a running workflow and its child. */
    method Stop(id: string) returns (ok: bool)
      requires LanesOwned(Books())
      modifies `workflows, `journal, `written, `tick, `stopped
      ensures Advances(world, old(Books()), Books()) && LanesOwned(Books())
      ensures ok <==> id in old(workflows) && !Terminal(old(workflows)[id].status)
      ensures ok ==>
                && workflows == old(workflows)[id := StoppedBy(old(workflows)[id])]
                && stopped == old(stopped) + (if old(workflows)[id].child != "" then [old(workflows)[id].child] else [])
      ensures !ok ==> Books() == old(Books()) && stopped == old(stopped)
      ensures byLane == old(byLane) && byIdem == old(byIdem) && spawned == old(spawned)
    {
      hide LanesOwned, Onward, Advances;
      ghost var start := Books();
      AdvancesSelf(world, start);
      if id !in workflows || Terminal(workflows[id].status) { return false; }
      var w := workflows[id];
      var child := w.child;
      var _ := Save(id, StoppedBy(w));
      StoppedOnward(world, w);
      WriteAdvances(world, start, Books(), id, StoppedBy(w));
      StillOwned(world, start, Books());
      assert spawned == start.spawned + [];
      if child != "" { stopped := stopped + [child]; }
      ok := true;
    }

    /** Any run: public calls one after the other, as the mutex orders them. */
    method Serve(calls: seq<Call>)
      requires WorldOk(world) && RunsSane(world) && LanesOwned(Books())
      modifies this
      ensures Advances(world, old(Books()), Books()) && LanesOwned(Books())
    {
      hide LanesOwned, WorldOk, RunsSane, Advances;
      ghost var start := Books();
      AdvancesSelf(world, start);
      for i := 0 to |calls|
        invariant Advances(world, start, Books()) && LanesOwned(Books())
      {
        ghost var mid := Books();
        match calls[i] {
          case DoStart(req) => var _ := Start(req);
          case DoContinue(id, option) => var _ := Continue(id, option);
          case DoStop(id) => var _ := Stop(id);
          case DoSweep => Sweep();
        }
        AdvancesTrans(world, start, mid, Books());
      }
    }
  }

  lemma SpawnedHasId(world: World, n: nat, r: SpawnRequest)
    requires WorldOk(world)
    ensures world.spawn(n, r).Some? ==> world.spawn(n, r).value.id != ""
  {}

  lemma FailingAll(w: Workflow, reason: Reason, at: int)
    ensures forall p :: RecordsOf(Failing(w, reason, at).history, p) == RecordsOf(w.history, p)
    ensures Failing(w, reason, at).status == Failed
  {
    hide Failing, RecordsOf;
    forall p ensures RecordsOf(Failing(w, reason, at).history, p) == RecordsOf(w.history, p) {
      FailingRecords(w, reason, at, p);
    }
    FailingFails(w, reason, at);
  }

  lemma FailingFails(w: Workflow, reason: Reason, at: int)
    ensures Failing(w, reason, at).status == Failed
  {}

  lemma LeftPositive(w: Workflow)
    requires w.status == Running
    ensures Left(w) > 0
  {}

  lemma FiledWalkable(b: Book, id: string)
    requires LanesOwned(b) && id in b.workflows
    ensures Walkable(b.workflows[id]) && b.workflows[id].id == id
  {}

  lemma WorksOn(world: World, a: Book, b: Book, c: Book, id: string)
    requires Works(world, a, b, id) && Works(world, b, c, id) && LanesOwned(b)
    ensures Works(world, a, c, id) && LanesOwned(c) && id in c.workflows
  {
    hide LanesOwned, Good, Onward;
    WorksTrans(world, a, b, c, id);
  }

  lemma WorksAdvances(world: World, a: Book, b: Book, id: string)
    requires Works(world, a, b, id)
    ensures Advances(world, a, b) && b.workflows.Keys == a.workflows.Keys && b.byLane == a.byLane && b.byIdem == a.byIdem
    ensures forall x | x in a.workflows && x != id :: b.workflows[x] == a.workflows[x]
  {
    hide Advances;
  }

  lemma Accepted(world: World, a: Book, b: Book, w: Workflow)
    requires LanesOwned(a) && Accepts(a, b, w) && w.id !in a.workflows && Walkable(w)
    ensures LoadsOne(world, a, b, w) && LanesOwned(b)
  {
    hide Accepts, LanesOwned;
    LoadKeepsLanes(world, a, b, w);
  }

  /** a; mid, with the owner written once; b, with the owner written again and w. */
  lemma RefusedBoth(world: World, a: Book, mid: Book, b: Book, x: Workflow, w: Workflow, at: int, at': int)
    requires LanesOwned(a) && Owned(a, w.laneKey) && OwnerOf(a, w.laneKey).Historical() == w.Historical()
    requires var owner := OwnerOf(a, w.laneKey);
             && mid.workflows == a.workflows[owner.id := x]
             && (mid.journal == a.journal || mid.journal == a.journal[owner.id := x])
             && b.workflows == mid.workflows[owner.id := Duplicate(owner, at)][w.id := Duplicate(w, at')]
             && (AllWritable(world) ==>
                   b.journal == mid.journal[owner.id := Duplicate(owner, at)][w.id := Duplicate(w, at')])
             && b.byLane == a.byLane && b.spawned == a.spawned
    ensures LoadsOne(world, a, b, w)
  {
    hide LanesOwned, Duplicate, AllWritable;
    var owner := OwnerOf(a, w.laneKey);
    Overwrite(a.workflows, owner.id, x, Duplicate(owner, at));
    Overwrite(a.journal, owner.id, x, Duplicate(owner, at));
    assert Refuses(world, a, b, w, at, at');
  }

  lemma Overwrite<V>(m: map<string, V>, k: string, x: V, y: V)
    ensures m[k := x][k := y] == m[k := y]
  {}

  lemma CollidesHistorical(world: World, b: Book, w: Workflow)
    requires SafeToLoad(world, b, w) && Owned(b, w.laneKey) && OwnerOf(b, w.laneKey).Historical() == w.Historical()
    ensures w.Historical() && AllWritable(world)
  {
    hide SafeJournal, AllWritable, AlwaysSafe;
  }

  lemma NothingLoaded(recs: seq<Workflow>, b: Book)
    requires b.workflows == map[] && b.byLane == map[]
    ensures LanesOwned(b) && Loaded(recs, 0, b) && (Lists(b.journal, recs) ==> Synced(recs, 0, b))
  {
    if Lists(b.journal, recs) {
      forall id | id in b.journal ensures Among(recs, |recs|, id) {
        var i :| 0 <= i < |recs| && recs[i].id == id;
      }
    }
  }

  lemma StartsSafe(world: World, recs: seq<Workflow>, b: Book)
    requires Recoverable(world, recs) && Lists(b.journal, recs) && b.written == []
    ensures StaysSafe(world, b)
  {
    hide Recoverable, Lists, SafeJournal;
    ListedIsSafe(world, recs, b.journal);
  }

  lemma LoadedIsGood(world: World, recs: seq<Workflow>, b: Book, own: bool)
    requires Recoverable(world, recs) && Loaded(recs, |recs|, b) && b.spawned == []
    requires AllWritable(world) ==> own
    requires own ==> Synced(recs, |recs|, b) && StaysSafe(world, b)
    ensures Good(world, b)
  {
    hide Recoverable, Loaded, Synced, Good, AllWritable;
    LoadedGood(world, recs, b);
  }

  lemma ValidWalkable(world: World, w: Workflow)
    requires ValidWorkflow(world, w)
    ensures Walkable(w)
  {
    hide ValidId, OnLane;
  }

  lemma RecoverableValid(world: World, recs: seq<Workflow>, i: nat)
    requires i < |recs| && !ValidWorkflow(world, recs[i])
    ensures !Recoverable(world, recs)
  {
    hide ValidWorkflow, Sound;
    if Recoverable(world, recs) { SoundIsValid(world, recs[i]); }
  }

  lemma PutAndRemoved<V>(m: map<string, V>, k: string, v: V)
    ensures m[k := v] - {k} == m - {k} && (k !in m ==> m - {k} == m)
  {}

  lemma LaneParts(info: Target)
    ensures LaneOf(info) == info.cwd + "::" + info.identity
  {}

  lemma NewFields(id: string, lane: string, info: Target, target: string, engine: string, configDir: string,
                  idemKey: string, now: int)
    ensures var w := NewWorkflow(id, lane, info, target, engine, configDir, idemKey, now);
            && w.id == id && w.laneKey == lane && w.status == Running && w.child == "" && w.phase == Resolve
            && w.history == Begin([], Resolve, now)
  {}

  lemma SameLane(world: World, a: Book, b: Book, id: string)
    requires Works(world, a, b, id) && LanesOwned(a)
    ensures id in b.workflows && b.workflows[id].laneKey == a.workflows[id].laneKey && b.workflows[id].id == id
  {
    hide Good, Sound, Funded, Proven;
  }

  /** Whoever a lane names is filed, on that lane. */
  lemma FiledLane(b: Book, lane: string)
    requires LanesOwned(b)
    ensures lane in b.byLane ==> b.byLane[lane] in b.workflows && b.workflows[b.byLane[lane]].laneKey == lane
  {}

  lemma OpenWhenOver(b: Book, lane: string)
    requires lane in b.byLane && b.byLane[lane] in b.workflows ==> b.workflows[b.byLane[lane]].Historical()
    ensures LaneOpen(b, lane)
  {}

  lemma LiveOwns(b: Book, id: string)
    requires LanesOwned(b) && id in b.workflows && !b.workflows[id].Historical()
    ensures b.workflows[id].laneKey in b.byLane && b.byLane[b.workflows[id].laneKey] == id
  {}

  lemma StillOwned(world: World, a: Book, b: Book)
    requires Advances(world, a, b) && LanesOwned(a)
    ensures LanesOwned(b)
  {
    hide LanesOwned, Good, Onward;
  }

  lemma WorksOwned(world: World, a: Book, b: Book, id: string)
    requires Works(world, a, b, id) && LanesOwned(a)
    ensures LanesOwned(b)
  {
    hide LanesOwned, Good, Onward;
  }

  lemma ChildNotAtResolve(world: World, w: Workflow)
    requires w.child != ""
    ensures Sound(world, w) ==> w.phase != Resolve
  {
    hide Ordered, ValidId, OnLane, Order;
  }

  lemma SuccessorIsLater(r: R.Run, pred: R.Run, laneKey: string)
    requires LaterTurn(r, pred, laneKey)
    ensures r.resumeCount > pred.resumeCount
  {}

  lemma SaneAt(world: World, n: nat)
    requires RunsSane(world)
    ensures SaneRuns(world, world.runs(n))
  {
    hide SaneRuns;
  }

  lemma BuildFollowsLock(track: Track)
    requires track != Plan
    ensures NextOf(track, Lock) == Some(Build) && Order(track, Lock) == 3 && Order(track, Build) == 4
  {}

  lemma ClockPositive(world: World, n: nat)
    requires WorldOk(world)
    ensures world.now(n) > 0
  {}

  lemma NothingFollowsVerify(track: Track)
    ensures NextOf(track, Verify) == None
  {}

  lemma FirstIsFirst(world: World, w: Workflow, info: Target, next: Phase)
    requires WorldOk(world) && info.track == world.trackOf(world.root(w.cwd), world.trim(w.target))
    requires FirstOf(info.track, next)
    ensures Sound(world, w) ==> FirstOf(w.track, next)
  {
    hide Ordered, ValidId, OnLane, Order;
  }
}
