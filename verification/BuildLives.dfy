/** What one step of the build engine does to a run that was started: to its record, to the resume armed
    on it, to the decision on it, and to the firings for it. */
module BuildLives {
  import opened Runs
  import opened ResumePlan
  import opened MemStore
  import opened BuildEngine
  import opened BuildInvariant
  import opened BuildFrames
  import opened BuildSteps
  import opened BuildSpawn

  /** b is a, later: once ended it stays ended with the same exit code; a stop request, a push and the
      place in the chain stay. */
  predicate Later(a: Run, b: Run) {
    && b.id == a.id && SpecOf(b) == SpecOf(a) && b.resumeCount == a.resumeCount && b.firstStartedAt == a.firstStartedAt
    && (!a.IsRunning() ==> b.status == a.status && b.exitCode == a.exitCode)
    && (a.stopRequested ==> b.stopRequested)
    && (a.pushedAt.Some? ==> b.pushedAt == a.pushedAt)
  }

  /** The record of a started run lives on, and its decision stands. */
  ghost predicate LivesOn(s: State, s': State, id: string) {
    && id in s.runs && id in s'.runs && Later(s.runs[id], s'.runs[id]) && id in s'.launched
    && (id in s.verdicts ==> id in s'.verdicts && s'.verdicts[id] == s.verdicts[id])
  }

  /** A resume armed on id stays, goes to the one firing that clears it, or is cancelled by a Stop. */
  ghost predicate SpentOnce(s: State, s': State, t: nat, id: string)
    requires t < |s.threads| && id in s.runs && id in s'.runs
  {
    var p, p' := s.runs[id].pendingResume, s'.runs[id].pendingResume;
    p.Some? ==>
      || p' == p
      || (p'.None? && s.threads[t].Clear? && s.threads[t].id == id
          && s'.threads == s.threads[t := ReadPred(id, p.value, s.threads[t].rest)])
      || (p'.None? && (s.threads[t].StopFlag? || s.threads[t].StopCancel?) && s.threads[t].id == id
          && s'.runs[id].stopRequested)
  }

  predicate AtReserve(th: Thread, pred: string) {
    th.Reserve? && th.caller.ByFiring? && th.caller.pred == pred
  }

  predicate AtStart(th: Thread, pred: string) {
    th.Start? && th.caller.ByFiring? && th.caller.pred == pred
  }

  /** Only t moves; new threads are about to reserve or start nothing. */
  ghost predicate OnlyMoves(s: State, s': State, t: nat) {
    && |s.threads| <= |s'.threads|
    && (forall i | 0 <= i < |s.threads| && i != t :: s'.threads[i] == s.threads[i])
    && (forall i | |s.threads| <= i < |s'.threads| :: !s'.threads[i].Reserve? && !s'.threads[i].Start?)
  }

  /** Once a Stop was requested on id no decision arms a resume for it, and no firing that reads it
      afterwards reserves: a reservation counts only a firing already past that read. */
  ghost predicate StopHeeded(s: State, s': State, t: nat, id: string)
    requires t < |s.threads| <= |s'.threads| && id in s.runs
  {
    s.runs[id].stopRequested ==>
      && (AtReserve(s'.threads[t], id) ==> AtReserve(s.threads[t], id))
      && (AtStart(s'.threads[t], id) ==> AtReserve(s.threads[t], id) || AtStart(s.threads[t], id))
      && (Count(s'.attempts, id) == Count(s.attempts, id)
          || (AtReserve(s.threads[t], id) && !AtReserve(s'.threads[t], id)
              && Count(s'.attempts, id) == Count(s.attempts, id) + 1))
      && (id in s'.verdicts && s'.verdicts[id].Armed? ==> id in s.verdicts)
  }

  ghost predicate LaunchFrame(s: State, s': State, t: nat)
    requires t < |s.threads|
  {
    s'.launched == s.launched || (s.threads[t].Start? && s'.launched == s.launched + {s.threads[t].run.id})
  }

  ghost predicate BirthsStay(s: State, s': State) {
    forall x | x in s.births :: x in s'.births && s'.births[x] == s.births[x]
  }

  /** What one step does to a started run. */
  ghost predicate StepFrame(s: State, s': State, t: nat, id: string)
    requires t < |s.threads|
  {
    && LivesOn(s, s', id) && SpentOnce(s, s', t, id) && OnlyMoves(s, s', t) && StopHeeded(s, s', t, id)
    && LaunchFrame(s, s', t) && BirthsStay(s, s') && (s.threads[t].Start? ==> s'.births == s.births)
  }

  /** A step that reserves and starts nothing. */
  ghost predicate NoFiring(s: State, s': State, t: nat)
    requires t < |s.threads|
  {
    && OnlyMoves(s, s', t) && s'.attempts == s.attempts && s'.launched == s.launched && BirthsStay(s, s')
    && (s.threads[t].Start? ==> s'.births == s.births)
    && (s'.threads[t] == s.threads[t]
        || (!s'.threads[t].Start? && !(s'.threads[t].Reserve? && s'.threads[t].caller.ByFiring?)))
  }

  /** A step that leaves the store and the decisions alone. */
  lemma StoreSame(s: State, s': State, t: nat, id: string)
    requires t < |s.threads| && id in s.runs && id in s.launched && NoFiring(s, s', t)
    requires s'.runs == s.runs && s'.verdicts == s.verdicts
    ensures StepFrame(s, s', t, id)
  {
    hide Count;
  }

  /** A step that changes one record but not its resume. */
  lemma RecordLives(s: State, s': State, t: nat, x: string, id: string)
    requires t < |s.threads| && id in s.runs && id in s.launched && x in s.runs && x in s'.runs && NoFiring(s, s', t)
    requires s'.runs == s.runs[x := s'.runs[x]] && s'.verdicts == s.verdicts
    requires Later(s.runs[x], s'.runs[x]) && s'.runs[x].pendingResume == s.runs[x].pendingResume
    ensures StepFrame(s, s', t, id)
  {
    hide Count;
  }

  lemma GotoLives(s: State, t: nat, th: Thread, id: string)
    requires t < |s.threads| && id in s.runs && id in s.launched
    requires !th.Start? && !(th.Reserve? && th.caller.ByFiring?)
    ensures StepFrame(s, Goto(s, t, th), t, id)
  {
    hide StepFrame;
    StoreSame(s, Goto(s, t, th), t, id);
  }

  lemma QuietStart(rest: seq<string>)
    ensures !Next(rest).Start? && !Next(rest).Reserve?
  {}

  lemma QuietFollow(caller: Caller, error: SpawnError, id: string)
    ensures !AfterReserve(caller, id).Start? && !AfterReserve(caller, id).Reserve?
    ensures !AfterFailure(caller, error).Start? && !AfterFailure(caller, error).Reserve?
  {}

  lemma SelfGoto(s: State, t: nat)
    requires t < |s.threads|
    ensures Goto(s, t, s.threads[t]) == s
  {}

  lemma ReserveLives(s: State, t: nat, run: Run, caller: Caller, o: Oracle, id: string)
    requires t < |s.threads| && s.threads[t] == Reserve(run, caller)
    requires id in s.runs && id in s.launched && run.id !in s.launched
    ensures StepFrame(s, ReserveStep(s, t, run, caller, o), t, id)
  {
    hide LivesOn, SpentOnce, OnlyMoves, StopHeeded, LaunchFrame, ReserveStep;
    ReserveStore(s, t, run, caller, o, id);
    ReserveFiring(s, t, run, caller, o, id);
  }

  lemma ReserveStore(s: State, t: nat, run: Run, caller: Caller, o: Oracle, id: string)
    requires t < |s.threads| && s.threads[t] == Reserve(run, caller)
    requires id in s.runs && id in s.launched && run.id !in s.launched
    ensures LivesOn(s, ReserveStep(s, t, run, caller, o), id) && SpentOnce(s, ReserveStep(s, t, run, caller, o), t, id)
  {
    hide SameSetup, LaneFree, HolderChosen, LaneKeyOf, AfterReserve, AfterFailure;
    QuietFollow(caller, OtherFailure, o.existing);
    if !o.writable {
    } else if LaneFree(s.runs, "build", LaneKeyOf(run.meta)) {
    } else if HolderChosen(s, run, o) {
    } else {
    }
  }

  lemma ReserveFiring(s: State, t: nat, run: Run, caller: Caller, o: Oracle, id: string)
    requires t < |s.threads| && s.threads[t] == Reserve(run, caller)
    requires id in s.runs && id in s.launched && run.id !in s.launched
    ensures var s' := ReserveStep(s, t, run, caller, o);
            && OnlyMoves(s, s', t) && StopHeeded(s, s', t, id) && LaunchFrame(s, s', t) && s'.births == s.births
  {
    hide ReserveStep, Count, Counted;
    var s' := ReserveStep(s, t, run, caller, o);
    ReserveShapes(s, t, run, caller, o);
    CountedOne(s, caller, id);
  }

  lemma ReserveShapes(s: State, t: nat, run: Run, caller: Caller, o: Oracle)
    requires t < |s.threads|
    ensures var s' := ReserveStep(s, t, run, caller, o);
            || s' == s
            || (|s'.threads| == |s.threads| && s'.threads == s.threads[t := s'.threads[t]]
                && s'.attempts == Counted(s, caller) && s'.launched == s.launched && s'.verdicts == s.verdicts
                && s'.births == s.births
                && (s'.threads[t] == Start(run, caller) || (!s'.threads[t].Start? && !s'.threads[t].Reserve?)))
  {
    hide SameSetup, LaneFree, HolderChosen, LaneKeyOf, AfterReserve, AfterFailure, Counted;
    QuietFollow(caller, OtherFailure, o.existing);
    if !o.writable {
    } else if LaneFree(s.runs, "build", LaneKeyOf(run.meta)) {
    } else if HolderChosen(s, run, o) {
    } else {
    }
  }

  lemma CountedOne(s: State, caller: Caller, id: string)
    ensures Count(Counted(s, caller), id)
            == Count(s.attempts, id) + if caller.ByFiring? && caller.pred == id then 1 else 0
  {}

  lemma RegisterLives(s: State, t: nat, run: Run, pid: int, caller: Caller, o: Oracle, id: string)
    requires t < |s.threads| && id in s.runs && id in s.launched
    ensures StepFrame(s, RegisterStep(s, t, run, pid, caller, o), t, id)
  {
    hide SameSetup, AfterReserve, StepFrame;
    QuietFollow(caller, OtherFailure, run.id);
    if run.id in s.runs {
      RecordLives(s, RegisterStep(s, t, run, pid, caller, o), t, run.id, id);
    } else {
      StoreSame(s, RegisterStep(s, t, run, pid, caller, o), t, id);
    }
  }

  lemma UndoLives(s: State, t: nat, run: Run, caller: Caller, error: SpawnError, id: string)
    requires t < |s.threads| && id in s.runs && id in s.launched && run.id !in s.launched
    ensures StepFrame(s, UndoStep(s, t, run, caller, error), t, id)
  {
    hide AfterFailure, Count;
    QuietFollow(caller, error, run.id);
  }

  lemma BeginLives(s: State, t: nat, x: string, exit: ExitNote, id: string)
    requires t < |s.threads| && id in s.runs && id in s.launched
    ensures StepFrame(s, BeginStep(s, t, x, exit), t, id)
  {
    hide StepFrame;
    if x in s.runs && s.runs[x].IsRunning() {
      RecordLives(s, BeginStep(s, t, x, exit), t, x, id);
    } else {
      GotoLives(s, t, Finished, id);
    }
  }

  lemma FinalizeLives(s: State, t: nat, x: string, exit: ExitNote, id: string)
    requires t < |s.threads| && id in s.runs && id in s.launched
    ensures StepFrame(s, FinalizeStep(s, t, x, exit), t, id)
  {
    hide StepFrame;
    if x in s.runs && s.runs[x].IsRunning() {
      RecordLives(s, FinalizeStep(s, t, x, exit), t, x, id);
    } else {
      GotoLives(s, t, EndFinalizing(x), id);
    }
  }

  lemma DecideLives(s: State, t: nat, run: Run, cause: RedriveCause, o: Oracle, id: string)
    requires t < |s.threads| && o.freshId !in s.births && !s.threads[t].Start?
    requires id in s.runs && id in s.launched && run.id !in s.verdicts
    ensures StepFrame(s, DecideStep(s, t, run, cause, o), t, id)
  {
    hide SameSetup, PlanResume, PushIfComplete;
    PushLives(s, run, o, id);
  }

  lemma PushLives(s: State, run: Run, o: Oracle, id: string)
    requires id in s.runs
    ensures var s' := PushIfComplete(s, run, o);
            && id in s'.runs && Later(s.runs[id], s'.runs[id]) && s'.runs[id].pendingResume == s.runs[id].pendingResume
            && s' == s.(runs := s'.runs, pushes := s'.pushes)
  {
    hide WantsPush;
  }

  lemma ArmLives(s: State, t: nat, x: string, succ: string, r: Resume, o: Oracle, id: string)
    requires t < |s.threads| && id in s.runs && id in s.launched
    requires x !in s.verdicts && x in s.runs && s.runs[x].pendingResume.None?
    ensures StepFrame(s, ArmStep(s, t, x, succ, r, o), t, id)
  {
    hide SameSetup, Pending;
  }

  lemma EndLives(s: State, t: nat, x: string, id: string)
    requires t < |s.threads| && id in s.runs && id in s.launched
    ensures StepFrame(s, EndStep(s, t, x), t, id)
  {
    hide SameSetup, StepFrame;
    if x in s.runs {
      RecordLives(s, EndStep(s, t, x), t, x, id);
    } else {
      GotoLives(s, t, Finished, id);
    }
  }

  lemma ClearLives(s: State, t: nat, x: string, rest: seq<string>, id: string)
    requires t < |s.threads| && s.threads[t] == Clear(x, rest) && id in s.runs && id in s.launched
    ensures StepFrame(s, ClearStep(s, t, x, rest), t, id)
  {
    hide LivesOn, SpentOnce, OnlyMoves, StopHeeded, LaunchFrame, ClearStep;
    ClearStore(s, t, x, rest, id);
    ClearFiring(s, t, x, rest, id);
  }

  lemma ClearStore(s: State, t: nat, x: string, rest: seq<string>, id: string)
    requires t < |s.threads| && s.threads[t] == Clear(x, rest) && id in s.runs && id in s.launched
    ensures LivesOn(s, ClearStep(s, t, x, rest), id) && SpentOnce(s, ClearStep(s, t, x, rest), t, id)
  {
    hide SameSetup, Next, Count;
    QuietStart(rest);
  }

  lemma ClearFiring(s: State, t: nat, x: string, rest: seq<string>, id: string)
    requires t < |s.threads| && s.threads[t] == Clear(x, rest) && id in s.runs && id in s.launched
    ensures var s' := ClearStep(s, t, x, rest);
            && OnlyMoves(s, s', t) && StopHeeded(s, s', t, id) && LaunchFrame(s, s', t) && s'.births == s.births
  {
    hide SameSetup, Next, Count;
    QuietStart(rest);
  }

  lemma RearmLives(s: State, t: nat, pred: string, p: PendingResume, rest: seq<string>, o: Oracle, id: string)
    requires t < |s.threads| && id in s.runs && id in s.launched
    requires pred in s.runs ==> s.runs[pred].pendingResume.None?
    ensures StepFrame(s, RearmStep(s, t, pred, p, rest, o), t, id)
  {
    hide Next, Count;
    QuietStart(rest);
  }

  lemma WatchLives(s: State, t: nat, x: string, o: Oracle, id: string)
    requires t < |s.threads| && id in s.runs && id in s.launched
    ensures StepFrame(s, WatchStep(s, t, x, o), t, id)
  {
    hide SameSetup, StepFrame;
    if x in s.runs {
      RecordLives(s, WatchStep(s, t, x, o), t, x, id);
    } else {
      GotoLives(s, t, Finished, id);
    }
  }

  lemma StopFlagLives(s: State, t: nat, x: string, next: Thread, id: string)
    requires t < |s.threads| && id in s.runs && id in s.launched
    requires s.threads[t] == StopFlag(x) || s.threads[t] == StopCancel(x)
    requires next == Finished || next == StopFinalize(x)
    ensures StepFrame(s, StopFlagStep(s, t, x, next), t, id)
  {
    hide Count;
  }

  lemma StopFinalizeLives(s: State, t: nat, x: string, id: string)
    requires t < |s.threads| && id in s.runs && id in s.launched
    ensures StepFrame(s, StopFinalizeStep(s, t, x), t, id)
  {}

  lemma MintLives(s: State, t: nat, req: SpawnReq, o: Oracle, id: string)
    requires t < |s.threads| && o.freshId !in s.births && !s.threads[t].Start? && id in s.runs && id in s.launched
    ensures StepFrame(s, Mint(s, t, req, o), t, id)
  {
    hide StepFrame, NewRun, SpecOf;
    StoreSame(s, Mint(s, t, req, o), t, id);
  }

  lemma LookupLives(s: State, t: nat, req: SpawnReq, o: Oracle, id: string)
    requires t < |s.threads| && o.freshId !in s.births && !s.threads[t].Start? && id in s.runs && id in s.launched
    ensures StepFrame(s, LookupStep(s, t, req, o), t, id)
  {
    hide StepFrame, Mint;
    GotoLives(s, t, Finished, id);
    if req.key.Some? && req.key.value in s.idem { GotoLives(s, t, Adopt(req, s.idem[req.key.value]), id); }
    MintLives(s, t, req, o, id);
  }

  lemma AdoptLives(s: State, t: nat, req: SpawnReq, existing: string, o: Oracle, id: string)
    requires t < |s.threads| && o.freshId !in s.births && !s.threads[t].Start? && id in s.runs && id in s.launched
    ensures StepFrame(s, AdoptStep(s, t, req, existing, o), t, id)
  {
    hide StepFrame, Mint;
    GotoLives(s, t, Finished, id);
    MintLives(s, t, req, o, id);
  }

  lemma StartLives(s: State, t: nat, run: Run, caller: Caller, o: Oracle, id: string)
    requires t < |s.threads| && s.threads[t] == Start(run, caller) && id in s.runs && id in s.launched
    ensures StepFrame(s, StartStep(s, t, run, caller, o), t, id)
  {
    hide LivesOn, SpentOnce, OnlyMoves, StopHeeded, LaunchFrame, StartStep;
    StartStore(s, t, run, caller, o, id);
    StartFiring(s, t, run, caller, o, id);
  }

  lemma StartStore(s: State, t: nat, run: Run, caller: Caller, o: Oracle, id: string)
    requires t < |s.threads| && s.threads[t] == Start(run, caller) && id in s.runs && id in s.launched
    ensures LivesOn(s, StartStep(s, t, run, caller, o), id) && SpentOnce(s, StartStep(s, t, run, caller, o), t, id)
  {
    hide SameSetup, Count;
  }

  lemma StartFiring(s: State, t: nat, run: Run, caller: Caller, o: Oracle, id: string)
    requires t < |s.threads| && s.threads[t] == Start(run, caller) && id in s.runs && id in s.launched
    ensures var s' := StartStep(s, t, run, caller, o);
            && OnlyMoves(s, s', t) && StopHeeded(s, s', t, id) && LaunchFrame(s, s', t) && s'.births == s.births
  {
    hide OnlyMoves, StopHeeded, LaunchFrame, StartStep;
    if o.journaled && o.spawn.Started? {
      LaunchFiring(s, t, run, caller, o, id);
    } else {
      FailFiring(s, t, run, caller, o, id);
    }
  }

  lemma LaunchFiring(s: State, t: nat, run: Run, caller: Caller, o: Oracle, id: string)
    requires t < |s.threads| && s.threads[t] == Start(run, caller) && id in s.runs && id in s.launched
    requires o.journaled && o.spawn.Started?
    ensures var s' := StartStep(s, t, run, caller, o);
            && OnlyMoves(s, s', t) && StopHeeded(s, s', t, id) && LaunchFrame(s, s', t) && s'.births == s.births
  {
    hide Count;
  }

  lemma FailFiring(s: State, t: nat, run: Run, caller: Caller, o: Oracle, id: string)
    requires t < |s.threads| && s.threads[t] == Start(run, caller) && id in s.runs && id in s.launched
    requires !o.journaled || o.spawn.SpawnFailed?
    ensures var s' := StartStep(s, t, run, caller, o);
            && OnlyMoves(s, s', t) && StopHeeded(s, s', t, id) && LaunchFrame(s, s', t) && s'.births == s.births
  {
    hide Count;
  }

  lemma ReadFinalLives(s: State, t: nat, x: string, exit: ExitNote, id: string)
    requires t < |s.threads| && id in s.runs && id in s.launched
    ensures StepFrame(s, ReadFinalStep(s, t, x, exit), t, id)
  {
    hide SameSetup, StepFrame, CauseOf;
    StoreSame(s, ReadFinalStep(s, t, x, exit), t, id);
  }

  lemma ReadPredLives(s: State, t: nat, pred: string, p: PendingResume, rest: seq<string>, o: Oracle, id: string)
    requires t < |s.threads| && id in s.runs && id in s.launched
    ensures StepFrame(s, ReadPredStep(s, t, pred, p, rest, o), t, id)
  {
    hide LivesOn, SpentOnce, OnlyMoves, StopHeeded, LaunchFrame, ReadPredStep;
    ReadPredStore(s, t, pred, p, rest, o, id);
    ReadPredFiring(s, t, pred, p, rest, o, id);
  }

  lemma ReadPredStore(s: State, t: nat, pred: string, p: PendingResume, rest: seq<string>, o: Oracle, id: string)
    requires t < |s.threads| && id in s.runs && id in s.launched
    ensures LivesOn(s, ReadPredStep(s, t, pred, p, rest, o), id) && SpentOnce(s, ReadPredStep(s, t, pred, p, rest, o), t, id)
  {
    hide SameSetup, SuccessorRun, Count;
    QuietStart(rest);
  }

  lemma ReadPredFiring(s: State, t: nat, pred: string, p: PendingResume, rest: seq<string>, o: Oracle, id: string)
    requires t < |s.threads| && id in s.runs && id in s.launched
    ensures var s' := ReadPredStep(s, t, pred, p, rest, o);
            && OnlyMoves(s, s', t) && StopHeeded(s, s', t, id) && LaunchFrame(s, s', t) && s'.births == s.births
  {
    hide SameSetup, SuccessorRun, Count;
    QuietStart(rest);
  }

  lemma StopReadLives(s: State, t: nat, x: string, id: string)
    requires t < |s.threads| && id in s.runs && id in s.launched
    ensures StepFrame(s, StopReadStep(s, t, x), t, id)
  {
    hide StepFrame;
    GotoLives(s, t, Finished, id);
    GotoLives(s, t, StopFlag(x), id);
    GotoLives(s, t, StopCancel(x), id);
  }

  lemma RememberLives(s: State, t: nat, key: string, x: string, id: string)
    requires t < |s.threads| && id in s.runs && id in s.launched
    ensures StepFrame(s, Goto(s, t, Finished).(idem := s.idem[key := x]), t, id)
  {
    hide StepFrame;
    StoreSame(s, Goto(s, t, Finished).(idem := s.idem[key := x]), t, id);
  }

  lemma HeldNone(s: State, t: nat)
    requires Inv(s) && t < |s.threads| && s.threads[t].Rearm?
    ensures s.threads[t].pred in s.runs ==> s.runs[s.threads[t].pred].pendingResume.None?
  {
    hide Inv;
    if s.threads[t].pred in s.runs { HeldAt(s, t, s.threads[t].pred); }
  }

  lemma StepFair(s: State, t: nat, o: Oracle, id: string)
    requires Inv(s) && t < |s.threads| && id in s.launched && o.freshId !in s.births
    ensures StepFrame(s, ThreadStep(s, t, o), t, id)
  {
    hide Inv, StepFrame, RunOk, FitsRun, Count, Claim, LookupStep, AdoptStep, ReserveStep, StartStep, RegisterStep, UndoStep,
      BeginStep, FinalizeStep, ReadFinalStep, DecideStep, ArmStep, EndStep, ClearStep, ReadPredStep, RearmStep, WatchStep,
      DueList, StopReadStep, StopFlagStep, StopFinalizeStep, Next, Goto, Blank, SameSetup;
    LaunchedStay(s, id);
    match s.threads[t]
    case Reserve(run, caller) => ReservingAt(s, t, run, caller); ReserveLives(s, t, run, caller, o, id);
    case Register(run, pid, caller) => RegisterLives(s, t, run, pid, caller, o, id);
    case Undo(run, caller, error) => UnstartedAt(s, t, run.id); UndoLives(s, t, run, caller, error, id);
    case BeginFinalizing(x, exit) => BeginLives(s, t, x, exit, id);
    case Finalize(x, exit) => FinalizeLives(s, t, x, exit, id);
    case Decide(run, cause) => DecidingAt(s, t); DecideLives(s, t, run, cause, o, id);
    case Arm(x, succ, r) => ArmingAt(s, t); ArmLives(s, t, x, succ, r, o, id);
    case EndFinalizing(x) => EndLives(s, t, x, id);
    case Clear(x, rest) => ClearLives(s, t, x, rest, id);
    case Rearm(x, p, rest) => HeldNone(s, t); RearmLives(s, t, x, p, rest, o, id);
    case Watch(x) => WatchLives(s, t, x, o, id);
    case StopFlag(x) => StopFlagLives(s, t, x, StopFinalize(x), id);
    case StopCancel(x) => StopFlagLives(s, t, x, Finished, id);
    case StopFinalize(x) => StopFinalizeLives(s, t, x, id);
    case Finished => SelfGoto(s, t); GotoLives(s, t, Finished, id);
    case Lookup(req) => LookupLives(s, t, req, o, id);
    case Adopt(req, existing) => AdoptLives(s, t, req, existing, o, id);
    case Remember(key, x) => RememberLives(s, t, key, x, id);
    case Start(run, caller) => StartLives(s, t, run, caller, o, id);
    case ReadFinal(x, exit) => ReadFinalLives(s, t, x, exit, id);
    case ReadPred(x, p, rest) => ReadPredLives(s, t, x, p, rest, o, id);
    case SweepList =>
      SelfGoto(s, t); QuietStart(o.due); GotoLives(s, t, s.threads[t], id); GotoLives(s, t, Next(o.due), id);
    case StopRead(x) => StopReadLives(s, t, x, id);
  }
}
