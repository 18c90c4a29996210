/** Every step of the build engine keeps the invariant: one lemma for each kind of step. */
module BuildSteps {
  import opened Wrappers
  import opened Runs
  import opened BuildClass
  import opened ResumePlan
  import opened MemStore
  import opened BuildEngine
  import opened BuildInvariant
  import opened BuildFrames

  // --- steps that change one record's flags, pid or pending resume ---

  lemma BeginKeeps(s: State, t: nat, id: string, exit: ExitNote)
    requires Inv(s) && t < |s.threads| && s.threads[t] == BeginFinalizing(id, exit)
    ensures Inv(BeginStep(s, t, id, exit))
  {
    hide Inv, SoftMove, Quiet;
    if id in s.runs && s.runs[id].IsRunning() {
      BeginMove(s, t, id, exit);
      SoftKeeps(s, BeginStep(s, t, id, exit), t, id, Finalize(id, exit), []);
    } else {
      FinishKeeps(s, t);
    }
  }

  lemma BeginMove(s: State, t: nat, id: string, exit: ExitNote)
    requires Inv(s) && t < |s.threads| && s.threads[t] == BeginFinalizing(id, exit)
    requires id in s.runs && s.runs[id].IsRunning()
    ensures SoftMove(s, BeginStep(s, t, id, exit), t, id, Finalize(id, exit), [])
  {
    hide Inv, ClaimsKept;
    ThreadAt(s, t);
    HandClaims(s, t, Finalize(id, exit));
    HeldAt(s, t, id);
  }

  lemma EndKeeps(s: State, t: nat, id: string)
    requires Inv(s) && t < |s.threads| && s.threads[t] == EndFinalizing(id)
    ensures Inv(EndStep(s, t, id))
  {
    hide Inv, SoftMove;
    if id in s.runs {
      EndMove(s, t, id);
      SoftKeeps(s, EndStep(s, t, id), t, id, Finished, []);
    } else {
      FinishKeeps(s, t);
    }
  }

  lemma EndMove(s: State, t: nat, id: string)
    requires Inv(s) && t < |s.threads| && s.threads[t] == EndFinalizing(id) && id in s.runs
    ensures SoftMove(s, EndStep(s, t, id), t, id, Finished, [])
  {
    hide SameSetup, Inv;
    ThreadAt(s, t);
  }

  lemma ClearKeeps(s: State, t: nat, id: string, rest: seq<string>)
    requires Inv(s) && t < |s.threads| && s.threads[t] == Clear(id, rest)
    ensures Inv(ClearStep(s, t, id, rest))
  {
    hide Inv, SoftMove, Quiet, Next;
    QuietNext(rest);
    if id in s.runs && s.runs[id].pendingResume.Some? {
      ClearMove(s, t, id, rest);
      SoftKeeps(s, ClearStep(s, t, id, rest), t, id, ReadPred(id, s.runs[id].pendingResume.value, rest), []);
    } else {
      QuietKeeps(s, t, Next(rest));
    }
  }

  lemma ClearMove(s: State, t: nat, id: string, rest: seq<string>)
    requires Inv(s) && t < |s.threads| && s.threads[t] == Clear(id, rest)
    requires id in s.runs && s.runs[id].pendingResume.Some?
    ensures SoftMove(s, ClearStep(s, t, id, rest), t, id, ReadPred(id, s.runs[id].pendingResume.value, rest), [])
  {
    hide Inv, FitsRun, FitsPending;
    RunAt(s, id);
    ArmedUnheld(s, id);
  }

  lemma RearmKeeps(s: State, t: nat, pred: string, p: PendingResume, rest: seq<string>, o: Oracle)
    requires Inv(s) && t < |s.threads| && s.threads[t] == Rearm(pred, p, rest)
    ensures Inv(RearmStep(s, t, pred, p, rest, o))
  {
    hide Inv, SoftMove, Quiet, Next;
    QuietNext(rest);
    if p.spawnAttempts + 1 <= MAX_SPAWN_RETRIES && pred in s.runs {
      RearmMove(s, t, pred, p, rest, o);
      SoftKeeps(s, RearmStep(s, t, pred, p, rest, o), t, pred, Next(rest), []);
    } else {
      QuietKeeps(s, t, Next(rest));
    }
  }

  lemma RearmMove(s: State, t: nat, pred: string, p: PendingResume, rest: seq<string>, o: Oracle)
    requires Inv(s) && t < |s.threads| && s.threads[t] == Rearm(pred, p, rest)
    requires p.spawnAttempts + 1 <= MAX_SPAWN_RETRIES && pred in s.runs
    ensures SoftMove(s, RearmStep(s, t, pred, p, rest, o), t, pred, Next(rest), [])
  {
    hide SameSetup, Inv;
    ThreadAt(s, t);
  }

  lemma WatchKeeps(s: State, t: nat, id: string, o: Oracle)
    requires Inv(s) && t < |s.threads| && s.threads[t] == Watch(id)
    ensures Inv(WatchStep(s, t, id, o))
  {
    hide Inv, SoftMove;
    if id in s.runs {
      WatchMove(s, t, id, o);
      SoftKeeps(s, WatchStep(s, t, id, o), t, id, Finished, []);
    } else {
      FinishKeeps(s, t);
    }
  }

  lemma WatchMove(s: State, t: nat, id: string, o: Oracle)
    requires t < |s.threads| && s.threads[t] == Watch(id) && id in s.runs
    ensures SoftMove(s, WatchStep(s, t, id, o), t, id, Finished, [])
  {
    hide SameSetup, Claim;
  }

  lemma StopFlagKeeps(s: State, t: nat, id: string, next: Thread)
    requires Inv(s) && t < |s.threads| && (s.threads[t].StopFlag? || s.threads[t].StopCancel?)
    requires next == Finished || next == StopFinalize(id)
    ensures Inv(StopFlagStep(s, t, id, next))
  {
    hide Inv, SoftMove;
    if id in s.runs {
      StopFlagMove(s, t, id, next);
      SoftKeeps(s, StopFlagStep(s, t, id, next), t, id, next, []);
    } else {
      QuietKeeps(s, t, next);
    }
  }

  lemma StopFlagMove(s: State, t: nat, id: string, next: Thread)
    requires t < |s.threads| && (s.threads[t].StopFlag? || s.threads[t].StopCancel?) && id in s.runs
    requires next == Finished || next == StopFinalize(id)
    ensures SoftMove(s, StopFlagStep(s, t, id, next), t, id, next, [])
  {
    hide SameSetup, Claim;
  }

  lemma RegisterKeeps(s: State, t: nat, run: Run, pid: int, caller: Caller, o: Oracle)
    requires Inv(s) && t < |s.threads| && s.threads[t] == Register(run, pid, caller)
    ensures Inv(RegisterStep(s, t, run, pid, caller, o))
  {
    hide Inv, SoftMove, RegisterStep, AfterReserve;
    RegisterMove(s, t, run, pid, caller, o);
    SoftKeeps(s, RegisterStep(s, t, run, pid, caller, o), t, run.id, AfterReserve(caller, run.id),
              [BeginFinalizing(run.id, ExitNote(o.exitCode, false, false))]);
  }

  /** The goroutine that waits takes over what the spawner had. */
  lemma RegisterMove(s: State, t: nat, run: Run, pid: int, caller: Caller, o: Oracle)
    requires Inv(s) && t < |s.threads| && s.threads[t] == Register(run, pid, caller)
    ensures run.id in s.runs
    ensures SoftMove(s, RegisterStep(s, t, run, pid, caller, o), t, run.id, AfterReserve(caller, run.id),
                     [BeginFinalizing(run.id, ExitNote(o.exitCode, false, false))])
  {
    hide SameSetup, Inv, Claim;
    ThreadAt(s, t);
    LaunchedStay(s, run.id);
    HeldAt(s, t, run.id);
  }

  // --- the decision on a finished run ---

  lemma FinalizeKeeps(s: State, t: nat, id: string, exit: ExitNote)
    requires Inv(s) && t < |s.threads| && s.threads[t] == Finalize(id, exit)
    ensures Inv(FinalizeStep(s, t, id, exit))
  {
    hide Inv, OneMove, ThreadOk, Finalized;
    if id in s.runs && s.runs[id].IsRunning() {
      FinalizeMove(s, t, id, exit);
      OneKeeps(s, FinalizeStep(s, t, id, exit), t, id, ReadFinal(id, exit), []);
    } else {
      UndecidedAt(s, t);
      TurnAway(s, t, id);
    }
  }

  lemma UndecidedAt(s: State, t: nat)
    requires Inv(s) && t < |s.threads| && s.threads[t].Finalize?
    ensures s.threads[t].id in s.launched && s.threads[t].id !in s.deciding
  {
    hide Inv;
    ThreadAt(s, t);
  }

  /** The handshake ends without a decision. */
  lemma TurnAway(s: State, t: nat, id: string)
    requires Inv(s) && t < |s.threads| && FinalizerOf(s.threads[t]) == Some(id)
    requires id !in s.deciding
    ensures Inv(Goto(s, t, EndFinalizing(id)))
  {
    hide Inv;
    ThreadAt(s, t);
    GotoKeeps(s, t, EndFinalizing(id));
  }

  lemma FinalizeMove(s: State, t: nat, id: string, exit: ExitNote)
    requires Inv(s) && t < |s.threads| && s.threads[t] == Finalize(id, exit)
    requires id in s.runs && s.runs[id].IsRunning()
    ensures OneMove(s, FinalizeStep(s, t, id, exit), t, id, ReadFinal(id, exit), [])
  {
    hide SameSetup, Inv, FitsPending, ClaimsKept, SetsOk, Token;
    ThreadAt(s, t);
    RunAt(s, id);
    HandClaims(s, t, ReadFinal(id, exit));
    HeldAt(s, t, id);
    FinalizeSets(s, t, id, exit);
  }

  lemma FinalizeSets(s: State, t: nat, id: string, exit: ExitNote)
    requires Inv(s) && t < |s.threads| && s.threads[t] == Finalize(id, exit)
    ensures SetsOk(FinalizeStep(s, t, id, exit))
  {
    hide Inv, SetsOk, BirthsOk, RunsOk, ThreadsOk, HeldMeansCleared, Alone, StartsHeld, Finalized;
    InvParts(s);
    UndecidedAt(s, t);
    var s' := FinalizeStep(s, t, id, exit);
    assert s'.runs.Keys == s.runs.Keys by { FinalizedKeys(s.runs, id, exit.code); }
    DecidingSets(s, s', id);
  }

  lemma FinalizedKeys(runs: RunMap, id: string, code: int)
    ensures Finalized(runs, id, code).Keys == runs.Keys
  {}

  lemma DecidingSets(s: State, s': State, id: string)
    requires SetsOk(s) && id in s.launched && s'.runs.Keys == s.runs.Keys
    requires s' == s.(threads := s'.threads, runs := s'.runs, deciding := s'.deciding)
    requires s'.deciding == s.deciding || s'.deciding == s.deciding + {id}
    ensures SetsOk(s')
  {
    hide Count;
  }

  lemma ReadFinalKeeps(s: State, t: nat, id: string, exit: ExitNote)
    requires Inv(s) && t < |s.threads| && s.threads[t] == ReadFinal(id, exit)
    ensures Inv(ReadFinalStep(s, t, id, exit))
  {
    hide Inv, FitsRun, CauseOf, Claim, Token;
    ThreadAt(s, t);
    LaunchedStay(s, id);
    GotoKeeps(s, t, Decide(s.runs[id], CauseOf(s.runs[id], exit)));
  }

  lemma StopFinalizeKeeps(s: State, t: nat, id: string)
    requires Inv(s) && t < |s.threads| && s.threads[t] == StopFinalize(id)
    ensures Inv(StopFinalizeStep(s, t, id))
  {
    hide Inv, OneMove;
    if id in s.runs && s.runs[id].IsRunning() {
      StopFinalizeMove(s, t, id);
      OneKeeps(s, StopFinalizeStep(s, t, id), t, id, Finished, []);
    } else {
      FinishKeeps(s, t);
    }
  }

  lemma StopFinalizeMove(s: State, t: nat, id: string)
    requires Inv(s) && t < |s.threads| && s.threads[t] == StopFinalize(id)
    requires id in s.runs && s.runs[id].IsRunning()
    ensures OneMove(s, StopFinalizeStep(s, t, id), t, id, Finished, [])
  {
    hide SameSetup, Inv, FitsPending, SetsOk, BirthsOk, RunsOk, ThreadsOk, HeldMeansCleared, Alone, StartsHeld;
    RunAt(s, id);
    InvParts(s);
    SetsFrame(s, StopFinalizeStep(s, t, id));
  }

  lemma SetsFrame(s: State, s': State)
    requires SetsOk(s) && s'.cfg == s.cfg && s'.caps == s.caps && s.runs.Keys <= s'.runs.Keys
    requires s'.launched == s.launched && s'.planned == s.planned && s'.deciding == s.deciding && s'.verdicts == s.verdicts
    requires s'.attempts == s.attempts && s'.pushes == s.pushes
    ensures SetsOk(s')
  {
    hide Count;
  }

  lemma DecideKeeps(s: State, t: nat, run: Run, cause: RedriveCause, o: Oracle)
    requires Inv(s) && t < |s.threads| && s.threads[t] == Decide(run, cause) && o.freshId !in s.births
    ensures Inv(DecideStep(s, t, run, cause, o))
  {
    hide Inv, OneMove, WideMove, DecideStep, PlanResume;
    if PlanResume(s.cfg, s.reader, run, o.lines, cause, PlanClock(o.atDetect, o.now), o.fingerprint).Stay? {
      StayMove(s, t, run, cause, o);
      OneKeeps(s, DecideStep(s, t, run, cause, o), t, run.id, EndFinalizing(run.id), []);
    } else {
      GoMove(s, t, run, cause, o);
      WideKeeps(s, DecideStep(s, t, run, cause, o), t, GoThread(s, run, cause, o));
    }
  }

  function GoThread(s: State, run: Run, cause: RedriveCause, o: Oracle): Thread
    requires PlanResume(s.cfg, s.reader, run, o.lines, cause, PlanClock(o.atDetect, o.now), o.fingerprint).Go?
  {
    Arm(run.id, o.freshId,
        PlanResume(s.cfg, s.reader, run, o.lines, cause, PlanClock(o.atDetect, o.now), o.fingerprint).resume)
  }

  /** A step that only settles the decision on one run. */
  ghost predicate Settles(s: State, s': State, id: string) {
    && id in s.runs && id in s'.runs && id in s'.verdicts
    && s' == s.(threads := s'.threads, runs := s.runs[id := s'.runs[id]], deciding := s.deciding - {id},
                verdicts := s.verdicts[id := s'.verdicts[id]], pushes := s'.pushes)
    && (s'.pushes == s.pushes || (id in s'.pushes && s'.pushes == s.pushes[id := s'.pushes[id]]))
  }

  lemma SettlesOne(s: State, s': State, id: string)
    requires Settles(s, s', id)
    ensures OneRecord(s, s', id)
  {
    hide SameFor;
    forall x | x != id ensures SameFor(s, s', x) { SettlesOther(s, s', id, x); }
  }

  lemma SettlesOther(s: State, s': State, id: string, x: string)
    requires Settles(s, s', id) && x != id
    ensures SameFor(s, s', x)
  {
    hide Count;
  }

  lemma SettlesSets(s: State, s': State, id: string)
    requires SetsOk(s) && Settles(s, s', id) && id in s.launched && (id in s'.pushes ==> s'.pushes[id] <= 1)
    ensures SetsOk(s')
  {
    hide Count;
  }

  lemma StayMove(s: State, t: nat, run: Run, cause: RedriveCause, o: Oracle)
    requires Inv(s) && t < |s.threads| && s.threads[t] == Decide(run, cause)
    requires PlanResume(s.cfg, s.reader, run, o.lines, cause, PlanClock(o.atDetect, o.now), o.fingerprint).Stay?
    ensures OneMove(s, DecideStep(s, t, run, cause, o), t, run.id, EndFinalizing(run.id), [])
  {
    hide Inv, ClaimsKept, SetsOk, RunOk, ThreadOk, PlanResume, DecideStep, OneRecord, OwnRun, ArmedByHolder,
      Settles, BirthsOk, RunsOk, ThreadsOk, HeldMeansCleared, Alone, StartsHeld;
    InvParts(s);
    DecidingAt(s, t);
    HandClaims(s, t, EndFinalizing(run.id));
    StayShape(s, t, run, cause, o);
    StayRun(s, t, run, cause, o);
    var s' := DecideStep(s, t, run, cause, o);
    SettlesOne(s, s', run.id);
    SettlesSets(s, s', run.id);
  }

  /** What a thread about to decide knows. */
  lemma DecidingAt(s: State, t: nat)
    requires Inv(s) && t < |s.threads| && s.threads[t].Decide?
    ensures var run := s.threads[t].run;
            && Undecided(s, run.id) && run.id in s.deciding && run.id in s.runs && RunOk(s, run.id)
            && run.id in s.births && FitsRun(s.cfg, s.births[run.id], run)
            && s.runs[run.id].pendingResume.None? && (run.id in s.pushes ==> s.pushes[run.id] <= 1)
  {
    hide Inv, FitsRun, RunOk;
    ThreadAt(s, t);
    LaunchedStay(s, s.threads[t].run.id);
    HeldAt(s, t, s.threads[t].run.id);
    PushedOnce(s, s.threads[t].run.id);
  }

  lemma PushedOnce(s: State, id: string)
    requires Inv(s)
    ensures id in s.pushes ==> s.pushes[id] <= 1
  {
    hide RunsOk, ThreadsOk, BirthsOk, HeldMeansCleared, Alone, StartsHeld, Count;
  }

  lemma StayShape(s: State, t: nat, run: Run, cause: RedriveCause, o: Oracle)
    requires t < |s.threads| && s.threads[t] == Decide(run, cause) && run.id in s.runs && RunOk(s, run.id)
    requires run.id in s.pushes ==> s.pushes[run.id] <= 1
    requires PlanResume(s.cfg, s.reader, run, o.lines, cause, PlanClock(o.atDetect, o.now), o.fingerprint).Stay?
    ensures var s' := DecideStep(s, t, run, cause, o);
            && Settles(s, s', run.id) && OwnRun(s, s', t, run.id)
            && s'.threads == s.threads[t := EndFinalizing(run.id)]
            && ArmedByHolder(s.threads[t], run.id, s.runs[run.id], s'.runs[run.id])
            && (run.id in s'.pushes ==> s'.pushes[run.id] <= 1)
  {
    hide SameSetup, PlanResume, WantsPush, SameFor, Token;
  }

  lemma StayRun(s: State, t: nat, run: Run, cause: RedriveCause, o: Oracle)
    requires t < |s.threads| && s.threads[t] == Decide(run, cause) && run.id in s.runs && RunOk(s, run.id)
    requires Undecided(s, run.id) && s.runs[run.id].pendingResume.None?
    requires PlanResume(s.cfg, s.reader, run, o.lines, cause, PlanClock(o.atDetect, o.now), o.fingerprint).Stay?
    ensures var s' := DecideStep(s, t, run, cause, o);
            run.id in s'.runs && RunOk(s', run.id) && t < |s'.threads| && ThreadOk(s', t)
  {
    hide SameSetup, PlanResume, WantsPush, Token;
  }

  // --- arming the resume ---

  lemma ArmKeeps(s: State, t: nat, id: string, succ: string, r: Resume, o: Oracle)
    requires Inv(s) && t < |s.threads| && s.threads[t] == Arm(id, succ, r)
    ensures Inv(ArmStep(s, t, id, succ, r, o))
  {
    hide Inv, OneMove, ArmStep;
    ArmMove(s, t, id, succ, r, o);
    OneKeeps(s, ArmStep(s, t, id, succ, r, o), t, id, EndFinalizing(id), ArmTimer(s, id));
  }

  function ArmTimer(s: State, id: string): seq<Thread> {
    if id in s.runs && !s.runs[id].stopRequested then [Clear(id, [])] else []
  }

  lemma ArmMove(s: State, t: nat, id: string, succ: string, r: Resume, o: Oracle)
    requires Inv(s) && t < |s.threads| && s.threads[t] == Arm(id, succ, r)
    ensures OneMove(s, ArmStep(s, t, id, succ, r, o), t, id, EndFinalizing(id), ArmTimer(s, id))
  {
    hide SameSetup, Inv, ClaimsKept, SetsOk, RunOk, ThreadOk, ArmStep, OneRecord, OwnRun, ArmedByHolder, Claim,
      Settles, BirthsOk, RunsOk, ThreadsOk, HeldMeansCleared, Alone, StartsHeld;
    InvParts(s);
    ArmingAt(s, t);
    HandClaims(s, t, EndFinalizing(id));
    ArmShape(s, t, id, succ, r, o);
    var s' := ArmStep(s, t, id, succ, r, o);
    ArmToken(s, s', id, succ, r, o.now);
    ArmRun(s, t, id, succ, r, o);
    SettlesOne(s, s', id);
    SettlesSets(s, s', id);
  }

  lemma ArmingAt(s: State, t: nat)
    requires Inv(s) && t < |s.threads| && s.threads[t].Arm?
    ensures var (id, succ) := (s.threads[t].id, s.threads[t].succ);
            && id in s.runs && RunOk(s, id) && id in s.launched && id in s.planned && id in s.deciding && id !in s.verdicts
            && s.runs[id].pendingResume.None? && succ !in s.runs && (id in s.pushes ==> s.pushes[id] <= 1)
            && Claim(s, id, Pending(succ, s.threads[t].resume, 0), 0)
  {
    hide Inv, FitsRun, RunOk;
    ThreadAt(s, t);
    LaunchedStay(s, s.threads[t].id);
    HeldAt(s, t, s.threads[t].id);
    PushedOnce(s, s.threads[t].id);
  }

  lemma ArmShape(s: State, t: nat, id: string, succ: string, r: Resume, o: Oracle)
    requires t < |s.threads| && s.threads[t] == Arm(id, succ, r) && id in s.runs
    ensures var s' := ArmStep(s, t, id, succ, r, o);
            && Settles(s, s', id) && s'.pushes == s.pushes && OwnRun(s, s', t, id)
            && s'.threads == s.threads[t := EndFinalizing(id)] + ArmTimer(s, id)
            && ArmedByHolder(s.threads[t], id, s.runs[id], s'.runs[id])
  {
    hide SameSetup, SameFor;
  }

  lemma ArmToken(s: State, s': State, id: string, succ: string, r: Resume, now: int)
    requires Claim(s, id, Pending(succ, r, 0), 0) && Settles(s, s', id)
    ensures Token(s', id, Pending(succ, r, now), 0)
  {}

  lemma ArmRun(s: State, t: nat, id: string, succ: string, r: Resume, o: Oracle)
    requires t < |s.threads| && s.threads[t] == Arm(id, succ, r) && id in s.runs && RunOk(s, id) && id !in s.verdicts
    requires id in s.launched && succ !in s.runs && Token(ArmStep(s, t, id, succ, r, o), id, Pending(succ, r, o.now), 0)
    requires s.runs[id].pendingResume.None?
    ensures var s' := ArmStep(s, t, id, succ, r, o);
            && id in s'.runs && RunOk(s', id)
            && t < |s'.threads| && ThreadOk(s', t)
            && (ArmTimer(s, id) != [] ==> |s.threads| < |s'.threads| && ThreadOk(s', |s.threads|))
  {
    hide SameSetup, Token;
  }

  // --- planning a resume: one new link of a chain ---

  /** Thread t plans a resume of run id for the fresh id succ. */
  ghost predicate Links(s: State, s': State, t: nat, id: string, succ: string, r: Resume)
    requires t < |s.threads|
  {
    && id in s.births && succ !in s.births && succ in s'.births
    && s' == s.(threads := s.threads[t := Arm(id, succ, r)], planned := s.planned + {id},
                births := s.births[succ := s'.births[succ]])
    && FitsPending(s.cfg, s'.births[succ], Pending(succ, r, 0))
    && Follows(s.caps, s.births[id], s'.births[succ], id)
  }

  predicate Follows(caps: Caps, a: Birth, b: Birth, id: string) {
    && b.owner == SuccessorOf(id) && b.root == a.root && b.start == a.start && b.spec == a.spec
    && b.depth == a.depth + 1 <= caps.depth
    && 0 <= b.waited - a.waited <= caps.wait
  }

  lemma GoMove(s: State, t: nat, run: Run, cause: RedriveCause, o: Oracle)
    requires Inv(s) && t < |s.threads| && s.threads[t] == Decide(run, cause) && o.freshId !in s.births
    requires PlanResume(s.cfg, s.reader, run, o.lines, cause, PlanClock(o.atDetect, o.now), o.fingerprint).Go?
    ensures WideMove(s, DecideStep(s, t, run, cause, o), t, GoThread(s, run, cause, o))
  {
    hide Inv, WideMove, PlanResume, DecideStep, RunOk, FitsRun, Links, SetsOk, BirthsOk, RunsOk, ThreadsOk,
      HeldMeansCleared, Alone, StartsHeld;
    InvParts(s);
    DecidingAt(s, t);
    HaveConfig(s);
    GoLinks(s, t, run, cause, o);
    LinkMove(s, DecideStep(s, t, run, cause, o), t, run.id, o.freshId, GoThread(s, run, cause, o).resume);
  }

  lemma HaveConfig(s: State)
    requires SetsOk(s)
    ensures ValidConfig(s.cfg) && WithinCaps(s.cfg, s.caps)
  {
    hide Count, ValidConfig, WithinCaps;
  }

  /** A run that resumes was not complete, so it was not pushed. */
  lemma GoLinks(s: State, t: nat, run: Run, cause: RedriveCause, o: Oracle)
    requires t < |s.threads| && run.id in s.births && FitsRun(s.cfg, s.births[run.id], run) && o.freshId !in s.births
    requires ValidConfig(s.cfg) && WithinCaps(s.cfg, s.caps)
    requires PlanResume(s.cfg, s.reader, run, o.lines, cause, PlanClock(o.atDetect, o.now), o.fingerprint).Go?
    ensures Links(s, DecideStep(s, t, run, cause, o), t, run.id, o.freshId, GoThread(s, run, cause, o).resume)
  {
    hide PlanResume, IsBuildComplete, FinalText;
    GoNotComplete(s, run, cause, o);
    PlanWithinBudgets(s.cfg, s.reader, run, o.lines, cause, PlanClock(o.atDetect, o.now), o.fingerprint);
  }

  lemma GoNotComplete(s: State, run: Run, cause: RedriveCause, o: Oracle)
    requires PlanResume(s.cfg, s.reader, run, o.lines, cause, PlanClock(o.atDetect, o.now), o.fingerprint).Go?
    ensures PushIfComplete(s, run, o) == s
  {
    hide PlanResume, IsBuildComplete, FinalText;
    if WantsPush(s, run, o.lines) {
      CompletionStays(s.cfg, s.reader, run, o.lines, cause, PlanClock(o.atDetect, o.now), o.fingerprint);
    }
  }

  lemma LinkMove(s: State, s': State, t: nat, id: string, succ: string, r: Resume)
    requires Inv(s) && t < |s.threads| && s.threads[t].Decide? && s.threads[t].run.id == id
    requires Links(s, s', t, id, succ, r)
    ensures WideMove(s, s', t, Arm(id, succ, r))
  {
    hide Inv, Links, SetsOk, BirthsOk, RunsOk, ThreadsOk, HeldMeansCleared, Alone, StartsHeld, RunOk, RunUntouched,
      FitsRun, Undisturbed, ThreadOk, ClaimsKept, Grows, Count;
    InvParts(s);
    DecidingAt(s, t);
    HandClaims(s, t, Arm(id, succ, r));
    LinkShape(s, s', t, id, succ, r);
    LinkBirths(s, s', t, id, succ, r);
    LinkSets(s, s', t, id, succ, r);
    HeldWide(s, s', t, Arm(id, succ, r));
    LinkThread(s, s', t, id, succ, r);
    StartsWide(s, s', t, Arm(id, succ, r));
    forall i: nat | i < |s.threads| && i != t ensures Undisturbed(s, s', s.threads[i]) {
      OthersElsewhere(s.threads, t, i);
      LinkOther(s, s', t, id, succ, r, s.threads[i]);
    }
    forall x | x in s'.runs ensures RunOk(s', x) || (x in s.runs && RunUntouched(s, s', x)) {
      LinkRun(s, s', t, id, succ, r, x);
    }
  }

  lemma LinkShape(s: State, s': State, t: nat, id: string, succ: string, r: Resume)
    requires t < |s.threads| && Links(s, s', t, id, succ, r)
    ensures Grows(s, s') && s'.threads == s.threads[t := Arm(id, succ, r)] && s'.runs == s.runs
    ensures s'.launched == s.launched
    ensures succ !in s.births && s'.births.Keys == s.births.Keys + {succ}
  {
    hide Follows, FitsPending;
  }

  lemma LinkBirths(s: State, s': State, t: nat, id: string, succ: string, r: Resume)
    requires t < |s.threads| && Links(s, s', t, id, succ, r) && BirthsOk(s) && id !in s.planned
    ensures BirthsOk(s')
  {
    hide BirthOk, BirthsOk, Grows, Follows, FitsPending;
    LinkShape(s, s', t, id, succ, r);
    LinkBirth(s, s', t, id, succ, r);
    BirthsGrow(s, s', succ, t);
  }

  lemma LinkBirth(s: State, s': State, t: nat, id: string, succ: string, r: Resume)
    requires t < |s.threads| && Links(s, s', t, id, succ, r) && BirthsOk(s) && id !in s.planned
    ensures BirthOk(s', succ) && OwnBirth(s, s'.births[succ].owner, t)
  {
    hide FitsPending, BirthsOk;
    UnplannedChildless(s, id);
  }

  lemma UnplannedChildless(s: State, id: string)
    requires BirthsOk(s) && id !in s.planned
    ensures forall x | x in s.births :: s.births[x].owner != SuccessorOf(id)
  {}

  /** No run was born of this owner yet. */
  ghost predicate OwnBirth(s: State, owner: Owner, t: nat) {
    match owner
    case Posted(thread) => thread == t
    case SuccessorOf(_) => forall x | x in s.births :: s.births[x].owner != owner
    case AtBoot => false
  }

  lemma BirthsGrow(s: State, s': State, born: string, t: nat)
    requires BirthsOk(s) && Grows(s, s') && |s.threads| <= |s'.threads| && t < |s'.threads|
    requires born !in s.births && s'.births.Keys == s.births.Keys + {born}
    requires BirthOk(s', born) && OwnBirth(s, s'.births[born].owner, t)
    ensures BirthsOk(s')
  {
    hide BirthOk;
    forall x | x in s'.births ensures BirthOk(s', x) {
      if x != born { BirthFrame(s, s', x); }
    }
  }

  lemma LinkSets(s: State, s': State, t: nat, id: string, succ: string, r: Resume)
    requires t < |s.threads| && Links(s, s', t, id, succ, r) && SetsOk(s) && id in s.launched && id in s.deciding
    ensures SetsOk(s')
  {
    hide FitsPending, Follows;
  }

  lemma LinkThread(s: State, s': State, t: nat, id: string, succ: string, r: Resume)
    requires Inv(s) && t < |s.threads| && Links(s, s', t, id, succ, r) && Undecided(s, id) && id in s.deciding
    ensures ThreadOk(s', t)
  {
    hide Inv, FitsPending, FitsRun, Count;
    FreshAway(s, succ);
    NoAttempts(s, id);
  }

  /** A fresh id is nobody's yet. */
  lemma FreshAway(s: State, id: string)
    requires Inv(s) && id !in s.births
    ensures id !in s.runs && id !in s.launched
  {
    hide ThreadsOk, BirthsOk, HeldMeansCleared, Alone, StartsHeld, Count, FitsRun, Token;
  }

  lemma NoAttempts(s: State, id: string)
    requires Inv(s) && id !in s.planned
    ensures Count(s.attempts, id) == 0
  {
    hide ThreadsOk, RunsOk, BirthsOk, HeldMeansCleared, Alone, StartsHeld;
  }

  lemma LinkOther(s: State, s': State, t: nat, id: string, succ: string, r: Resume, other: Thread)
    requires t < |s.threads| && Links(s, s', t, id, succ, r) && ChainOf(other) != Some(id)
    ensures Undisturbed(s, s', other)
  {
    hide ChainOf, FinalizerOf, StarterOf, Count, FitsPending, Follows;
  }

  lemma LinkRun(s: State, s': State, t: nat, id: string, succ: string, r: Resume, x: string)
    requires t < |s.threads| && Links(s, s', t, id, succ, r) && x in s.runs
    requires x != id ==> RunsOk(s)
    requires id in s.runs && RunOk(s, id) && id !in s.verdicts && s.runs[id].pendingResume.None?
    ensures RunOk(s', x) || RunUntouched(s, s', x)
  {
    hide FitsPending, Follows, Count, Token, RunsOk;
    if x != id {
      ArmedOutside(s, x);
    }
  }
}
