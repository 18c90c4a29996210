/** Every step of a reserve-and-spawn keeps the engine's invariant. */
module BuildSpawn {
  import opened Wrappers
  import opened Runs
  import opened ResumePlan
  import opened MemStore
  import opened BuildEngine
  import opened BuildInvariant
  import opened BuildFrames
  import opened BuildSteps

  // --- a POST takes a fresh id ---

  lemma MintKeeps(s: State, t: nat, req: SpawnReq, o: Oracle)
    requires Inv(s) && t < |s.threads| && Quiet(s.threads[t]) && o.freshId !in s.births
    ensures Inv(Mint(s, t, req, o))
  {
    hide Inv, WideMove, NewRun;
    MintMove(s, t, req, o);
    WideKeeps(s, Mint(s, t, req, o), t, Reserve(NewRun(req, o), ByPost(req.key)));
  }

  lemma MintMove(s: State, t: nat, req: SpawnReq, o: Oracle)
    requires Inv(s) && t < |s.threads| && o.freshId !in s.births && Quiet(s.threads[t])
    ensures WideMove(s, Mint(s, t, req, o), t, Reserve(NewRun(req, o), ByPost(req.key)))
  {
    hide Inv, SetsOk, BirthsOk, RunsOk, ThreadsOk, HeldMeansCleared, Alone, StartsHeld, RunOk, Undisturbed, ThreadOk,
      ClaimsKept, Grows, NewRun, OwnBirth, BirthOk, SameFor;
    InvParts(s);
    HaveConfig(s);
    var s', th := Mint(s, t, req, o), Reserve(NewRun(req, o), ByPost(req.key));
    MintShape(s, t, req, o);
    HandClaims(s, t, th);
    BirthsGrow(s, s', o.freshId, t);
    SetsFrame(s, s');
    HeldWide(s, s', t, th);
    FreshAway(s, o.freshId);
    MintThread(s, t, req, o);
    StartsWide(s, s', t, th);
    forall i: nat | i < |s.threads| && i != t ensures Undisturbed(s, s', s.threads[i]) {
      BirthOnly(s, s', s.threads[i]);
    }
    forall x | x in s'.runs ensures RunUntouched(s, s', x) {
      BirthOnlyRun(s, s', x);
    }
  }

  lemma MintShape(s: State, t: nat, req: SpawnReq, o: Oracle)
    requires SetsOk(s) && t < |s.threads| && o.freshId !in s.births
    ensures var s' := Mint(s, t, req, o);
            && Grows(s, s') && s'.threads == s.threads[t := Reserve(NewRun(req, o), ByPost(req.key))]
            && o.freshId !in s.births && s'.births.Keys == s.births.Keys + {o.freshId}
            && BirthOk(s', o.freshId) && OwnBirth(s, s'.births[o.freshId].owner, t)
  {
    hide NewRun, Count;
  }

  lemma MintThread(s: State, t: nat, req: SpawnReq, o: Oracle)
    requires t < |s.threads| && ValidConfig(s.cfg) && o.freshId !in s.runs && o.freshId !in s.launched
    ensures ThreadOk(Mint(s, t, req, o), t)
  {
    hide ResolveEngine;
  }

  /** Only births and threads change. */
  lemma BirthOnly(s: State, s': State, other: Thread)
    requires s' == s.(threads := s'.threads, births := s'.births)
    ensures Undisturbed(s, s', other)
  {
    hide ChainOf, FinalizerOf, StarterOf, Count;
  }

  lemma BirthOnlyRun(s: State, s': State, x: string)
    requires RunsOk(s) && s' == s.(threads := s'.threads, births := s'.births) && x in s.runs
    ensures RunUntouched(s, s', x)
  {
    hide Count, Token, FitsRun;
  }

  lemma LookupKeeps(s: State, t: nat, req: SpawnReq, o: Oracle)
    requires Inv(s) && t < |s.threads| && s.threads[t] == Lookup(req) && o.freshId !in s.births
    ensures Inv(LookupStep(s, t, req, o))
  {
    hide Inv, Mint;
    if req.prompt == "" {
      FinishKeeps(s, t);
    } else if req.key.Some? && req.key.value in s.idem {
      QuietKeeps(s, t, Adopt(req, s.idem[req.key.value]));
    } else {
      MintKeeps(s, t, req, o);
    }
  }

  lemma AdoptKeeps(s: State, t: nat, req: SpawnReq, existing: string, o: Oracle)
    requires Inv(s) && t < |s.threads| && s.threads[t] == Adopt(req, existing) && o.freshId !in s.births
    ensures Inv(AdoptStep(s, t, req, existing, o))
  {
    hide Inv, Mint;
    if existing in s.runs {
      FinishKeeps(s, t);
    } else {
      MintKeeps(s, t, req, o);
    }
  }

  // --- the process starts ---

  lemma StartKeeps(s: State, t: nat, run: Run, caller: Caller, o: Oracle)
    requires Inv(s) && t < |s.threads| && s.threads[t] == Start(run, caller)
    ensures Inv(StartStep(s, t, run, caller, o))
  {
    hide Inv, WideMove, StarterOk;
    if !o.journaled || o.spawn.SpawnFailed? {
      var error := if o.journaled then o.spawn.error else OtherFailure;
      StarterAt(s, t, run, caller);
      GotoKeeps(s, t, Undo(run, caller, error));
    } else {
      LaunchMove(s, t, run, caller, o);
      WideKeeps(s, StartStep(s, t, run, caller, o), t, Register(run, o.spawn.pid, caller));
    }
  }

  lemma StarterAt(s: State, t: nat, run: Run, caller: Caller)
    requires Inv(s) && t < |s.threads| && s.threads[t] == Start(run, caller)
    ensures StarterOk(s, t, run, caller, 1) && run.id in s.runs
    ensures forall error :: ThreadOk(Goto(s, t, Undo(run, caller, error)), t)
  {
    hide Inv, FitsRun, FitsPending;
    ThreadAt(s, t);
  }

  lemma LaunchMove(s: State, t: nat, run: Run, caller: Caller, o: Oracle)
    requires Inv(s) && t < |s.threads| && s.threads[t] == Start(run, caller) && o.journaled && o.spawn.Started?
    ensures WideMove(s, StartStep(s, t, run, caller, o), t, Register(run, o.spawn.pid, caller))
  {
    hide Inv, SetsOk, BirthsOk, RunsOk, ThreadsOk, HeldMeansCleared, Alone, StartsHeld, RunOk, Undisturbed, ThreadOk,
      ClaimsKept, Grows, SameFor, StarterOk, RunUntouched, Count;
    var s', th := StartStep(s, t, run, caller, o), Register(run, o.spawn.pid, caller);
    InvParts(s);
    UnstartedAt(s, t, run.id);
    Unlaunched(s, run.id);
    LaunchClaims(s, t, th);
    LaunchShape(s, t, run, caller, o);
    BirthsFrame(s, s');
    HeldWide(s, s', t, th);
    StartsWide(s, s', t, th);
    forall i: nat | i < |s.threads| && i != t ensures Undisturbed(s, s', s.threads[i]) {
      StarterElsewhere(s, t, i);
      LaunchOther(s, s', run.id, s.threads[i]);
    }
    forall x | x in s'.runs ensures RunUntouched(s, s', x) {
      LaunchRun(s, s', run.id, x);
    }
  }

  /** What thread t has in hand before its start. */
  lemma UnstartedAt(s: State, t: nat, id: string)
    requires Inv(s) && t < |s.threads| && (s.threads[t].Start? || s.threads[t].Undo?) && s.threads[t].run.id == id
    ensures id in s.runs && id in s.births && id !in s.launched
    ensures FitsRun(s.cfg, s.births[id], s.threads[t].run) && Blank(s.threads[t].run)
  {
    hide Inv, FitsRun, Blank, Token;
    ThreadAt(s, t);
  }

  /** Nothing has been decided or armed on a run whose process has not started. */
  lemma Unlaunched(s: State, id: string)
    requires Inv(s) && id !in s.launched
    ensures id !in s.planned && id !in s.deciding && id !in s.verdicts && Count(s.pushes, id) == 0
    ensures id in s.runs ==> s.runs[id].pendingResume.None?
  {
    hide Inv, BirthsOk, RunsOk, ThreadsOk, HeldMeansCleared, Alone, StartsHeld;
    InvParts(s);
    if id in s.runs { RunAt(s, id); }
  }

  lemma StarterElsewhere(s: State, t: nat, i: nat)
    requires Inv(s) && t < |s.threads| && i < |s.threads| && i != t && StarterOf(s.threads[t]).Some?
    ensures StarterOf(s.threads[i]) != StarterOf(s.threads[t])
  {
    hide Inv, SetsOk, BirthsOk, RunsOk, ThreadsOk, HeldMeansCleared, Alone, StartsHeld, StarterOf, ThreadOk;
    InvParts(s);
    ThreadAt(s, t);
    ThreadAt(s, i);
    if StarterOf(s.threads[i]) == StarterOf(s.threads[t]) {
      StartersApart(s, i, t);
    }
  }

  /** Every claim is on a launched run, so a run about to be launched is unclaimed. */
  lemma LaunchClaims(s: State, t: nat, th: Thread)
    requires Inv(s) && t < |s.threads| && th.Register? && th.run.id !in s.launched
    ensures ClaimsKept(s.threads, t, th)
  {
    hide Inv, ThreadOk;
    forall i: nat | i < |s.threads|
      ensures ChainOf(s.threads[i]) != Some(th.run.id) && FinalizerOf(s.threads[i]) != Some(th.run.id)
    {
      ThreadAt(s, i);
      ClaimLaunched(s, i);
    }
  }

  lemma LaunchShape(s: State, t: nat, run: Run, caller: Caller, o: Oracle)
    requires Inv(s) && t < |s.threads| && o.journaled && o.spawn.Started?
    requires run.id in s.runs && run.id !in s.launched && run.id !in s.planned && run.id !in s.verdicts
    requires run.id !in s.deciding && run.id in s.births && FitsRun(s.cfg, s.births[run.id], run) && Blank(run)
    ensures var s' := StartStep(s, t, run, caller, o);
            Grows(s, s') && SetsOk(s') && t < |s'.threads| && ThreadOk(s', t)
  {
    hide Inv, BirthsOk, RunsOk, ThreadsOk, HeldMeansCleared, Alone, StartsHeld, Count, FitsRun, Blank;
    InvParts(s);
  }

  lemma LaunchOther(s: State, s': State, id: string, other: Thread)
    requires s' == s.(threads := s'.threads, launched := s.launched + {id}) && StarterOf(other) != Some(id)
    ensures Undisturbed(s, s', other)
  {
    hide ChainOf, FinalizerOf, StarterOf, Count;
  }

  lemma LaunchRun(s: State, s': State, id: string, x: string)
    requires RunsOk(s) && s' == s.(threads := s'.threads, launched := s.launched + {id}) && x in s.runs && id in s.runs
    ensures RunUntouched(s, s', x)
  {
    hide Count, RunsOk, RunOk;
    ArmedOutside(s, x);
  }

  // --- the reservation is undone ---

  lemma UndoKeeps(s: State, t: nat, run: Run, caller: Caller, error: SpawnError)
    requires Inv(s) && t < |s.threads| && s.threads[t] == Undo(run, caller, error)
    ensures Inv(UndoStep(s, t, run, caller, error))
  {
    hide Inv, WideMove;
    UndoMove(s, t, run, caller, error);
    WideKeeps(s, UndoStep(s, t, run, caller, error), t, AfterFailure(caller, error));
  }

  lemma UndoMove(s: State, t: nat, run: Run, caller: Caller, error: SpawnError)
    requires Inv(s) && t < |s.threads| && s.threads[t] == Undo(run, caller, error)
    ensures WideMove(s, UndoStep(s, t, run, caller, error), t, AfterFailure(caller, error))
  {
    hide Inv, SetsOk, BirthsOk, RunsOk, ThreadsOk, HeldMeansCleared, Alone, StartsHeld, RunOk, Undisturbed, ThreadOk,
      ClaimsKept, Grows, SameFor, StarterOk, RunUntouched, Count, AfterFailure;
    var s', th := UndoStep(s, t, run, caller, error), AfterFailure(caller, error);
    InvParts(s);
    UnstartedAt(s, t, run.id);
    UndoThread(s, t, run, caller, error);
    HandClaims(s, t, th);
    UndoShape(s, t, run, caller, error);
    BirthsFrame(s, s');
    StartsWide(s, s', t, th);
    UndoHeld(s, t, run, caller, error);
    forall i: nat | i < |s.threads| && i != t ensures Undisturbed(s, s', s.threads[i]) {
      StarterElsewhere(s, t, i);
      ThreadAt(s, i);
      ClaimLaunched(s, i);
      UndoOther(s, s', run.id, s.threads[i]);
    }
    forall x | x in s'.runs ensures x in s.runs && RunUntouched(s, s', x) {
      UndoRun(s, s', run.id, x);
    }
  }

  lemma UndoThread(s: State, t: nat, run: Run, caller: Caller, error: SpawnError)
    requires Inv(s) && t < |s.threads| && s.threads[t] == Undo(run, caller, error)
    ensures var (s', th) := (UndoStep(s, t, run, caller, error), AfterFailure(caller, error));
            && ThreadOk(s', t) && FinalizerOf(th).None? && (ChainOf(th).None? || ChainOf(th) == ChainOf(s.threads[t]))
  {
    hide SameSetup, Inv, FitsRun, FitsPending;
    ThreadAt(s, t);
  }

  lemma UndoHeld(s: State, t: nat, run: Run, caller: Caller, error: SpawnError)
    requires HeldMeansCleared(s) && t < |s.threads|
    requires ChainOf(AfterFailure(caller, error)).None? || ChainOf(AfterFailure(caller, error)) == ChainOf(s.threads[t])
    ensures HeldMeansCleared(UndoStep(s, t, run, caller, error))
  {
    hide ChainOf, AfterFailure;
  }

  lemma UndoShape(s: State, t: nat, run: Run, caller: Caller, error: SpawnError)
    requires SetsOk(s) && t < |s.threads| && run.id !in s.launched
    ensures var s' := UndoStep(s, t, run, caller, error);
            Grows(s, s') && SetsOk(s')
  {
    hide Count;
  }

  lemma UndoOther(s: State, s': State, id: string, other: Thread)
    requires s' == s.(threads := s'.threads, runs := s.runs - {id}, stopEnded := s'.stopEnded)
    requires StarterOf(other) != Some(id) && FinalizerOf(other) != Some(id)
    ensures Undisturbed(s, s', other)
  {
    hide ChainOf, FinalizerOf, StarterOf, Count;
  }

  lemma UndoRun(s: State, s': State, id: string, x: string)
    requires RunsOk(s) && x in s'.runs
    requires s' == s.(threads := s'.threads, runs := s.runs - {id}, stopEnded := s.stopEnded - {id})
    ensures x in s.runs && RunUntouched(s, s', x)
  {
    hide Count, RunsOk, RunOk;
    ArmedOutside(s, x);
  }

  // --- the reservation ---

  /** A reserve-and-spawn call begins: counted, with or without the record. */
  ghost predicate Reserves(s: State, s': State, t: nat, run: Run, caller: Caller, th: Thread)
    requires t < |s.threads|
  {
    && s' == s.(attempts := Counted(s, caller), threads := s.threads[t := th], runs := s'.runs)
    && (s'.runs == s.runs || s'.runs == s.runs[run.id := run])
  }

  /** A record put is in the hand of the thread that put it. */
  ghost predicate StartTaken(s: State, s': State, th: Thread, run: Run) {
    s'.runs == s.runs || StartsRun(th, run.id)
  }

  lemma ReserveKeeps(s: State, t: nat, run: Run, caller: Caller, o: Oracle)
    requires Inv(s) && t < |s.threads| && s.threads[t] == Reserve(run, caller)
    ensures Inv(ReserveStep(s, t, run, caller, o))
  {
    hide Inv, WideMove, LaneFree, HolderChosen, Counted, Reserves, ThreadOk, ChainOf, FinalizerOf, StartTaken,
      LaneKeyOf;
    var s' := ReserveStep(s, t, run, caller, o);
    if !o.writable {
      ReserveRefused(s, t, run, caller, o);
      ReserveMove(s, s', t, run, caller, AfterFailure(caller, OtherFailure));
      WideKeeps(s, s', t, AfterFailure(caller, OtherFailure));
    } else if LaneFree(s.runs, "build", LaneKeyOf(run.meta)) {
      ReservePut(s, t, run, caller, o);
      ReserveMove(s, s', t, run, caller, Start(run, caller));
      WideKeeps(s, s', t, Start(run, caller));
    } else if HolderChosen(s, run, o) {
      ReserveJoined(s, t, run, caller, o);
      ReserveMove(s, s', t, run, caller, AfterReserve(caller, o.existing));
      WideKeeps(s, s', t, AfterReserve(caller, o.existing));
    }
  }

  lemma ReserveRefused(s: State, t: nat, run: Run, caller: Caller, o: Oracle)
    requires Inv(s) && t < |s.threads| && s.threads[t] == Reserve(run, caller) && !o.writable
    ensures var (s', th) := (ReserveStep(s, t, run, caller, o), AfterFailure(caller, OtherFailure));
            && Reserves(s, s', t, run, caller, th) && ThreadOk(s', t) && StartTaken(s, s', th, run)
            && FinalizerOf(th).None? && (ChainOf(th).None? || ChainOf(th) == ChainOf(s.threads[t]))
  {
    hide Inv, FitsRun, FitsPending;
    ThreadAt(s, t);
  }

  lemma ReservePut(s: State, t: nat, run: Run, caller: Caller, o: Oracle)
    requires Inv(s) && t < |s.threads| && s.threads[t] == Reserve(run, caller) && o.writable
    requires LaneFree(s.runs, "build", LaneKeyOf(run.meta))
    ensures var (s', th) := (ReserveStep(s, t, run, caller, o), Start(run, caller));
            && Reserves(s, s', t, run, caller, th) && ThreadOk(s', t) && StartTaken(s, s', th, run)
            && FinalizerOf(th).None? && (ChainOf(th).None? || ChainOf(th) == ChainOf(s.threads[t]))
  {
    hide Inv, FitsRun, FitsPending, LaneFree, LaneKeyOf;
    ThreadAt(s, t);
  }

  lemma ReserveJoined(s: State, t: nat, run: Run, caller: Caller, o: Oracle)
    requires Inv(s) && t < |s.threads| && s.threads[t] == Reserve(run, caller) && o.writable
    requires !LaneFree(s.runs, "build", LaneKeyOf(run.meta)) && HolderChosen(s, run, o)
    ensures var (s', th) := (ReserveStep(s, t, run, caller, o), AfterReserve(caller, o.existing));
            && Reserves(s, s', t, run, caller, th) && ThreadOk(s', t) && StartTaken(s, s', th, run)
            && FinalizerOf(th).None? && (ChainOf(th).None? || ChainOf(th) == ChainOf(s.threads[t]))
  {
    hide Inv, LaneFree, HolderChosen, LaneKeyOf, StarterOk, Counted;
  }

  lemma ReserveMove(s: State, s': State, t: nat, run: Run, caller: Caller, th: Thread)
    requires Inv(s) && t < |s.threads| && s.threads[t] == Reserve(run, caller) && Reserves(s, s', t, run, caller, th)
    requires ThreadOk(s', t) && StartTaken(s, s', th, run)
    requires FinalizerOf(th).None? && (ChainOf(th).None? || ChainOf(th) == ChainOf(s.threads[t]))
    ensures WideMove(s, s', t, th)
  {
    hide Inv, SetsOk, BirthsOk, RunsOk, ThreadsOk, HeldMeansCleared, Alone, StartsHeld, RunOk, Undisturbed, ThreadOk,
      ClaimsKept, Grows, SameFor, StarterOk, RunUntouched, Count, Reserves, ChainOf, FinalizerOf, StarterOf, Blank, FitsRun,
      StartTaken;
    InvParts(s);
    ReservingAt(s, t, run, caller);
    ReserveShape(s, s', t, run, caller, th);
    HandClaims(s, t, th);
    BirthsFrame(s, s');
    ReserveSets(s, s', t, run, caller, th);
    ReserveHeld(s, s', t, run, caller, th);
    ReserveStarts(s, s', t, run, caller, th);
    forall i: nat | i < |s.threads| && i != t ensures Undisturbed(s, s', s.threads[i]) {
      OthersElsewhere(s.threads, t, i);
      ReserverOf(s.threads[t]);
      StarterElsewhere(s, t, i);
      ReserveOther(s, s', t, run, caller, th, s.threads[i]);
    }
    forall x | x in s'.runs ensures RunOk(s', x) || (x in s.runs && RunUntouched(s, s', x)) {
      ReserveRun(s, s', t, run, caller, th, x);
    }
  }

  lemma ReserverOf(th: Thread)
    requires th.Reserve?
    ensures StarterOf(th) == Some(th.run.id)
    ensures ChainOf(th) == if th.caller.ByFiring? then Some(th.caller.pred) else None
  {}

  lemma ReserveShape(s: State, s': State, t: nat, run: Run, caller: Caller, th: Thread)
    requires t < |s.threads| && Reserves(s, s', t, run, caller, th)
    ensures Grows(s, s') && s'.threads == s.threads[t := th] && s'.births == s.births
  {
    hide Counted;
  }

  /** What a thread about to reserve knows. */
  lemma ReservingAt(s: State, t: nat, run: Run, caller: Caller)
    requires Inv(s) && t < |s.threads| && s.threads[t] == Reserve(run, caller)
    ensures run.id !in s.runs && run.id !in s.launched && run.id in s.births
    ensures Blank(run) && FitsRun(s.cfg, s.births[run.id], run)
    ensures caller.ByFiring? ==>
              && caller.pred in s.planned && Count(s.attempts, caller.pred) <= MAX_SPAWN_RETRIES
              && s.births[run.id].owner == SuccessorOf(caller.pred)
              && (caller.pred in s.runs ==> s.runs[caller.pred].pendingResume.None?)
    ensures caller.ByPost? ==> s.births[run.id].owner.Posted?
  {
    hide Inv, FitsRun, FitsPending, Blank;
    ThreadAt(s, t);
    if caller.ByFiring? && caller.pred in s.runs {
      HeldAt(s, t, caller.pred);
    }
  }

  lemma ReserveSets(s: State, s': State, t: nat, run: Run, caller: Caller, th: Thread)
    requires Inv(s) && t < |s.threads| && s.threads[t] == Reserve(run, caller) && Reserves(s, s', t, run, caller, th)
    ensures SetsOk(s')
  {
    hide Inv, BirthsOk, RunsOk, ThreadsOk, HeldMeansCleared, Alone, StartsHeld, FitsRun, Blank;
    InvParts(s);
    ReservingAt(s, t, run, caller);
  }

  lemma ReserveStarts(s: State, s': State, t: nat, run: Run, caller: Caller, th: Thread)
    requires Inv(s) && t < |s.threads| && s.threads[t] == Reserve(run, caller) && Reserves(s, s', t, run, caller, th)
    requires StartTaken(s, s', th, run)
    ensures StartsHeld(s')
  {
    hide Inv, SetsOk, BirthsOk, RunsOk, ThreadsOk, HeldMeansCleared, Alone, StartsHeld, Counted, Reserves;
    InvParts(s);
    ReservesWhat(s, s', t, run, caller, th);
    StartsWide(s, s', t, th);
  }

  lemma ReservesWhat(s: State, s': State, t: nat, run: Run, caller: Caller, th: Thread)
    requires t < |s.threads| && Reserves(s, s', t, run, caller, th)
    ensures s'.threads == s.threads[t := th] && s'.launched == s.launched
    ensures s'.runs == s.runs || s'.runs == s.runs[run.id := run]
  {
    hide Counted;
  }

  lemma ReserveHeld(s: State, s': State, t: nat, run: Run, caller: Caller, th: Thread)
    requires Inv(s) && t < |s.threads| && s.threads[t] == Reserve(run, caller) && Reserves(s, s', t, run, caller, th)
    requires ChainOf(th).None? || ChainOf(th) == ChainOf(s.threads[t])
    ensures HeldMeansCleared(s')
  {
    hide Inv, SetsOk, BirthsOk, RunsOk, ThreadsOk, HeldMeansCleared, Alone, StartsHeld, FitsRun, Count, Counted, ChainOf;
    InvParts(s);
    ReservingAt(s, t, run, caller);
    ReserverOf(s.threads[t]);
    HeldWide(s, s', t, th);
  }

  lemma ReserveOther(s: State, s': State, t: nat, run: Run, caller: Caller, th: Thread, other: Thread)
    requires t < |s.threads| && Reserves(s, s', t, run, caller, th) && run.id !in s.runs
    requires caller.ByFiring? ==> ChainOf(other) != Some(caller.pred)
    requires StarterOf(other) != Some(run.id)
    ensures Undisturbed(s, s', other)
  {
    hide ChainOf, FinalizerOf, StarterOf;
  }

  lemma ReserveRun(s: State, s': State, t: nat, run: Run, caller: Caller, th: Thread, x: string)
    requires Inv(s) && t < |s.threads| && s.threads[t] == Reserve(run, caller) && Reserves(s, s', t, run, caller, th)
    requires x in s'.runs
    ensures RunOk(s', x) || (x in s.runs && RunUntouched(s, s', x))
  {
    hide Inv, Reserves, RunOk, RunUntouched, FitsRun, Blank, Count;
    ReservingAt(s, t, run, caller);
    ReserveKeys(s, s', t, run, caller, th);
    if x == run.id {
      Unlaunched(s, run.id);
      ReservedRun(s, s', t, run, caller, th);
    } else if caller.ByFiring? && x == caller.pred {
      RunAt(s, x);
      ReservePred(s, s', t, run, caller, th);
    } else {
      RunAt(s, x);
      ReserveBystander(s, s', t, run, caller, th, x);
    }
  }

  lemma ReserveKeys(s: State, s': State, t: nat, run: Run, caller: Caller, th: Thread)
    requires t < |s.threads| && Reserves(s, s', t, run, caller, th)
    ensures forall x | x in s'.runs :: x in s.runs || x == run.id
    ensures run.id !in s.runs && run.id in s'.runs ==> s'.runs[run.id] == run
  {
    hide Counted;
  }

  lemma ReservedRun(s: State, s': State, t: nat, run: Run, caller: Caller, th: Thread)
    requires t < |s.threads| && Reserves(s, s', t, run, caller, th) && run.id in s'.runs && run.id !in s.runs
    requires run.id in s.births && Blank(run) && FitsRun(s.cfg, s.births[run.id], run)
    requires run.id !in s.deciding && Count(s.pushes, run.id) == 0
    ensures RunOk(s', run.id)
  {
    hide Counted, Count;
  }

  lemma ReservePred(s: State, s': State, t: nat, run: Run, caller: Caller, th: Thread)
    requires t < |s.threads| && Reserves(s, s', t, run, caller, th) && caller.ByFiring?
    requires caller.pred in s.runs && caller.pred != run.id && RunOk(s, caller.pred)
    requires s.runs[caller.pred].pendingResume.None?
    ensures caller.pred in s'.runs && RunOk(s', caller.pred)
  {
    hide Counted, Count;
  }

  /** A run with a resume armed did not ask for this reservation, and it is not for its successor. */
  lemma ReserveBystander(s: State, s': State, t: nat, run: Run, caller: Caller, th: Thread, x: string)
    requires t < |s.threads| && Reserves(s, s', t, run, caller, th) && run.id !in s.runs && x in s.runs && RunOk(s, x)
    requires run.id in s.births && s.births[run.id].owner != SuccessorOf(x)
    requires caller.ByFiring? ==> x != caller.pred
    ensures RunUntouched(s, s', x)
  {
    hide FitsRun, FitsPending;
  }

  lemma ReadPredKeeps(s: State, t: nat, pred: string, p: PendingResume, rest: seq<string>, o: Oracle)
    requires Inv(s) && t < |s.threads| && s.threads[t] == ReadPred(pred, p, rest)
    ensures Inv(ReadPredStep(s, t, pred, p, rest, o))
  {
    hide Inv, ThreadOk, Quiet, Next, SuccessorRun;
    if pred !in s.runs || s.runs[pred].stopRequested {
      QuietNext(rest);
      QuietKeeps(s, t, Next(rest));
    } else {
      ReadPredThread(s, t, pred, p, rest, o);
      GotoKeeps(s, t, Reserve(SuccessorRun(s.runs[pred], p, o), ByFiring(pred, p, rest)));
    }
  }

  lemma ReadPredThread(s: State, t: nat, pred: string, p: PendingResume, rest: seq<string>, o: Oracle)
    requires Inv(s) && t < |s.threads| && s.threads[t] == ReadPred(pred, p, rest) && pred in s.runs
    ensures ThreadOk(Goto(s, t, Reserve(SuccessorRun(s.runs[pred], p, o), ByFiring(pred, p, rest))), t)
  {
    hide Inv, ResolveEngine, Follows;
    ThreadAt(s, t);
    RunAt(s, pred);
    BirthAt(s, p.successorId);
    ResolvedTwice(s.runs[pred].engine);
  }

  lemma ResolvedTwice(engine: string)
    ensures ResolveEngine(ResolveEngine(engine)) == ResolveEngine(engine)
  {}
}
