/** The invariant of the build engine in every run: any start the journal can leave, any interleaving of
    POSTs, exits, timers, sweeps and stops. */
module BuildReach {
  import opened Wrappers
  import opened Runs
  import opened ResumePlan
  import opened BuildEngine
  import opened BuildInvariant
  import opened BuildFrames
  import opened BuildSteps
  import opened BuildSpawn

  // --- the start ---

  /** A resume the journal brought back. */
  ghost predicate BootPending(s: State, id: string, p: PendingResume)
    requires id in s.runs
  {
    var r := s.runs[id];
    && !r.IsRunning() && r.pushedAt.None?
    && p.successorId in s.births && p.successorId !in s.runs
    && s.births[p.successorId]
       == Birth(SuccessorOf(id), id, r.firstStartedAt, p.firstStartedAt - r.firstStartedAt, r.resumeCount + 1, SpecOf(r))
    && 0 <= p.firstStartedAt - r.firstStartedAt <= s.caps.wait
    && p.resumeCount == r.resumeCount + 1 <= s.caps.depth && p.noProgressStreak < s.cfg.noProgressLimit
    && p.spawnAttempts <= MAX_SPAWN_RETRIES && Count(s.attempts, id) == p.spawnAttempts
  }

  ghost predicate BootRun(s: State, id: string)
    requires id in s.runs
  {
    var r := s.runs[id];
    && r.id == id && !r.finalizing
    && r.resumeCount <= s.caps.depth && r.noProgressStreak < s.cfg.noProgressLimit
    && id in s.births && s.births[id] == Birth(AtBoot, id, r.firstStartedAt, 0, r.resumeCount, SpecOf(r))
    && (id in s.verdicts <==> !r.IsRunning()) && (id in s.verdicts ==> s.verdicts[id] == EndedBeforeBoot)
    && (id in s.planned <==> r.pendingResume.Some?)
    && (r.pendingResume.Some? ==> BootPending(s, id, r.pendingResume.value))
    && (r.IsRunning() ==> r.pushedAt.None?)
  }

  /** A born id is a record's, or the successor of a record that has it armed. */
  ghost predicate BootBirth(s: State, id: string)
    requires id in s.births
  {
    || id in s.runs
    || (s.births[id].owner.SuccessorOf? && s.births[id].owner.pred in s.runs
        && var r := s.runs[s.births[id].owner.pred];
           r.pendingResume.Some? && r.pendingResume.value.successorId == id)
  }

  /** Every running build is watched by at most one thread; the other threads are calls and timers. */
  ghost predicate BootThread(s: State, t: nat)
    requires t < |s.threads|
  {
    || Quiet(s.threads[t])
    || (s.threads[t].BeginFinalizing? && s.threads[t].id in s.runs && s.runs[s.threads[t].id].IsRunning()
        && forall i | 0 <= i < |s.threads| && i != t :: ChainOf(s.threads[i]) != ChainOf(s.threads[t]))
  }

  /** A process that has just reloaded its journal: nothing decided by it yet, nothing pushed. */
  ghost predicate Boot(s: State) {
    && ValidConfig(s.cfg) && WithinCaps(s.cfg, s.caps)
    && s.launched == s.runs.Keys && s.deciding == {} && s.pushes == map[]
    && s.planned <= s.runs.Keys && s.verdicts.Keys <= s.runs.Keys && s.attempts.Keys <= s.planned
    && (forall id | id in s.runs :: BootRun(s, id))
    && (forall id | id in s.births :: BootBirth(s, id))
    && (forall t: nat | t < |s.threads| :: BootThread(s, t))
  }

  lemma BootInv(s: State)
    requires Boot(s)
    ensures Inv(s)
  {
    hide Inv, SetsOk, BirthsOk, RunsOk, ThreadsOk, HeldMeansCleared, Alone, StartsHeld, Boot;
    BootSets(s);
    BootBirths(s);
    BootRuns(s);
    BootThreads(s);
    BootAlone(s);
    BootStarts(s);
    InvWhole(s);
  }

  lemma BootStarts(s: State)
    requires Boot(s)
    ensures StartsHeld(s)
  {
    hide StartsRun, BootRun, BootBirth, BootThread;
  }

  lemma BootRunAt(s: State, id: string)
    requires Boot(s) && id in s.runs
    ensures BootRun(s, id) && s.launched == s.runs.Keys && id !in s.deciding && Count(s.pushes, id) == 0
  {
    hide BootRun, BootBirth, BootThread;
  }

  lemma BootSets(s: State)
    requires Boot(s)
    ensures SetsOk(s)
  {
    hide BootBirth, BootThread, BootRun;
    forall id | id in s.planned ensures id in s.runs && id in s.verdicts && Count(s.attempts, id) <= MAX_SPAWN_RETRIES {
      BootPlanned(s, id);
    }
  }

  lemma BootPlanned(s: State, id: string)
    requires id in s.runs && id in s.planned && BootRun(s, id)
    ensures id in s.verdicts && Count(s.attempts, id) <= MAX_SPAWN_RETRIES
  {
    hide Count;
  }

  lemma BootRuns(s: State)
    requires Boot(s)
    ensures RunsOk(s)
  {
    hide RunOk, Boot, BootRun, Count;
    forall id | id in s.runs ensures RunOk(s, id) {
      BootRunAt(s, id);
      BootRunOk(s, id);
    }
  }

  lemma BootRunOk(s: State, id: string)
    requires id in s.runs && BootRun(s, id) && s.launched == s.runs.Keys && id !in s.deciding && Count(s.pushes, id) == 0
    ensures RunOk(s, id)
  {
    hide Count;
  }

  lemma BootBirths(s: State)
    requires Boot(s)
    ensures BirthsOk(s)
  {
    hide Boot, BootRun, BirthOk, Count;
    forall id | id in s.births ensures BirthOk(s, id) && !s.births[id].owner.Posted? {
      BootBirthOk(s, id);
    }
    forall a, b | a in s.births && b in s.births && a != b && s.births[a].owner.SuccessorOf?
      ensures s.births[a].owner != s.births[b].owner
    {
      BootBirthOk(s, a);
      BootBirthOk(s, b);
    }
  }

  lemma BootBirthOk(s: State, id: string)
    requires Boot(s) && id in s.births
    ensures BirthOk(s, id) && !s.births[id].owner.Posted?
    ensures s.births[id].owner.SuccessorOf? ==>
              var pred := s.births[id].owner.pred;
              pred in s.runs && s.runs[pred].pendingResume.Some? && s.runs[pred].pendingResume.value.successorId == id
  {
    hide Boot, BootRun, BirthOk, Count, BootPending;
    assert BootBirth(s, id) by { BootBirthAt(s, id); }
    if id in s.runs {
      BootRunAt(s, id);
      BootOwnBirth(s, id);
    } else {
      BootRunAt(s, s.births[id].owner.pred);
      BootNextBirth(s, s.births[id].owner.pred);
    }
  }

  lemma BootBirthAt(s: State, id: string)
    requires Boot(s) && id in s.births
    ensures BootBirth(s, id)
  {
    hide BootRun, BootBirth, BootThread;
  }

  lemma BootOwnBirth(s: State, id: string)
    requires id in s.runs && BootRun(s, id)
    ensures BirthOk(s, id) && s.births[id].owner == AtBoot
  {
    hide Count, BootPending;
  }

  lemma BootNextBirth(s: State, pred: string)
    requires pred in s.runs && BootRun(s, pred) && s.runs[pred].pendingResume.Some?
    ensures var id := s.runs[pred].pendingResume.value.successorId;
            id in s.births && BirthOk(s, id) && s.births[id].owner == SuccessorOf(pred)
  {
    hide Count;
  }

  lemma BootThreads(s: State)
    requires Boot(s)
    ensures ThreadsOk(s) && HeldMeansCleared(s)
  {
    hide Boot, ThreadOk, Quiet, BootRun;
    forall t: nat | t < |s.threads|
      ensures ThreadOk(s, t)
      ensures ChainOf(s.threads[t]).Some? ==>
                var id := ChainOf(s.threads[t]).value; id in s.runs ==> s.runs[id].pendingResume.None?
    {
      BootThreadAt(s, t);
      if Quiet(s.threads[t]) {
        QuietOk(s, t);
        QuietHasNone(s.threads[t]);
      } else {
        BootRunAt(s, s.threads[t].id);
        BootWatcher(s, t);
      }
    }
  }

  lemma QuietHasNone(th: Thread)
    requires Quiet(th)
    ensures ChainOf(th).None? && FinalizerOf(th).None?
  {
    hide ChainOf, FinalizerOf, StarterOf;
  }

  lemma BootThreadAt(s: State, t: nat)
    requires Boot(s) && t < |s.threads|
    ensures BootThread(s, t)
  {
    hide BootRun, BootBirth, BootThread;
  }

  lemma BootWatcher(s: State, t: nat)
    requires t < |s.threads| && s.threads[t].BeginFinalizing?
    requires var id := s.threads[t].id;
             && id in s.runs && s.runs[id].IsRunning() && BootRun(s, id) && id in s.launched && id !in s.deciding
    ensures ThreadOk(s, t) && s.runs[s.threads[t].id].pendingResume.None?
    ensures ChainOf(s.threads[t]) == Some(s.threads[t].id)
  {
    hide Count;
  }

  lemma BootAlone(s: State)
    requires Boot(s)
    ensures Alone(s.threads)
  {
    hide Boot, ChainOf, FinalizerOf;
    forall i: nat, j: nat | i < |s.threads| && j < |s.threads| && i != j
      ensures ChainOf(s.threads[i]).Some? ==> ChainOf(s.threads[i]) != ChainOf(s.threads[j])
      ensures FinalizerOf(s.threads[i]).Some? ==> FinalizerOf(s.threads[i]) != FinalizerOf(s.threads[j])
    {
      BootThreadAt(s, i);
      BootThreadAt(s, j);
      WatcherClaims(s.threads[i]);
      WatcherClaims(s.threads[j]);
    }
  }

  lemma WatcherClaims(th: Thread)
    requires Quiet(th) || th.BeginFinalizing?
    ensures ChainOf(th) == FinalizerOf(th) && (Quiet(th) ==> ChainOf(th).None?)
  {}

  // --- every run keeps the invariant ---

  /** The clock moves. */
  lemma ClockKeeps(s: State, now: int)
    requires Inv(s)
    ensures Inv(s.(now := now))
  {
    hide Inv, SetsOk, BirthsOk, RunsOk, ThreadsOk, HeldMeansCleared, Alone, StartsHeld;
    InvParts(s);
    Elsewhere(s, s.(now := now), []);
    InvWhole(s.(now := now));
  }

  lemma CallKeeps(s: State, th: Thread)
    requires Inv(s) && Entry(th)
    ensures Inv(s.(threads := s.threads + [th]))
  {
    hide Inv, SetsOk, BirthsOk, RunsOk, ThreadsOk, HeldMeansCleared, Alone, StartsHeld;
    InvParts(s);
    Elsewhere(s, s.(threads := s.threads + [th]), [th]);
    InvWhole(s.(threads := s.threads + [th]));
  }

  /** Only quiet threads are added, and the clock and the idempotency map change. */
  lemma Elsewhere(s: State, s': State, extra: seq<Thread>)
    requires SetsOk(s) && BirthsOk(s) && RunsOk(s) && ThreadsOk(s) && HeldMeansCleared(s) && Alone(s.threads)
    requires StartsHeld(s)
    requires s' == s.(now := s'.now, idem := s'.idem, threads := s.threads + extra) && |extra| <= 1
    requires forall e <- extra :: Quiet(e)
    ensures SetsOk(s') && BirthsOk(s') && RunsOk(s') && ThreadsOk(s') && HeldMeansCleared(s') && Alone(s'.threads)
    ensures StartsHeld(s')
  {
    hide SetsOk, RunsOk, ThreadsOk, HeldMeansCleared, Alone, BirthsOk, StartsHeld, Quiet;
    assert s'.threads != s.threads ==> s'.threads[|s.threads|] == extra[0] && extra[0] in extra;
    SetsFrame(s, s');
    BirthsFrame(s, s');
    ElseThreads(s, s');
    ElseRuns(s, s');
    ElseAlone(s, s');
    ElseStarts(s, s');
  }

  lemma ElseThreads(s: State, s': State)
    requires ThreadsOk(s) && HeldMeansCleared(s) && s' == s.(now := s'.now, idem := s'.idem, threads := s'.threads)
    requires |s.threads| <= |s'.threads| && s'.threads[..|s.threads|] == s.threads
    requires forall i | |s.threads| <= i < |s'.threads| :: Quiet(s'.threads[i])
    ensures ThreadsOk(s') && HeldMeansCleared(s')
  {
    hide ThreadOk, Quiet, ChainOf, FinalizerOf, StarterOf, Undisturbed;
    forall t: nat | t < |s'.threads|
      ensures ThreadOk(s', t)
      ensures ChainOf(s'.threads[t]).Some? ==>
                var id := ChainOf(s'.threads[t]).value; id in s'.runs ==> s'.runs[id].pendingResume.None?
    {
      if t < |s.threads| {
        assert s'.threads[t] == s.threads[t];
        ClockBlind(s, s', t);
      } else {
        QuietOk(s', t);
        QuietHasNone(s'.threads[t]);
      }
    }
  }

  lemma ClockBlind(s: State, s': State, t: nat)
    requires s' == s.(now := s'.now, idem := s'.idem, threads := s'.threads) && t < |s.threads| && t < |s'.threads|
    requires s'.threads[t] == s.threads[t] && ThreadOk(s, t)
    ensures ThreadOk(s', t)
  {
    hide FitsRun, FitsPending, Count;
  }

  lemma ElseRuns(s: State, s': State)
    requires RunsOk(s) && s' == s.(now := s'.now, idem := s'.idem, threads := s'.threads)
    ensures RunsOk(s')
  {
    hide FitsRun, FitsPending, Count;
  }

  lemma ElseAlone(s: State, s': State)
    requires Alone(s.threads) && |s.threads| <= |s'.threads| <= |s.threads| + 1 && s'.threads[..|s.threads|] == s.threads
    requires forall i | |s.threads| <= i < |s'.threads| :: Quiet(s'.threads[i])
    ensures Alone(s'.threads)
  {
    hide ChainOf, FinalizerOf, StarterOf;
    assert forall i | 0 <= i < |s.threads| :: s'.threads[i] == s.threads[i];
  }

  lemma ElseStarts(s: State, s': State)
    requires StartsHeld(s) && s'.runs == s.runs && s'.launched == s.launched
    requires |s.threads| <= |s'.threads| && s'.threads[..|s.threads|] == s.threads
    ensures StartsHeld(s')
  {
    hide StartsRun;
    assert forall i | 0 <= i < |s.threads| :: s'.threads[i] == s.threads[i];
  }

  lemma StepKeeps(s: State, t: nat, o: Oracle)
    requires Inv(s) && t < |s.threads| && o.freshId !in s.births
    ensures Inv(ThreadStep(s, t, o))
  {
    hide SameSetup, Inv, Goto, Quiet, LookupStep, AdoptStep, ReserveStep, StartStep, RegisterStep, UndoStep, BeginStep,
      FinalizeStep, ReadFinalStep, DecideStep, ArmStep, EndStep, ClearStep, ReadPredStep, RearmStep, WatchStep, DueList, StopReadStep,
      StopFlagStep, StopFinalizeStep, Next;
    match s.threads[t]
    case Finished =>
    case Lookup(req) => LookupKeeps(s, t, req, o);
    case Adopt(req, existing) => AdoptKeeps(s, t, req, existing, o);
    case Remember(key, id) => RememberKeeps(s, t, key, id);
    case Reserve(run, caller) => ReserveKeeps(s, t, run, caller, o);
    case Start(run, caller) => StartKeeps(s, t, run, caller, o);
    case Register(run, pid, caller) => RegisterKeeps(s, t, run, pid, caller, o);
    case Undo(run, caller, error) => UndoKeeps(s, t, run, caller, error);
    case BeginFinalizing(id, exit) => BeginKeeps(s, t, id, exit);
    case Finalize(id, exit) => FinalizeKeeps(s, t, id, exit);
    case ReadFinal(id, exit) => ReadFinalKeeps(s, t, id, exit);
    case Decide(run, cause) => DecideKeeps(s, t, run, cause, o);
    case Arm(id, succ, r) => ArmKeeps(s, t, id, succ, r, o);
    case EndFinalizing(id) => EndKeeps(s, t, id);
    case Clear(id, rest) => ClearKeeps(s, t, id, rest);
    case ReadPred(pred, p, rest) => ReadPredKeeps(s, t, pred, p, rest, o);
    case Rearm(pred, p, rest) => RearmKeeps(s, t, pred, p, rest, o);
    case Watch(id) => WatchKeeps(s, t, id, o);
    case SweepList => SweepListKeeps(s, t, o);
    case StopRead(id) => StopReadKeeps(s, t, id);
    case StopFlag(id) => StopFlagKeeps(s, t, id, StopFinalize(id));
    case StopFinalize(id) => StopFinalizeKeeps(s, t, id);
    case StopCancel(id) => StopFlagKeeps(s, t, id, Finished);
  }

  lemma RememberKeeps(s: State, t: nat, key: string, id: string)
    requires Inv(s) && t < |s.threads| && s.threads[t].Remember?
    ensures Inv(Goto(s, t, Finished).(idem := s.idem[key := id]))
  {
    hide Inv, SetsOk, BirthsOk, RunsOk, ThreadsOk, HeldMeansCleared, Alone, StartsHeld;
    var s', a := Goto(s, t, Finished).(idem := s.idem[key := id]), Goto(s, t, Finished);
    FinishKeeps(s, t);
    InvParts(a);
    Elsewhere(a, s', []);
    InvWhole(s');
  }

  lemma SweepListKeeps(s: State, t: nat, o: Oracle)
    requires Inv(s) && t < |s.threads| && s.threads[t].SweepList?
    ensures Inv(Goto(s, t, Next(o.due)))
  {
    hide Inv, Quiet, Next;
    QuietNext(o.due);
    QuietKeeps(s, t, Next(o.due));
  }

  lemma StopReadKeeps(s: State, t: nat, id: string)
    requires Inv(s) && t < |s.threads| && s.threads[t].StopRead?
    ensures Inv(StopReadStep(s, t, id))
  {
    hide Inv;
    QuietKeeps(s, t, Finished);
    QuietKeeps(s, t, StopFlag(id));
    QuietKeeps(s, t, StopCancel(id));
  }

  lemma HappenKeeps(s: State, e: Event)
    requires Inv(s)
    ensures Inv(Happen(s, e))
  {
    hide Inv, ThreadStep;
    match e
    case Call(th) => if Entry(th) { CallKeeps(s, th); }
    case Step(t, o) =>
      if t < |s.threads| && Fair(s, o) {
        ClockKeeps(s, o.now);
        StepKeeps(s.(now := o.now), t, o);
      }
  }

  lemma StepSetup(s: State, t: nat, o: Oracle)
    requires t < |s.threads|
    ensures SameSetup(s, ThreadStep(s, t, o))
  {
    hide LookupStep, AdoptStep, ReserveStep, StartStep, RegisterStep, UndoStep, BeginStep, FinalizeStep, ReadFinalStep,
      DecideStep, ArmStep, EndStep, ClearStep, ReadPredStep, RearmStep, WatchStep, StopReadStep, StopFlagStep,
      StopFinalizeStep, DueList, Next, SpecOf;
    match s.threads[t]
    case Decide(run, cause) => DecideSetup(s, t, run, cause, o);
    case _ =>
  }

  lemma DecideSetup(s: State, t: nat, run: Run, cause: RedriveCause, o: Oracle)
    requires t < |s.threads|
    ensures SameSetup(s, DecideStep(s, t, run, cause, o))
  {
    hide PlanResume, PushIfComplete, SpecOf;
    var _ := PushIfComplete(s, run, o);
  }

  lemma {:induction false} SetupStays(s: State, events: seq<Event>)
    ensures SameSetup(s, After(s, events))
  {
    hide ThreadStep;
    if events != [] {
      SetupStays(s, events[..|events| - 1]);
      match events[|events| - 1]
      case Call(_) =>
      case Step(t, o) =>
        var a := After(s, events[..|events| - 1]);
        if t < |a.threads| { StepSetup(a.(now := o.now), t, o); }
    }
  }

  lemma {:induction false} AlwaysInv(s: State, events: seq<Event>)
    requires Boot(s)
    ensures Inv(After(s, events))
  {
    hide Inv, Boot, Happen;
    if events == [] {
      BootInv(s);
    } else {
      AlwaysInv(s, events[..|events| - 1]);
      HappenKeeps(After(s, events[..|events| - 1]), events[|events| - 1]);
    }
  }
}
