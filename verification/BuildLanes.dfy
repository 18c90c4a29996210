/** Lanes: no two running builds come to share one, from any state of the engine whatsoever. */
module BuildLanes {
  import opened Wrappers
  import opened Runs
  import opened ResumePlan
  import opened MemStore
  import opened BuildEngine

  /** At most one record changed, and it was neither revived nor moved. */
  ghost predicate Calm(runs: RunMap, after: RunMap, id: string) {
    || after == runs
    || (id in runs && id in after && after == runs[id := after[id]] && after[id].meta == runs[id].meta
        && (after[id].IsRunning() ==> runs[id].IsRunning()))
  }

  lemma CalmPairs(runs: RunMap, after: RunMap, id: string)
    requires Calm(runs, after, id)
    ensures NoNewPair(runs, after)
  {
    hide NoNewPair;
    if after == runs { SamePairs(runs); } else { ChangeKeepsLanes(runs, id, after[id]); }
  }

  lemma ChangeCalm(runs: RunMap, after: RunMap, id: string, r: Run)
    requires id in runs && after == runs[id := r] && r.meta == runs[id].meta && (r.IsRunning() ==> runs[id].IsRunning())
    ensures Calm(runs, after, id)
  {}

  lemma SameCalm(runs: RunMap, after: RunMap, id: string)
    requires after == runs
    ensures Calm(runs, after, id)
  {}

  lemma SamePairs(runs: RunMap)
    ensures NoNewPair(runs, runs)
  {}

  lemma MorePairs(a: RunMap, b: RunMap, c: RunMap)
    requires NoNewPair(a, b) && NoNewPair(b, c)
    ensures NoNewPair(a, c)
  {
    hide Share;
  }

  lemma GotoLanes(s: State, t: nat, th: Thread)
    requires t < |s.threads|
    ensures Goto(s, t, th).runs == s.runs
  {}

  lemma LookupLanes(s: State, t: nat, req: SpawnReq, o: Oracle)
    requires t < |s.threads|
    ensures LookupStep(s, t, req, o).runs == s.runs
  {
    hide NewRun, SpecOf;
    if req.prompt == "" {
    } else if req.key.Some? && req.key.value in s.idem {
    } else {
    }
  }

  lemma AdoptLanes(s: State, t: nat, req: SpawnReq, existing: string, o: Oracle)
    requires t < |s.threads|
    ensures AdoptStep(s, t, req, existing, o).runs == s.runs
  {
    hide NewRun, SpecOf;
    if existing in s.runs {} else {}
  }

  lemma StartLanes(s: State, t: nat, run: Run, caller: Caller, o: Oracle)
    requires t < |s.threads|
    ensures StartStep(s, t, run, caller, o).runs == s.runs
  {
    hide SameSetup;
    if !o.journaled {
    } else {
      match o.spawn
      case SpawnFailed(_) =>
      case Started(_) =>
    }
  }

  lemma ReadFinalLanes(s: State, t: nat, id: string, exit: ExitNote)
    requires t < |s.threads|
    ensures ReadFinalStep(s, t, id, exit).runs == s.runs
  {
    hide CauseOf;
    if id in s.runs {} else {}
  }

  lemma ReadPredLanes(s: State, t: nat, pred: string, p: PendingResume, rest: seq<string>, o: Oracle)
    requires t < |s.threads|
    ensures ReadPredStep(s, t, pred, p, rest, o).runs == s.runs
  {
    hide SuccessorRun, Next;
    if pred !in s.runs || s.runs[pred].stopRequested {} else {}
  }

  lemma StopReadLanes(s: State, t: nat, id: string)
    requires t < |s.threads|
    ensures StopReadStep(s, t, id).runs == s.runs
  {
    if id !in s.runs {
    } else if s.runs[id].IsRunning() {
    } else if s.runs[id].pendingResume.Some? {
    } else {
    }
  }

  lemma ReserveLanes(s: State, t: nat, run: Run, caller: Caller, o: Oracle)
    requires t < |s.threads|
    ensures NoNewPair(s.runs, ReserveStep(s, t, run, caller, o).runs)
  {
    hide NoNewPair, LaneFree, LaneKeyOf, HolderChosen, AfterReserve, AfterFailure, Counted;
    SamePairs(s.runs);
    if LaneFree(s.runs, "build", LaneKeyOf(run.meta)) { ReserveKeepsLanes(s.runs, LaneKeyOf(run.meta), run); }
  }

  lemma BeginLanes(s: State, t: nat, id: string, exit: ExitNote)
    requires t < |s.threads|
    ensures Calm(s.runs, BeginStep(s, t, id, exit).runs, id)
  {
    hide Calm;
    var s' := BeginStep(s, t, id, exit);
    if id in s.runs && s.runs[id].IsRunning() {
      ChangeCalm(s.runs, s'.runs, id, s.runs[id].(finalizing := true));
    } else {
      SameCalm(s.runs, s'.runs, id);
    }
  }

  lemma FinalizeLanes(s: State, t: nat, id: string, exit: ExitNote)
    requires t < |s.threads|
    ensures Calm(s.runs, FinalizeStep(s, t, id, exit).runs, id)
  {
    hide Calm;
    var s' := FinalizeStep(s, t, id, exit);
    if id in s.runs && s.runs[id].IsRunning() {
      ChangeCalm(s.runs, s'.runs, id, FinalizedRun(s.runs[id], exit.code));
    } else {
      SameCalm(s.runs, s'.runs, id);
    }
  }

  lemma PushLanes(s: State, run: Run, o: Oracle)
    ensures Calm(s.runs, PushIfComplete(s, run, o).runs, run.id)
  {
    hide WantsPush, Count, Calm;
    var s' := PushIfComplete(s, run, o);
    if WantsPush(s, run, o.lines) && run.id in s.runs && s.runs[run.id].pushedAt.None? {
      ChangeCalm(s.runs, s'.runs, run.id, s.runs[run.id].(pushedAt := Some(o.now)));
    } else {
      SameCalm(s.runs, s'.runs, run.id);
    }
  }

  lemma DecideLanes(s: State, t: nat, run: Run, cause: RedriveCause, o: Oracle)
    requires t < |s.threads|
    ensures DecideStep(s, t, run, cause, o).runs == PushIfComplete(s, run, o).runs
  {
    hide PlanResume, PushIfComplete, SpecOf, Count;
    if PlanResume(s.cfg, s.reader, run, o.lines, cause, PlanClock(o.atDetect, o.now), o.fingerprint).Stay? {
    } else {
    }
  }

  lemma ArmLanes(s: State, t: nat, id: string, succ: string, r: Resume, o: Oracle)
    requires t < |s.threads|
    ensures Calm(s.runs, ArmStep(s, t, id, succ, r, o).runs, id)
  {
    hide Pending, Calm;
    var s' := ArmStep(s, t, id, succ, r, o);
    if id in s.runs && !s.runs[id].stopRequested {
      ChangeCalm(s.runs, s'.runs, id, s.runs[id].(pendingResume := Some(Pending(succ, r, o.now))));
    } else {
      SameCalm(s.runs, s'.runs, id);
    }
  }

  lemma ClearLanes(s: State, t: nat, id: string, rest: seq<string>)
    requires t < |s.threads|
    ensures Calm(s.runs, ClearStep(s, t, id, rest).runs, id)
  {
    hide Next, Calm;
    var s' := ClearStep(s, t, id, rest);
    if id in s.runs && s.runs[id].pendingResume.Some? {
      ChangeCalm(s.runs, s'.runs, id, s.runs[id].(pendingResume := None));
    } else {
      SameCalm(s.runs, s'.runs, id);
    }
  }

  lemma RearmLanes(s: State, t: nat, pred: string, p: PendingResume, rest: seq<string>, o: Oracle)
    requires t < |s.threads|
    ensures Calm(s.runs, RearmStep(s, t, pred, p, rest, o).runs, pred)
  {
    hide Next, Calm;
    var s' := RearmStep(s, t, pred, p, rest, o);
    if p.spawnAttempts + 1 <= MAX_SPAWN_RETRIES && pred in s.runs {
      ChangeCalm(s.runs, s'.runs, pred, s.runs[pred].(pendingResume :=
        Some(p.(spawnAttempts := p.spawnAttempts + 1, resumeAt := o.now + s.cfg.resumeBaseMs))));
    } else {
      SameCalm(s.runs, s'.runs, pred);
    }
  }

  lemma RegisterLanes(s: State, t: nat, run: Run, pid: int, caller: Caller, o: Oracle)
    requires t < |s.threads|
    ensures Calm(s.runs, RegisterStep(s, t, run, pid, caller, o).runs, run.id)
  {
    hide AfterReserve;
  }

  lemma UndoLanes(s: State, t: nat, run: Run, caller: Caller, error: SpawnError)
    requires t < |s.threads|
    ensures UndoStep(s, t, run, caller, error).runs == s.runs - {run.id}
  {
    hide AfterFailure;
  }

  lemma EndLanes(s: State, t: nat, id: string)
    requires t < |s.threads|
    ensures Calm(s.runs, EndStep(s, t, id).runs, id)
  {}

  lemma WatchLanes(s: State, t: nat, id: string, o: Oracle)
    requires t < |s.threads|
    ensures Calm(s.runs, WatchStep(s, t, id, o).runs, id)
  {}

  lemma StopFlagLanes(s: State, t: nat, id: string, next: Thread)
    requires t < |s.threads|
    ensures Calm(s.runs, StopFlagStep(s, t, id, next).runs, id)
  {}

  lemma StopFinalizeLanes(s: State, t: nat, id: string)
    requires t < |s.threads|
    ensures Calm(s.runs, StopFinalizeStep(s, t, id).runs, id)
  {
    hide Calm;
    var s' := StopFinalizeStep(s, t, id);
    if id in s.runs && s.runs[id].IsRunning() {
      ChangeCalm(s.runs, s'.runs, id, FinalizedRun(s.runs[id], 143));
    } else {
      SameCalm(s.runs, s'.runs, id);
    }
  }

  /** The steps that leave the store alone. */
  predicate Still(th: Thread) {
    || th.Finished? || th.Lookup? || th.Adopt? || th.Remember? || th.Start? || th.ReadFinal? || th.ReadPred?
    || th.SweepList? || th.StopRead?
  }

  lemma StillLanes(s: State, t: nat, o: Oracle)
    requires t < |s.threads| && Still(s.threads[t])
    ensures ThreadStep(s, t, o).runs == s.runs
  {
    hide Goto, LookupStep, AdoptStep, StartStep, ReadFinalStep, ReadPredStep, StopReadStep, DueList, Next, SameSetup;
    match s.threads[t]
    case Lookup(req) => LookupLanes(s, t, req, o);
    case Adopt(req, existing) => AdoptLanes(s, t, req, existing, o);
    case Start(run, caller) => StartLanes(s, t, run, caller, o);
    case ReadFinal(id, exit) => ReadFinalLanes(s, t, id, exit);
    case ReadPred(pred, p, rest) => ReadPredLanes(s, t, pred, p, rest, o);
    case StopRead(id) => StopReadLanes(s, t, id);
    case Finished =>
    case Remember(_, _) => GotoLanes(s, t, Finished);
    case SweepList => if DueList(s, o.due, o.now) { GotoLanes(s, t, Next(o.due)); }
  }

  lemma StepLanes(s: State, t: nat, o: Oracle)
    requires t < |s.threads|
    ensures NoNewPair(s.runs, ThreadStep(s, t, o).runs)
  {
    hide NoNewPair, Calm, LookupStep, AdoptStep, ReserveStep, StartStep, RegisterStep, UndoStep, BeginStep, FinalizeStep,
      ReadFinalStep, DecideStep, PushIfComplete, ArmStep, EndStep, ClearStep, ReadPredStep, RearmStep, WatchStep,
      StopReadStep, StopFlagStep, StopFinalizeStep, DueList, Next, Goto;
    SamePairs(s.runs);
    var after := ThreadStep(s, t, o).runs;
    match s.threads[t]
    case Reserve(run, caller) => ReserveLanes(s, t, run, caller, o);
    case Register(run, pid, caller) => RegisterLanes(s, t, run, pid, caller, o); CalmPairs(s.runs, after, run.id);
    case Undo(run, caller, error) => UndoLanes(s, t, run, caller, error); DeleteKeepsLanes(s.runs, run.id);
    case BeginFinalizing(id, exit) => BeginLanes(s, t, id, exit); CalmPairs(s.runs, after, id);
    case Finalize(id, exit) => FinalizeLanes(s, t, id, exit); CalmPairs(s.runs, after, id);
    case Decide(run, cause) =>
      DecideLanes(s, t, run, cause, o);
      PushLanes(s, run, o);
      CalmPairs(s.runs, after, run.id);
    case Arm(id, succ, r) => ArmLanes(s, t, id, succ, r, o); CalmPairs(s.runs, after, id);
    case EndFinalizing(id) => EndLanes(s, t, id); CalmPairs(s.runs, after, id);
    case Clear(id, rest) => ClearLanes(s, t, id, rest); CalmPairs(s.runs, after, id);
    case Rearm(pred, p, rest) => RearmLanes(s, t, pred, p, rest, o); CalmPairs(s.runs, after, pred);
    case Watch(id) => WatchLanes(s, t, id, o); CalmPairs(s.runs, after, id);
    case StopFlag(id) => StopFlagLanes(s, t, id, StopFinalize(id)); CalmPairs(s.runs, after, id);
    case StopFinalize(id) => StopFinalizeLanes(s, t, id); CalmPairs(s.runs, after, id);
    case StopCancel(id) => StopFlagLanes(s, t, id, Finished); CalmPairs(s.runs, after, id);
    case _ => StillLanes(s, t, o);
  }

  /** Two running builds that share a non-empty lane after any run of the engine shared it before: from
      any state at all, and so from any journal. */
  lemma {:induction false} LanesNeverShared(s: State, events: seq<Event>)
    ensures NoNewPair(s.runs, After(s, events).runs)
    ensures LanesExclusive(s.runs) ==> LanesExclusive(After(s, events).runs)
  {
    hide ThreadStep, NoNewPair, LanesExclusive;
    if events == [] {
      SamePairs(s.runs);
    } else {
      var a := After(s, events[..|events| - 1]);
      LanesNeverShared(s, events[..|events| - 1]);
      HappenLanes(a, events[|events| - 1]);
      MorePairs(s.runs, a.runs, After(s, events).runs);
    }
    if LanesExclusive(s.runs) { NoPairAtAll(s.runs, After(s, events).runs); }
  }

  lemma HappenLanes(s: State, e: Event)
    ensures NoNewPair(s.runs, Happen(s, e).runs)
  {
    hide ThreadStep, NoNewPair;
    SamePairs(s.runs);
    match e
    case Call(_) =>
    case Step(t, o) => if t < |s.threads| { StepLanes(s.(now := o.now), t, o); }
  }
}
