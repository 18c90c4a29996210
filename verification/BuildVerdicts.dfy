/** What a decision of the engine means ever after, and that no planned resume gets lost. */
module BuildVerdicts {
  import opened Runs
  import opened ResumePlan
  import opened BuildEngine
  import opened BuildInvariant
  import opened BuildFrames
  import opened BuildSteps
  import opened BuildReach
  import opened BuildLives

  // --- what is kept ---

  /** What the decision on id says of it, which has ended: kept means no resume was planned, armed that one was for the
      successor, refused that the Stop is on the record. */
  ghost predicate VerdictFits(s: State, id: string)
    requires id in s.verdicts
  {
    && id in s.runs && !s.runs[id].IsRunning()
    && match s.verdicts[id]
       case Kept(_) => id !in s.planned
       case Armed(succ) => id in s.planned && succ in s.births && s.births[succ].owner == SuccessorOf(id)
       case RefusedByStop => s.runs[id].stopRequested
       case EndedBeforeBoot => id in s.births && s.births[id].owner == AtBoot
  }

  /** A firing for id has the resume in hand and has not reserved yet. */
  predicate Fires(th: Thread, id: string) {
    (th.ReadPred? && th.pred == id) || AtReserve(th, id)
  }

  ghost predicate InHand(s: State, id: string) {
    exists i :: 0 <= i < |s.threads| && Fires(s.threads[i], id)
  }

  /** The resume of id is armed, in the hand of a firing, was tried, or a Stop came. */
  ghost predicate ResumeKept(s: State, id: string) {
    || (id in s.runs && (s.runs[id].pendingResume.Some? || s.runs[id].stopRequested))
    || InHand(s, id)
    || Count(s.attempts, id) > 0
  }

  /** What this process planned, it planned within its settings. */
  ghost predicate WithinSettings(s: State, id: string)
    requires id in s.births
  {
    var b := s.births[id];
    b.owner.SuccessorOf? && !(b.owner.pred in s.verdicts && s.verdicts[b.owner.pred].EndedBeforeBoot?) ==>
      b.depth <= s.cfg.maxBuildResumes
  }

  ghost predicate Decided(s: State) {
    && (forall id | id in s.verdicts :: VerdictFits(s, id))
    && (forall id | id in s.planned && id in s.verdicts :: ResumeKept(s, id))
    && (forall id | id in s.births :: WithinSettings(s, id))
  }

  // --- one step: the history ---

  /** Births and decisions stay, what was decided on is neither planned for nor pushed any more, and
      attempts do not fall. */
  ghost predicate HistoryStays(s: State, s': State) {
    && s'.cfg == s.cfg && s'.now == s.now && BirthsStay(s, s')
    && (forall id | id in s.verdicts ::
          && id in s'.verdicts && s'.verdicts[id] == s.verdicts[id] && (id in s'.planned <==> id in s.planned)
          && Count(s'.pushes, id) == Count(s.pushes, id))
    && (forall id :: Count(s.attempts, id) <= Count(s'.attempts, id))
  }

  /** A chain starts when it is asked for. */
  ghost predicate StartsAt(s: State, s': State, id: string, now: int)
    requires id in s'.births
  {
    var b := s'.births[id];
    b.start == now || (b.owner.SuccessorOf? && b.owner.pred in s.births && b.start == s.births[b.owner.pred].start)
  }

  /** A new decision fits, with its resume armed when one was planned; a new successor is within the
      settings. */
  ghost predicate NewFits(s: State, s': State, now: int) {
    && (forall id | id in s'.verdicts && id !in s.verdicts ::
          VerdictFits(s', id) && (id in s'.planned ==> ResumeKept(s', id)))
    && (forall id | id in s'.births && id !in s.births :: WithinSettings(s', id) && StartsAt(s, s', id, now))
  }

  /** The steps that make history. */
  predicate MakesHistory(th: Thread) {
    th.Lookup? || th.Adopt? || th.Reserve? || th.Decide? || th.Arm?
  }

  lemma PlainHistory(s: State, t: nat, o: Oracle)
    requires t < |s.threads| && !MakesHistory(s.threads[t])
    ensures SameSetup(s, ThreadStep(s, t, o)) && SameHistory(s, ThreadStep(s, t, o))
  {
    hide SameSetup, SameHistory, Goto, StartStep, RegisterStep, UndoStep, BeginStep, FinalizeStep, ReadFinalStep, EndStep,
      ClearStep, ReadPredStep, RearmStep, WatchStep, StopReadStep, StopFlagStep, StopFinalizeStep, DueList, Next;
    match s.threads[t]
    case Finished => GotoSame(s, t, Finished);
    case Remember(key, id) => GotoSame(s, t, Finished);
    case SweepList => GotoSame(s, t, Next(o.due));
    case _ =>
  }

  lemma GotoSame(s: State, t: nat, th: Thread)
    requires t < |s.threads|
    ensures SameSetup(s, s) && SameHistory(s, s) && SameSetup(s, Goto(s, t, th)) && SameHistory(s, Goto(s, t, th))
    ensures forall idem :: SameSetup(s, Goto(s, t, th).(idem := idem)) && SameHistory(s, Goto(s, t, th).(idem := idem))
  {}

  lemma SameStays(s: State, s': State)
    requires SameSetup(s, s') && SameHistory(s, s')
    ensures HistoryStays(s, s') && forall now :: NewFits(s, s', now)
  {
    hide VerdictFits, ResumeKept, WithinSettings, StartsAt, Count;
  }

  lemma ReserveHistory(s: State, t: nat, run: Run, caller: Caller, o: Oracle)
    requires t < |s.threads|
    ensures HistoryStays(s, ReserveStep(s, t, run, caller, o)) && NewFits(s, ReserveStep(s, t, run, caller, o), o.now)
  {
    hide VerdictFits, ResumeKept, WithinSettings, StartsAt, ReserveStep, Counted, Count;
    ReserveCounts(s, t, run, caller, o);
    forall id ensures Count(s.attempts, id) <= Count(Counted(s, caller), id) { CountedOne(s, caller, id); }
  }

  lemma ReserveCounts(s: State, t: nat, run: Run, caller: Caller, o: Oracle)
    requires t < |s.threads|
    ensures var s' := ReserveStep(s, t, run, caller, o);
            && (s'.attempts == s.attempts || s'.attempts == Counted(s, caller))
            && s'.cfg == s.cfg && s'.now == s.now && s'.births == s.births && s'.pushes == s.pushes
            && s'.planned == s.planned && s'.verdicts == s.verdicts
  {
    hide MemStore.LaneFree, HolderChosen, LaneKeyOf, AfterReserve, AfterFailure, Counted;
    if !o.writable {
    } else if MemStore.LaneFree(s.runs, "build", LaneKeyOf(run.meta)) {
    } else if HolderChosen(s, run, o) {
    } else {
    }
  }

  lemma MintHistory(s: State, t: nat, req: SpawnReq, o: Oracle)
    requires t < |s.threads| && o.freshId !in s.births
    ensures HistoryStays(s, Mint(s, t, req, o)) && NewFits(s, Mint(s, t, req, o), o.now)
  {
    hide VerdictFits, ResumeKept, NewRun, SpecOf, Count;
  }

  lemma LookupHistory(s: State, t: nat, req: SpawnReq, o: Oracle)
    requires t < |s.threads| && o.freshId !in s.births
    ensures HistoryStays(s, LookupStep(s, t, req, o)) && NewFits(s, LookupStep(s, t, req, o), o.now)
  {
    hide HistoryStays, NewFits, Mint, Goto;
    MintHistory(s, t, req, o);
    GotoHistory(s, t, Finished);
    if req.prompt == "" {
    } else if req.key.Some? && req.key.value in s.idem {
      GotoHistory(s, t, Adopt(req, s.idem[req.key.value]));
    } else {
    }
  }

  lemma AdoptHistory(s: State, t: nat, req: SpawnReq, existing: string, o: Oracle)
    requires t < |s.threads| && o.freshId !in s.births
    ensures HistoryStays(s, AdoptStep(s, t, req, existing, o)) && NewFits(s, AdoptStep(s, t, req, existing, o), o.now)
  {
    hide HistoryStays, NewFits, Mint, Goto;
    MintHistory(s, t, req, o);
    GotoHistory(s, t, Finished);
    if existing in s.runs {} else {}
  }

  lemma GotoHistory(s: State, t: nat, th: Thread)
    requires t < |s.threads|
    ensures HistoryStays(s, Goto(s, t, th)) && forall now :: NewFits(s, Goto(s, t, th), now)
  {
    hide HistoryStays, NewFits;
    SameStays(s, Goto(s, t, th));
  }

  /** The decision on a finished run, which nothing was planned for or decided on before. */
  lemma DecideHistory(s: State, t: nat, run: Run, cause: RedriveCause, o: Oracle)
    requires t < |s.threads| && o.freshId !in s.births && Undecided(s, run.id) && run.id in s.births
    requires run.id in s.runs && !s.runs[run.id].IsRunning()
    requires FitsRun(s.cfg, s.births[run.id], run) && ValidConfig(s.cfg)
    ensures HistoryStays(s, DecideStep(s, t, run, cause, o)) && NewFits(s, DecideStep(s, t, run, cause, o), o.now)
  {
    hide HistoryStays, NewFits, PlanResume, DecideStep, FitsRun, ValidConfig;
    if PlanResume(s.cfg, s.reader, run, o.lines, cause, PlanClock(o.atDetect, o.now), o.fingerprint).Stay? {
      KeptHistory(s, t, run, cause, o);
    } else {
      PlannedHistory(s, t, run, cause, o);
    }
  }

  lemma PushesOne(s: State, run: Run, o: Oracle)
    ensures forall id | id != run.id :: Count(PushIfComplete(s, run, o).pushes, id) == Count(s.pushes, id)
  {
    hide WantsPush;
  }

  lemma KeptHistory(s: State, t: nat, run: Run, cause: RedriveCause, o: Oracle)
    requires t < |s.threads| && Undecided(s, run.id) && run.id in s.runs && !s.runs[run.id].IsRunning()
    requires PlanResume(s.cfg, s.reader, run, o.lines, cause, PlanClock(o.atDetect, o.now), o.fingerprint).Stay?
    ensures HistoryStays(s, DecideStep(s, t, run, cause, o)) && NewFits(s, DecideStep(s, t, run, cause, o), o.now)
  {
    hide PlanResume, PushIfComplete, ResumeKept, WithinSettings, StartsAt, SpecOf, Count;
    PushLives(s, run, o, run.id);
    PushesOne(s, run, o);
  }

  lemma PlannedHistory(s: State, t: nat, run: Run, cause: RedriveCause, o: Oracle)
    requires t < |s.threads| && o.freshId !in s.births && Undecided(s, run.id) && run.id in s.births
    requires FitsRun(s.cfg, s.births[run.id], run) && ValidConfig(s.cfg)
    requires PlanResume(s.cfg, s.reader, run, o.lines, cause, PlanClock(o.atDetect, o.now), o.fingerprint).Go?
    ensures HistoryStays(s, DecideStep(s, t, run, cause, o)) && NewFits(s, DecideStep(s, t, run, cause, o), o.now)
  {
    hide PlanResume, PushIfComplete, VerdictFits, ResumeKept, SpecOf, Count, ValidConfig;
    PushesOne(s, run, o);
    PlanWithinBudgets(s.cfg, s.reader, run, o.lines, cause, PlanClock(o.atDetect, o.now), o.fingerprint);
  }

  lemma ArmHistory(s: State, t: nat, id: string, succ: string, r: Resume, o: Oracle)
    requires t < |s.threads| && id in s.planned && id !in s.verdicts && id in s.runs && !s.runs[id].IsRunning()
    requires succ in s.births && s.births[succ].owner == SuccessorOf(id)
    ensures HistoryStays(s, ArmStep(s, t, id, succ, r, o)) && NewFits(s, ArmStep(s, t, id, succ, r, o), o.now)
  {
    hide VerdictFits, ResumeKept, WithinSettings, StartsAt, Pending, Count;
    ArmFits(s, t, id, succ, r, o);
    if !s.runs[id].stopRequested {} else {}
  }

  lemma ArmFits(s: State, t: nat, id: string, succ: string, r: Resume, o: Oracle)
    requires t < |s.threads| && id in s.planned && id in s.runs && !s.runs[id].IsRunning()
    requires succ in s.births && s.births[succ].owner == SuccessorOf(id)
    ensures var s' := ArmStep(s, t, id, succ, r, o);
            id in s'.verdicts && VerdictFits(s', id) && ResumeKept(s', id)
  {
    hide InHand, Pending, Count;
    if !s.runs[id].stopRequested {} else {}
  }

  lemma EndedAt(s: State, id: string)
    requires id in s.runs && RunOk(s, id) && id in s.deciding
    ensures !s.runs[id].IsRunning()
  {
    hide FitsRun, Token, Count;
  }

  lemma StepHistory(s: State, t: nat, o: Oracle)
    requires Inv(s) && t < |s.threads| && o.freshId !in s.births
    ensures HistoryStays(s, ThreadStep(s, t, o)) && NewFits(s, ThreadStep(s, t, o), o.now)
  {
    hide Inv, HistoryStays, NewFits, SameHistory, SameSetup, LookupStep, AdoptStep, ReserveStep, StartStep, RegisterStep,
      UndoStep, BeginStep, FinalizeStep, ReadFinalStep, DecideStep, ArmStep, EndStep, ClearStep, ReadPredStep, RearmStep,
      WatchStep, DueList, StopReadStep, StopFlagStep, StopFinalizeStep, Next, Goto, RunOk, FitsRun, FitsPending, Count;
    if !MakesHistory(s.threads[t]) {
      PlainHistory(s, t, o);
      SameStays(s, ThreadStep(s, t, o));
    } else {
      match s.threads[t]
      case Lookup(req) => LookupHistory(s, t, req, o);
      case Adopt(req, existing) => AdoptHistory(s, t, req, existing, o);
      case Reserve(run, caller) => ReserveHistory(s, t, run, caller, o);
      case Decide(run, cause) =>
        DecidingAt(s, t);
        EndedAt(s, run.id);
        InvParts(s);
        HaveConfig(s);
        DecideHistory(s, t, run, cause, o);
      case Arm(id, succ, r) => ArmingAt(s, t); EndedAt(s, id); ArmHistory(s, t, id, succ, r, o);
    }
  }

  // --- one step: a resume is not lost ---

  lemma FiringGoesOn(s: State, t: nat, o: Oracle, id: string)
    requires t < |s.threads| && Fires(s.threads[t], id) && id in s.runs
    ensures var s' := ThreadStep(s, t, o);
            t < |s'.threads| && (Fires(s'.threads[t], id) || Count(s'.attempts, id) > 0 || s.runs[id].stopRequested)
  {
    hide ReadPredStep, ReserveStep;
    match s.threads[t]
    case ReadPred(pred, p, rest) => ReadGoesOn(s, t, pred, p, rest, o);
    case Reserve(run, caller) => ReserveGoesOn(s, t, run, caller, o, id);
  }

  lemma ReadGoesOn(s: State, t: nat, pred: string, p: PendingResume, rest: seq<string>, o: Oracle)
    requires t < |s.threads| && pred in s.runs
    ensures var s' := ReadPredStep(s, t, pred, p, rest, o);
            t < |s'.threads| && (AtReserve(s'.threads[t], pred) || s.runs[pred].stopRequested)
  {
    hide SuccessorRun, Next;
    if s.runs[pred].stopRequested {} else {}
  }

  lemma ReserveGoesOn(s: State, t: nat, run: Run, caller: Caller, o: Oracle, id: string)
    requires t < |s.threads| && s.threads[t] == Reserve(run, caller) && AtReserve(s.threads[t], id)
    ensures var s' := ReserveStep(s, t, run, caller, o);
            t < |s'.threads| && (AtReserve(s'.threads[t], id) || Count(s'.attempts, id) > 0)
  {
    hide ReserveStep, Count, Counted;
    ReserveShapes(s, t, run, caller, o);
    CountedOne(s, caller, id);
  }

  lemma ResumeStays(s: State, t: nat, o: Oracle, id: string)
    requires Inv(s) && t < |s.threads| && o.freshId !in s.births && id in s.launched && ResumeKept(s, id)
    requires HistoryStays(s, ThreadStep(s, t, o))
    ensures ResumeKept(ThreadStep(s, t, o), id)
  {
    hide Inv, ThreadStep, StopHeeded, LaunchFrame, Count, Fires, RunOk;
    var s' := ThreadStep(s, t, o);
    LaunchedStay(s, id);
    StepFair(s, t, o, id);
    if s.runs[id].pendingResume.Some? && s'.runs[id].pendingResume.None? && !s'.runs[id].stopRequested {
      assert Fires(s'.threads[t], id) by { JustRead(s'.threads[t], id); }
    } else if InHand(s, id) {
      var i :| 0 <= i < |s.threads| && Fires(s.threads[i], id);
      if i == t { FiringGoesOn(s, t, o, id); }
      assert i != t ==> s'.threads[i] == s.threads[i];
    }
  }

  lemma JustRead(th: Thread, id: string)
    requires th.ReadPred? && th.pred == id
    ensures Fires(th, id)
  {}

  // --- every run ---

  lemma VerdictStays(s: State, s': State, t: nat, id: string)
    requires t < |s.threads| && id in s.verdicts && VerdictFits(s, id) && HistoryStays(s, s') && LivesOn(s, s', id)
    ensures id in s'.verdicts && VerdictFits(s', id)
  {
    hide Count;
  }

  lemma StepDecided(s: State, t: nat, o: Oracle)
    requires Inv(s) && t < |s.threads| && o.freshId !in s.births && Decided(s)
    ensures Decided(ThreadStep(s, t, o))
  {
    hide Inv, ThreadStep, VerdictFits, ResumeKept, SpentOnce, OnlyMoves, StopHeeded, LaunchFrame, LivesOn, WithinSettings,
      Count, SetsOk, BirthsOk, RunsOk, ThreadsOk, HeldMeansCleared, Alone, StartsHeld;
    var s' := ThreadStep(s, t, o);
    StepHistory(s, t, o);
    forall id | id in s.verdicts
      ensures id in s'.verdicts && VerdictFits(s', id) && (id in s'.planned ==> ResumeKept(s', id))
    {
      DecidedLaunched(s, id);
      StepFair(s, t, o, id);
      VerdictStays(s, s', t, id);
      if id in s.planned { ResumeStays(s, t, o, id); }
    }
    forall id | id in s.births ensures id in s'.births && WithinSettings(s', id) {
      assert WithinSettings(s, id);
      SettingsStay(s, s', id);
    }
  }

  lemma SettingsStay(s: State, s': State, id: string)
    requires id in s.births && WithinSettings(s, id) && HistoryStays(s, s')
    ensures id in s'.births && WithinSettings(s', id)
  {
    hide Count;
  }

  lemma DecidedLaunched(s: State, id: string)
    requires Inv(s) && id in s.verdicts
    ensures id in s.launched
  {
    hide BirthsOk, RunsOk, ThreadsOk, HeldMeansCleared, Alone, StartsHeld, Count;
  }

  /** Nothing the decisions speak of changes. */
  lemma ElseDecided(s: State, s': State)
    requires Decided(s) && s' == s.(now := s'.now, threads := s'.threads)
    requires |s.threads| <= |s'.threads| && s'.threads[..|s.threads|] == s.threads
    ensures Decided(s')
  {
    hide Fires, Count;
    forall id | InHand(s, id) ensures InHand(s', id) {
      var i :| 0 <= i < |s.threads| && Fires(s.threads[i], id);
      assert s'.threads[i] == s.threads[i];
    }
  }

  lemma HappenDecided(s: State, e: Event)
    requires Inv(s) && Decided(s)
    ensures Decided(Happen(s, e))
  {
    hide Inv, ThreadStep, Decided;
    match e
    case Call(th) => if Entry(th) { ElseDecided(s, s.(threads := s.threads + [th])); }
    case Step(t, o) =>
      if t < |s.threads| && Fair(s, o) {
        ClockKeeps(s, o.now);
        ElseDecided(s, s.(now := o.now));
        StepDecided(s.(now := o.now), t, o);
      }
  }

  lemma BootDecided(s: State)
    requires Boot(s)
    ensures Decided(s)
  {
    hide Boot, BootPending, Count;
    forall id | id in s.verdicts ensures VerdictFits(s, id) { BootVerdict(s, id); }
    forall id | id in s.planned ensures ResumeKept(s, id) { BootVerdict(s, id); }
    forall id | id in s.births ensures WithinSettings(s, id) {
      BootBirthOk(s, id);
      if s.births[id].owner.SuccessorOf? { BootArmed(s, s.births[id].owner.pred); }
    }
  }

  lemma BootVerdict(s: State, id: string)
    requires Boot(s) && (id in s.verdicts || id in s.planned)
    ensures id in s.runs && (id in s.verdicts ==> VerdictFits(s, id))
    ensures id in s.planned ==> s.runs[id].pendingResume.Some?
  {
    hide BootBirth, BootThread, BootPending, Count;
    assert BootRun(s, id);
  }

  lemma BootArmed(s: State, id: string)
    requires Boot(s) && id in s.runs && s.runs[id].pendingResume.Some?
    ensures id in s.verdicts && s.verdicts[id] == EndedBeforeBoot
  {
    hide BootBirth, BootThread, Count;
    assert BootRun(s, id);
  }

  lemma {:induction false} AlwaysDecided(s: State, events: seq<Event>)
    requires Boot(s)
    ensures Decided(After(s, events))
  {
    hide Inv, Boot, Happen, Decided;
    if events == [] {
      BootDecided(s);
    } else {
      AlwaysInv(s, events[..|events| - 1]);
      AlwaysDecided(s, events[..|events| - 1]);
      HappenDecided(After(s, events[..|events| - 1]), events[|events| - 1]);
    }
  }

  // --- what was decided on ---

  /** From s on, id is neither planned for nor pushed. */
  ghost predicate LeftAlone(s: State, s': State, id: string) {
    && id in s'.verdicts && (id in s'.planned <==> id in s.planned) && Count(s'.pushes, id) == Count(s.pushes, id)
  }

  lemma HappenAlone(s: State, e: Event, id: string)
    requires Inv(s) && id in s.verdicts
    ensures LeftAlone(s, Happen(s, e), id)
  {
    hide Inv, ThreadStep, Count;
    match e
    case Call(th) =>
    case Step(t, o) =>
      if t < |s.threads| && Fair(s, o) {
        ClockKeeps(s, o.now);
        StepHistory(s.(now := o.now), t, o);
        DecidedAlone(s.(now := o.now), ThreadStep(s.(now := o.now), t, o), id);
      }
  }

  lemma DecidedAlone(s: State, s': State, id: string)
    requires HistoryStays(s, s') && id in s.verdicts
    ensures LeftAlone(s, s', id)
  {
    hide Count;
  }

  lemma {:induction false} AloneForever(s: State, events: seq<Event>, id: string)
    requires Boot(s) && id in s.verdicts
    ensures LeftAlone(s, After(s, events), id)
  {
    hide Inv, Boot, Happen, Count;
    if events != [] {
      AloneForever(s, events[..|events| - 1], id);
      AlwaysInv(s, events[..|events| - 1]);
      HappenAlone(After(s, events[..|events| - 1]), events[|events| - 1], id);
    }
  }

  // --- the finalizing handshake ---

  /** A build that is seen ended and not finalizing was decided on, or a Stop ended it. If a resume was
      planned for it, that one is armed for its own successor or was refused by a Stop, unless the run
      had ended in an earlier process; and the resume was not lost since. */
  lemma HandshakeComplete(s: State, events: seq<Event>, id: string)
    requires Boot(s) && id in After(s, events).runs
    requires !After(s, events).runs[id].IsRunning() && !After(s, events).runs[id].finalizing
    ensures var s' := After(s, events);
            && (id in s'.verdicts || id in s'.stopEnded)
            && (id in s'.verdicts && s'.verdicts[id].Kept? ==> id !in s'.planned)
            && (id in s'.planned ==>
                  && id in s'.verdicts && ResumeKept(s', id)
                  && match s'.verdicts[id]
                     case Armed(succ) => succ in s'.births && s'.births[succ].owner == SuccessorOf(id)
                     case RefusedByStop => s'.runs[id].stopRequested
                     case EndedBeforeBoot => id in s'.births && s'.births[id].owner == AtBoot
                     case Kept(_) => false)
  {
    hide Inv, Boot, After, ResumeKept, WithinSettings;
    AlwaysInv(s, events);
    AlwaysDecided(s, events);
    HandshakeAt(After(s, events), id);
    assert id in After(s, events).verdicts ==> VerdictFits(After(s, events), id);
  }

  lemma HandshakeAt(s: State, id: string)
    requires Inv(s) && id in s.runs && !s.runs[id].IsRunning() && !s.runs[id].finalizing
    ensures id in s.verdicts || id in s.stopEnded
    ensures id in s.planned ==> id in s.verdicts
  {
    hide Inv, BirthsOk, RunsOk, ThreadsOk, HeldMeansCleared, Alone, StartsHeld, FitsRun, Token, Count;
    RunAt(s, id);
    InvParts(s);
  }
}
