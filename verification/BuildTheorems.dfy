/** What holds of the build engine in every run. */
module BuildTheorems {
  import opened Wrappers
  import opened Runs
  import opened ResumePlan
  import opened BuildEngine
  import opened BuildInvariant
  import opened BuildFrames
  import opened BuildReach
  import opened BuildLives

  // --- records of started runs ---

  lemma HappenLives(s: State, e: Event, id: string)
    requires Inv(s) && id in s.launched
    ensures LivesOn(s, Happen(s, e), id)
  {
    hide Inv, ThreadStep, SpentOnce, OnlyMoves, StopHeeded, LaunchFrame, RunOk;
    LaunchedStay(s, id);
    match e
    case Call(th) =>
    case Step(t, o) =>
      if t < |s.threads| && Fair(s, o) {
        ClockKeeps(s, o.now);
        StepFair(s.(now := o.now), t, o, id);
      }
  }

  /** A started run is never deleted; once ended it stays ended with the same exit code; a stop request,
      a push and a decision stay; its place in the chain does not change. */
  lemma {:induction false} StartedRunsLiveOn(s: State, events: seq<Event>, k: nat, id: string)
    requires Boot(s) && k <= |events| && id in After(s, events[..k]).launched
    ensures LivesOn(After(s, events[..k]), After(s, events), id)
    decreases |events|
  {
    hide Inv, Boot, Happen, After, Later;
    if k == |events| {
      assert events[..k] == events;
      AlwaysInv(s, events);
      SelfLives(After(s, events), id);
    } else {
      var before := events[..|events| - 1];
      assert before[..k] == events[..k];
      StartedRunsLiveOn(s, before, k, id);
      AlwaysInv(s, before);
      HappenLives(After(s, before), events[|events| - 1], id);
      LastStep(s, events);
      LaterAgain(After(s, events[..k]), After(s, before), After(s, events), id);
    }
  }

  lemma SelfLives(s: State, id: string)
    requires Inv(s) && id in s.launched
    ensures LivesOn(s, s, id)
  {
    hide Inv, RunOk;
    LaunchedStay(s, id);
  }

  lemma LaterAgain(a: State, b: State, c: State, id: string)
    requires LivesOn(a, b, id) && LivesOn(b, c, id)
    ensures LivesOn(a, c, id)
  {}

  lemma LastStep(s: State, events: seq<Event>)
    requires events != []
    ensures After(s, events) == Happen(After(s, events[..|events| - 1]), events[|events| - 1])
  {}

  // --- linear chains, each resume fired once ---

  /** No two ids are successors of the same run. */
  lemma OneSuccessorEach(s: State, events: seq<Event>, a: string, b: string)
    requires Boot(s)
    requires var s' := After(s, events);
             a in s'.births && b in s'.births && s'.births[a].owner.SuccessorOf? && s'.births[a].owner == s'.births[b].owner
    ensures a == b
  {
    hide Inv, Boot, After;
    AlwaysInv(s, events);
    BirthsApart(After(s, events), a, b);
  }

  /** When a firing is about to start a successor's process, no successor of that run was started yet. */
  lemma SuccessorStartsOnce(s: State, events: seq<Event>, t: nat, run: Run, pred: string, p: PendingResume,
                            rest: seq<string>)
    requires Boot(s)
    requires t < |After(s, events).threads| && After(s, events).threads[t] == Start(run, ByFiring(pred, p, rest))
    ensures var s' := After(s, events);
            && run.id in s'.births && s'.births[run.id].owner == SuccessorOf(pred) && run.id !in s'.launched
            && forall x | x in s'.launched && x in s'.births :: s'.births[x].owner != SuccessorOf(pred)
  {
    hide Inv, Boot, After, StarterOk;
    AlwaysInv(s, events);
    var s' := After(s, events);
    FiringOwner(s', t, run, pred, p, rest);
    forall x | x in s'.launched && x in s'.births ensures s'.births[x].owner != SuccessorOf(pred) {
      if s'.births[x].owner == SuccessorOf(pred) { BirthsApart(s', x, run.id); }
    }
  }

  lemma FiringOwner(s: State, t: nat, run: Run, pred: string, p: PendingResume, rest: seq<string>)
    requires Inv(s) && t < |s.threads| && s.threads[t] == Start(run, ByFiring(pred, p, rest))
    ensures run.id in s.births && s.births[run.id].owner == SuccessorOf(pred) && run.id !in s.launched
    ensures run.id in s.runs
  {
    hide Inv, FitsRun, FitsPending, Blank, Count;
    ThreadAt(s, t);
  }

  /** An armed resume stays until one firing takes it or a Stop cancels it; while it is armed nobody
      holds it, and never do two. */
  lemma ResumeSpentOnce(s: State, events: seq<Event>, t: nat, o: Oracle, id: string)
    requires Boot(s)
    requires var s' := After(s, events); id in s'.launched && t < |s'.threads| && Fair(s', o)
    ensures var s' := After(s, events);
            && LivesOn(s', Happen(s', Step(t, o)), id) && SpentOnce(s', Happen(s', Step(t, o)), t, id)
            && (s'.runs[id].pendingResume.Some? ==>
                  forall i | 0 <= i < |s'.threads| :: ChainOf(s'.threads[i]) != Some(id))
            && (forall i, j | 0 <= i < j < |s'.threads| ::
                  !(ChainOf(s'.threads[i]) == Some(id) && ChainOf(s'.threads[j]) == Some(id)))
  {
    hide Inv, Boot, After, ThreadStep, Later, OnlyMoves, StopHeeded, LaunchFrame, ChainOf, RunOk;
    AlwaysInv(s, events);
    var s' := After(s, events);
    LaunchedStay(s', id);
    ClockKeeps(s', o.now);
    StepFair(s'.(now := o.now), t, o, id);
    if s'.runs[id].pendingResume.Some? { ArmedUnheld(s', id); }
    HeldByOne(s', id);
  }

  lemma HeldByOne(s: State, id: string)
    requires Inv(s)
    ensures forall i, j | 0 <= i < j < |s.threads| ::
              !(ChainOf(s.threads[i]) == Some(id) && ChainOf(s.threads[j]) == Some(id))
  {
    hide SetsOk, RunsOk, ThreadsOk, HeldMeansCleared, StartsHeld, BirthsOk, ChainOf, FinalizerOf;
  }

  /** One predecessor causes at most 1 + MAX_SPAWN_RETRIES reserve-and-spawn calls. */
  lemma AttemptsBounded(s: State, events: seq<Event>, pred: string)
    requires Boot(s)
    ensures Count(After(s, events).attempts, pred) <= 1 + MAX_SPAWN_RETRIES
  {
    hide Inv, Boot, After;
    AlwaysInv(s, events);
    AttemptsAt(After(s, events), pred);
  }

  lemma AttemptsAt(s: State, pred: string)
    requires Inv(s)
    ensures Count(s.attempts, pred) <= 1 + MAX_SPAWN_RETRIES
  {
    hide RunsOk, ThreadsOk, HeldMeansCleared, Alone, StartsHeld, BirthsOk;
  }

  // --- stop beats resume ---

  /** A stop was requested on a started run. */
  ghost predicate StopSet(s: State, pred: string) {
    pred in s.launched && pred in s.runs && s.runs[pred].stopRequested
  }

  /** A firing for pred has passed its stop check and not reserved yet. */
  ghost predicate Reserving(s: State, pred: string) {
    exists i :: 0 <= i < |s.threads| && AtReserve(s.threads[i], pred)
  }

  /** A firing for pred has passed its stop check and not started a process yet. */
  ghost predicate Firing(s: State, pred: string) {
    exists i :: 0 <= i < |s.threads| && (AtReserve(s.threads[i], pred) || AtStart(s.threads[i], pred))
  }

  ghost function Chances(s: State, pred: string): nat {
    Count(s.attempts, pred) + if Reserving(s, pred) then 1 else 0
  }

  /** No successor of pred is started. */
  ghost predicate NoneStarted(s: State, s': State, pred: string) {
    forall x | x in s'.launched && x in s'.births && s'.births[x].owner == SuccessorOf(pred) :: x in s.launched
  }

  ghost predicate StopHolds(s: State, s': State, pred: string) {
    && StopSet(s', pred) && BirthsStay(s, s')
    && Chances(s', pred) <= Chances(s, pred)
    && (!Firing(s, pred) ==> !Firing(s', pred) && NoneStarted(s, s', pred))
    && (pred in s'.verdicts && s'.verdicts[pred].Armed? ==> pred in s.verdicts && s.verdicts[pred] == s'.verdicts[pred])
  }

  lemma StepStopHolds(s: State, t: nat, o: Oracle, pred: string)
    requires Inv(s) && t < |s.threads| && o.freshId !in s.births && StopSet(s, pred)
    ensures StopHolds(s, ThreadStep(s, t, o), pred)
  {
    hide Inv, ThreadStep, SpentOnce, AtReserve, AtStart, Firing, Chances, NoneStarted;
    var s' := ThreadStep(s, t, o);
    StepFair(s, t, o, pred);
    StepChances(s, s', t, pred);
    StepFiring(s, s', t, pred);
    if !Firing(s, pred) { StepStarts(s, s', t, pred); }
  }

  lemma StepChances(s: State, s': State, t: nat, pred: string)
    requires Inv(s) && t < |s.threads| && OnlyMoves(s, s', t) && pred in s.runs && StopHeeded(s, s', t, pred)
    requires s.runs[pred].stopRequested
    ensures Chances(s', pred) <= Chances(s, pred)
  {
    hide Inv, AtReserve, AtStart, Count, ChainOf;
    if Reserving(s', pred) {
      var i :| 0 <= i < |s'.threads| && AtReserve(s'.threads[i], pred);
      ReserveReserves(s'.threads[i], pred);
      assert i < |s.threads| && AtReserve(s.threads[i], pred);
      if i != t && AtReserve(s.threads[t], pred) {
        ReservingOnce(s, i, t, pred);
      }
    }
  }

  lemma ReserveReserves(th: Thread, pred: string)
    requires AtReserve(th, pred)
    ensures th.Reserve? && ChainOf(th) == Some(pred)
  {}

  lemma ReservingOnce(s: State, i: nat, j: nat, pred: string)
    requires Inv(s) && i < |s.threads| && j < |s.threads| && i != j && AtReserve(s.threads[i], pred)
    ensures !AtReserve(s.threads[j], pred)
  {
    hide Inv, ChainOf, AtReserve;
    HeldByOne(s, pred);
    if AtReserve(s.threads[j], pred) {
      ReserveReserves(s.threads[i], pred);
      ReserveReserves(s.threads[j], pred);
    }
  }

  lemma StepFiring(s: State, s': State, t: nat, pred: string)
    requires t < |s.threads| && OnlyMoves(s, s', t) && pred in s.runs && StopHeeded(s, s', t, pred)
    requires s.runs[pred].stopRequested
    ensures Firing(s', pred) ==> Firing(s, pred)
  {
    hide Count;
    if Firing(s', pred) {
      var i :| 0 <= i < |s'.threads| && (AtReserve(s'.threads[i], pred) || AtStart(s'.threads[i], pred));
      assert i < |s.threads| && (AtReserve(s.threads[i], pred) || AtStart(s.threads[i], pred));
    }
  }

  lemma StepStarts(s: State, s': State, t: nat, pred: string)
    requires Inv(s) && t < |s.threads| && LaunchFrame(s, s', t) && !Firing(s, pred)
    requires s.threads[t].Start? ==> s'.births == s.births
    ensures NoneStarted(s, s', pred)
  {
    hide Inv;
    if s'.launched != s.launched {
      StartOwner(s, t);
      assert !AtStart(s.threads[t], pred);
    }
  }

  /** A run is started for the caller it was born for. */
  lemma StartOwner(s: State, t: nat)
    requires Inv(s) && t < |s.threads| && s.threads[t].Start?
    ensures var id := s.threads[t].run.id;
            id in s.births
            && (s.births[id].owner.SuccessorOf? ==>
                  s.threads[t].caller.ByFiring? && s.births[id].owner.pred == s.threads[t].caller.pred)
  {
    hide Inv, FitsRun, FitsPending, Blank, Count;
    ThreadAt(s, t);
  }

  lemma HappenStopHolds(s: State, e: Event, pred: string)
    requires Inv(s) && StopSet(s, pred)
    ensures StopHolds(s, Happen(s, e), pred)
  {
    hide Inv, ThreadStep, AtReserve, AtStart, Count;
    match e
    case Call(th) => if Entry(th) { CallStopHolds(s, th, pred); }
    case Step(t, o) =>
      if t < |s.threads| && Fair(s, o) {
        ClockKeeps(s, o.now);
        StepStopHolds(s.(now := o.now), t, o, pred);
      }
  }

  lemma CallStopHolds(s: State, th: Thread, pred: string)
    requires Entry(th) && StopSet(s, pred)
    ensures StopHolds(s, s.(threads := s.threads + [th]), pred)
  {
    hide Count;
    var s' := s.(threads := s.threads + [th]);
    assert forall i | 0 <= i < |s.threads| :: s'.threads[i] == s.threads[i];
    if Reserving(s', pred) {
      var i :| 0 <= i < |s'.threads| && AtReserve(s'.threads[i], pred);
      assert AtReserve(s.threads[i], pred);
    }
    if Firing(s', pred) {
      var i :| 0 <= i < |s'.threads| && (AtReserve(s'.threads[i], pred) || AtStart(s'.threads[i], pred));
      assert AtReserve(s.threads[i], pred) || AtStart(s.threads[i], pred);
    }
  }

  lemma {:induction false} StopHoldsOn(s: State, events: seq<Event>, k: nat, pred: string)
    requires Boot(s) && k <= |events| && StopSet(After(s, events[..k]), pred)
    ensures StopHolds(After(s, events[..k]), After(s, events), pred)
    decreases |events|
  {
    hide Inv, Boot, Happen, After, StopSet, StopHolds;
    if k == |events| {
      assert events[..k] == events;
      StopHoldsSelf(After(s, events), pred);
    } else {
      var before := events[..|events| - 1];
      assert before[..k] == events[..k];
      StopHoldsOn(s, before, k, pred);
      AlwaysInv(s, before);
      LastStep(s, events);
      var a, b, c := After(s, events[..k]), After(s, before), After(s, events);
      StillSet(a, b, pred);
      HappenStopHolds(b, events[|events| - 1], pred);
      HappenBirths(b, events[|events| - 1]);
      AlwaysInv(s, events);
      StopHoldsAgain(a, b, c, pred);
    }
  }

  lemma StillSet(a: State, b: State, pred: string)
    requires StopHolds(a, b, pred)
    ensures StopSet(b, pred)
  {
    hide StopSet, Chances, Firing, NoneStarted;
  }

  lemma StopHoldsSelf(s: State, pred: string)
    requires StopSet(s, pred)
    ensures StopHolds(s, s, pred)
  {
    hide StopSet, Chances, Firing;
  }

  /** Started runs were born. */
  lemma HappenBirths(s: State, e: Event)
    requires Inv(s)
    ensures s.launched <= s.births.Keys
  {
    hide ThreadsOk, BirthsOk, HeldMeansCleared, Alone, StartsHeld, Count, FitsRun, Token;
  }

  lemma StopHoldsAgain(a: State, b: State, c: State, pred: string)
    requires b.launched <= b.births.Keys
    requires StopHolds(a, b, pred) && StopHolds(b, c, pred)
    ensures StopHolds(a, c, pred)
  {
    hide StopSet, Chances, Firing;
  }

  /** After a stop request on a started run no decision arms a resume for it; one armed again after a
      failed spawn is dropped by the firing that takes it. At most one firing, already past its stop
      check, still reserves for it; without such a firing no successor of it is ever reserved or started
      again. */
  lemma StopEndsTheChain(s: State, events: seq<Event>, k: nat, pred: string)
    requires Boot(s) && k <= |events| && StopSet(After(s, events[..k]), pred)
    ensures var a, b := After(s, events[..k]), After(s, events);
            && StopSet(b, pred)
            && (pred in b.verdicts && b.verdicts[pred].Armed? ==> pred in a.verdicts && a.verdicts[pred] == b.verdicts[pred])
            && Count(b.attempts, pred) <= Count(a.attempts, pred) + 1
            && (!Reserving(a, pred) ==> Count(b.attempts, pred) <= Count(a.attempts, pred))
            && (!Firing(a, pred) ==> NoneStarted(a, b, pred) && !Firing(b, pred))
            && forall t: nat, o | t < |b.threads| && b.threads[t].ReadPred? && b.threads[t].pred == pred && Fair(b, o) ::
                 Happen(b, Step(t, o)) == Goto(b.(now := o.now), t, Next(b.threads[t].rest))
  {
    hide Inv, Boot, After, Happen, StopSet, NoneStarted, Firing, Reserving, Fair;
    StopHoldsOn(s, events, k, pred);
    var b := After(s, events);
    StillSet(After(s, events[..k]), b, pred);
    forall t: nat, o | t < |b.threads| && b.threads[t].ReadPred? && b.threads[t].pred == pred && Fair(b, o)
      ensures Happen(b, Step(t, o)) == Goto(b.(now := o.now), t, Next(b.threads[t].rest))
    {
      FiringDropped(b, t, pred, o);
    }
  }

  /** A firing whose run was stopped meanwhile goes on to the next one. */
  lemma FiringDropped(s: State, t: nat, pred: string, o: Oracle)
    requires t < |s.threads| && s.threads[t].ReadPred? && s.threads[t].pred == pred && StopSet(s, pred) && Fair(s, o)
    ensures Happen(s, Step(t, o)) == Goto(s.(now := o.now), t, Next(s.threads[t].rest))
  {}
}
