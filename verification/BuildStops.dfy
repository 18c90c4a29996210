/** What happens to a Stop, to a failed spawn and to a repeated POST: the steps of single threads, joined
    into runs of the engine. */
module BuildStops {
  import opened Wrappers
  import opened Runs
  import opened ResumePlan
  import opened MemStore
  import opened BuildEngine
  import opened BuildInvariant
  import opened BuildFrames
  import opened BuildReach
  import opened BuildLives
  import opened BuildTheorems

  // --- runs of events ---

  lemma {:induction false} AfterConcat(s: State, first: seq<Event>, more: seq<Event>)
    ensures After(s, first + more) == After(After(s, first), more)
    decreases |more|
  {
    hide Happen;
    if more == [] {
      assert first + more == first;
    } else {
      var before := more[..|more| - 1];
      AfterConcat(s, first, before);
      assert (first + more)[..|first + more| - 1] == first + before;
    }
  }

  lemma AfterTwo(s: State, e: Event)
    ensures After(s, [e]) == Happen(s, e)
    ensures After(s, [e, e]) == Happen(Happen(s, e), e)
    ensures After(s, [e, e, e]) == Happen(Happen(Happen(s, e), e), e)
  {
    hide Happen;
    assert [e][..0] == [] && [e, e][..1] == [e] && [e, e, e][..2] == [e, e];
    assert After(s, []) == s;
  }

  /** Readings of one instant, with an id nobody has. */
  ghost predicate Instant(s: State, o: Oracle) {
    s.now <= o.now == o.atDetect && o.freshId !in s.births
  }

  lemma Takes(s: State, t: nat, o: Oracle)
    requires t < |s.threads| && Instant(s, o)
    ensures Happen(s, Step(t, o)) == ThreadStep(s.(now := o.now), t, o)
  {
    hide ThreadStep;
  }

  /** There is always an id nobody has. */
  lemma {:induction false} SomeFresh(ids: set<string>) returns (spare: string)
    ensures forall id <- ids :: |id| < |spare|
  {
    if ids == {} {
      spare := "";
    } else {
      var id :| id in ids;
      spare := SomeFresh(ids - {id});
      if |spare| <= |id| { spare := id + "+"; }
    }
  }

  // --- a spawn that fails ---

  /** The reserved run cannot be journaled, or its process does not start. */
  predicate SpawnFails(o: Oracle) {
    !o.journaled || o.spawn.SpawnFailed?
  }

  function ErrorOf(o: Oracle): SpawnError {
    if o.journaled && o.spawn.SpawnFailed? then o.spawn.error else OtherFailure
  }

  lemma HappenStart(s: State, t: nat, run: Run, caller: Caller, o: Oracle)
    requires t < |s.threads| && s.threads[t] == Start(run, caller) && Instant(s, o) && SpawnFails(o)
    ensures Happen(s, Step(t, o)) == Goto(s.(now := o.now), t, Undo(run, caller, ErrorOf(o)))
  {
    hide Happen;
    Takes(s, t, o);
  }

  lemma HappenUndo(s: State, t: nat, run: Run, caller: Caller, error: SpawnError, o: Oracle)
    requires t < |s.threads| && s.threads[t] == Undo(run, caller, error) && Instant(s, o)
    ensures Happen(s, Step(t, o)) == UndoStep(s.(now := o.now), t, run, caller, error)
  {
    hide Happen, UndoStep;
    Takes(s, t, o);
  }

  lemma HappenRearm(s: State, t: nat, pred: string, p: PendingResume, rest: seq<string>, o: Oracle)
    requires t < |s.threads| && s.threads[t] == Rearm(pred, p, rest) && Instant(s, o)
    requires p.spawnAttempts < MAX_SPAWN_RETRIES && pred in s.runs
    ensures Happen(s, Step(t, o)).runs
            == s.runs[pred := s.runs[pred].(pendingResume := Some(Again(p, o.now + s.cfg.resumeBaseMs)))]
  {
    hide Happen, Next;
    Takes(s, t, o);
  }

  /** The resume a failed spawn arms again. */
  function Again(p: PendingResume, at: int): PendingResume {
    p.(spawnAttempts := p.spawnAttempts + 1, resumeAt := at)
  }

  /** The store after a firing armed its resume again. */
  function Rearmed(s: State, run: Run, caller: Caller, o: Oracle): RunMap
    requires caller.ByFiring? && caller.pred in s.runs
  {
    (s.runs - {run.id})[caller.pred := s.runs[caller.pred]
      .(pendingResume := Some(Again(caller.p, o.now + s.cfg.resumeBaseMs)))]
  }

  /** What a failed spawn leaves, whoever asked for it and however it failed: the store without the run;
      a firing with attempts left then arms its resume once more. */
  lemma SpawnFailure(s: State, t: nat, run: Run, caller: Caller, o: Oracle)
    requires t < |s.threads| && s.threads[t] == Start(run, caller) && Instant(s, o) && SpawnFails(o)
    ensures var e := Step(t, o);
            && After(s, [e, e]) == UndoStep(s.(now := o.now), t, run, caller, ErrorOf(o))
            && (Rearms(caller, o) && caller.pred in s.runs && caller.pred != run.id ==>
                  After(s, [e, e, e]).runs == Rearmed(s, run, caller, o))
  {
    hide Happen, After, Again, UndoStep, SpawnFails, ErrorOf, Instant, Rearmed;
    var e := Step(t, o);
    AfterTwo(s, e);
    HappenStart(s, t, run, caller, o);
    var a := Happen(s, e);
    Undone(s, t, run, caller, o);
    HappenUndo(a, t, run, caller, ErrorOf(o), o);
    if Rearms(caller, o) && caller.pred in s.runs && caller.pred != run.id {
      RearmedAfter(s, Happen(a, e), t, run, caller, o);
    }
  }

  lemma RearmedAfter(s: State, b: State, t: nat, run: Run, caller: Caller, o: Oracle)
    requires t < |s.threads| && Instant(s, o) && Rearms(caller, o) && caller.pred in s.runs && caller.pred != run.id
    requires b == UndoStep(s.(now := o.now), t, run, caller, ErrorOf(o))
    ensures Happen(b, Step(t, o)).runs == Rearmed(s, run, caller, o)
  {
    hide Happen, Again, UndoStep, Instant;
    Undone(s, t, run, caller, o);
    HappenRearm(b, t, caller.pred, caller.p, caller.rest, o);
  }

  /** A firing goes on to arm its resume again. */
  predicate Rearms(caller: Caller, o: Oracle) {
    caller.ByFiring? && ErrorOf(o).OtherFailure? && caller.p.spawnAttempts < MAX_SPAWN_RETRIES
  }

  lemma Undone(s: State, t: nat, run: Run, caller: Caller, o: Oracle)
    requires t < |s.threads| && Instant(s, o)
    ensures var (a, b) := (Goto(s.(now := o.now), t, Undo(run, caller, ErrorOf(o))),
                           UndoStep(s.(now := o.now), t, run, caller, ErrorOf(o)));
            && t < |a.threads| && a.threads[t] == Undo(run, caller, ErrorOf(o))
            && UndoStep(a.(now := o.now), t, run, caller, ErrorOf(o)) == b
            && b.runs == s.runs - {run.id} && Instant(a, o) && Instant(b, o) && t < |b.threads| && b.cfg == s.cfg
            && b.threads[t] == AfterFailure(caller, ErrorOf(o))
  {
    hide ErrorOf, AfterFailure;
  }

  // --- a stop that is lost ---

  lemma HappenStopFlag(s: State, u: nat, id: string, o: Oracle)
    requires u < |s.threads| && s.threads[u] == StopFlag(id) && id in s.runs && Instant(s, o)
    ensures Happen(s, Step(u, o))
            == Goto(s.(now := o.now), u, StopFinalize(id)).(runs := s.runs[id := Stopped(s.runs[id])])
  {
    hide Happen;
    Takes(s, u, o);
  }

  lemma HappenStopFinalize(s: State, u: nat, id: string, o: Oracle)
    requires u < |s.threads| && s.threads[u] == StopFinalize(id) && id in s.runs && Instant(s, o)
    ensures var s' := Happen(s, Step(u, o));
            && s' == s.(now := o.now, threads := s.threads[u := Finished], runs := s.runs[id := s'.runs[id]],
                        stopEnded := s'.stopEnded)
            && id in s'.runs && !s'.runs[id].IsRunning() && s'.runs[id].stopRequested == s.runs[id].stopRequested
  {
    hide Happen;
    Takes(s, u, o);
    if s.runs[id].IsRunning() {} else {}
  }

  /** The state after a Stop's two store calls on run id. */
  lemma StopTaken(s: State, u: nat, id: string, o: Oracle)
    requires u < |s.threads| && s.threads[u] == StopFlag(id) && id in s.runs && Instant(s, o)
    ensures var c := After(s, [Step(u, o), Step(u, o)]);
            && id in c.runs && c.runs[id].stopRequested && !c.runs[id].IsRunning()
            && c == s.(now := o.now, threads := s.threads[u := Finished], runs := s.runs[id := c.runs[id]],
                       stopEnded := c.stopEnded)
  {
    hide Happen, After;
    var e := Step(u, o);
    AfterTwo(s, e);
    HappenStopFlag(s, u, id, o);
    HappenStopFinalize(Happen(s, e), u, id, o);
    assert s.threads[u := StopFinalize(id)][u := Finished] == s.threads[u := Finished];
    assert s.runs[id := Stopped(s.runs[id])].Keys == s.runs.Keys;
  }

  /** A Stop that reaches a reserved run before its failed spawn is lost: the store is the one it would be
      without the Stop, the run gone; a firing with attempts left arms its resume for the same id again. */
  lemma StopBeforeStartIsLost(s: State, events: seq<Event>, t: nat, u: nat, run: Run, caller: Caller, o: Oracle)
    requires Boot(s)
    requires var a := After(s, events);
             && t < |a.threads| && u < |a.threads| && Instant(a, o)
             && a.threads[t] == Start(run, caller) && a.threads[u] == StopFlag(run.id)
    requires SpawnFails(o)
    ensures var a := After(s, events);
            var stop, fail := [Step(u, o), Step(u, o)], [Step(t, o), Step(t, o)];
            var stopped := After(a, stop);
            && run.id in stopped.runs && stopped.runs[run.id].stopRequested && !stopped.runs[run.id].IsRunning()
            && After(stopped, fail).runs == After(a, fail).runs == a.runs - {run.id}
            && (Rearms(caller, o) ==>
                  var again := fail + [Step(t, o)];
                  && After(stopped, again).runs == After(a, again).runs
                  && run.id !in After(a, again).runs && caller.pred in After(a, again).runs
                  && After(a, again).runs[caller.pred].pendingResume
                     == Some(Again(caller.p, o.now + a.cfg.resumeBaseMs))
                  && Again(caller.p, o.now + a.cfg.resumeBaseMs).successorId == run.id)
  {
    hide Inv, Boot, Happen, After, Again, SpawnFails, Rearms, UndoStep, Rearmed, Instant, ErrorOf;
    AlwaysInv(s, events);
    var a := After(s, events);
    StartingAt(a, t, run, caller);
    StopTaken(a, u, run.id, o);
    var c := After(a, [Step(u, o), Step(u, o)]);
    StoppedAside(a, c, t, u, run.id, o);
    SpawnFailure(a, t, run, caller, o);
    SpawnFailure(c, t, run, caller, o);
    UndoRuns(a.(now := o.now), t, run, caller, o);
    UndoRuns(c.(now := o.now), t, run, caller, o);
    assert [Step(t, o), Step(t, o)] + [Step(t, o)] == [Step(t, o), Step(t, o), Step(t, o)];
    if Rearms(caller, o) {
      RearmsFiring(caller, o);
      RearmedAlike(a, c, run, caller, o);
    }
  }

  /** The Stop touched no other thread and no other run. */
  lemma StoppedAside(a: State, c: State, t: nat, u: nat, id: string, o: Oracle)
    requires t < |a.threads| && u < |a.threads| && a.threads[t].Start? && a.threads[u].StopFlag? && Instant(a, o)
    requires id in a.runs && id in c.runs
    requires c == a.(now := o.now, threads := a.threads[u := Finished], runs := a.runs[id := c.runs[id]],
                     stopEnded := c.stopEnded)
    ensures Instant(c, o) && t < |c.threads| && c.threads[t] == a.threads[t] && c.runs - {id} == a.runs - {id}
    ensures c.cfg == a.cfg && forall x | x in a.runs && x != id :: x in c.runs && c.runs[x] == a.runs[x]
  {}

  lemma RearmedAlike(a: State, c: State, run: Run, caller: Caller, o: Oracle)
    requires caller.ByFiring? && caller.pred in a.runs && caller.pred in c.runs && caller.pred != run.id
    requires c.runs - {run.id} == a.runs - {run.id} && c.cfg == a.cfg && c.runs[caller.pred] == a.runs[caller.pred]
    ensures var after := Rearmed(a, run, caller, o);
            && Rearmed(c, run, caller, o) == after && run.id !in after && caller.pred in after
            && after[caller.pred].pendingResume == Some(Again(caller.p, o.now + a.cfg.resumeBaseMs))
            && Again(caller.p, o.now + a.cfg.resumeBaseMs).successorId == caller.p.successorId
  {}

  lemma RearmsFiring(caller: Caller, o: Oracle)
    requires Rearms(caller, o)
    ensures caller.ByFiring?
  {}

  lemma UndoRuns(s: State, t: nat, run: Run, caller: Caller, o: Oracle)
    requires t < |s.threads|
    ensures UndoStep(s, t, run, caller, ErrorOf(o)).runs == s.runs - {run.id}
  {}

  lemma StartingAt(s: State, t: nat, run: Run, caller: Caller)
    requires Inv(s) && t < |s.threads| && s.threads[t] == Start(run, caller)
    ensures run.id in s.runs && run.id !in s.launched
    ensures caller.ByFiring? ==> caller.pred in s.runs && caller.pred != run.id && caller.p.successorId == run.id
  {
    hide Inv, FitsRun, FitsPending, Blank, Count, RunOk;
    ThreadAt(s, t);
    if caller.ByFiring? { LaunchedStay(s, caller.pred); }
  }

  // --- which stops stick ---

  ghost predicate StillStopped(s: State, id: string) {
    id in s.runs && s.runs[id].stopRequested
  }

  /** A stop request stays on the record whatever happens next exactly when the run's process was started
      before: a record whose process was not started has a thread that may still take it back. */
  lemma StopSticksIffStarted(s: State, events: seq<Event>, id: string)
    requires Boot(s) && StillStopped(After(s, events), id)
    ensures var a := After(s, events);
            (forall more :: StillStopped(After(a, more), id)) <==> id in a.launched
  {
    hide Inv, Boot, After, Happen;
    var a := After(s, events);
    AlwaysInv(s, events);
    if id in a.launched {
      forall more ensures StillStopped(After(a, more), id) {
        AfterConcat(s, events, more);
        assert (events + more)[..|events|] == events;
        StartedRunsLiveOn(s, events + more, |events|, id);
      }
    } else {
      var more := TakenBack(a, id);
      assert !StillStopped(After(a, more), id);
    }
  }

  /** An unstarted record can always still go. */
  lemma TakenBack(s: State, id: string) returns (more: seq<Event>)
    requires Inv(s) && id in s.runs && id !in s.launched
    ensures id !in After(s, more).runs
  {
    hide Inv, After, Happen, UndoStep;
    UnstartedHeld(s, id);
    var t: nat :| t < |s.threads| && StartsRun(s.threads[t], id);
    var spare := SomeFresh(s.births.Keys);
    var o := Refused(s, spare);
    var e := Step(t, o);
    AfterTwo(s, e);
    match s.threads[t]
    case Start(run, caller) =>
      more := [e, e];
      SpawnFailure(s, t, run, caller, o);
      UndoRuns(s.(now := o.now), t, run, caller, o);
    case Undo(run, caller, error) =>
      more := [e];
      HappenUndo(s, t, run, caller, error, o);
      UndoneRuns(s.(now := o.now), t, run, caller, error);
  }

  lemma UndoneRuns(s: State, t: nat, run: Run, caller: Caller, error: SpawnError)
    requires t < |s.threads|
    ensures UndoStep(s, t, run, caller, error).runs == s.runs - {run.id}
  {}

  /** The journal refuses the record. */
  ghost function Refused(s: State, spare: string): (o: Oracle)
    requires forall id <- s.births :: |id| < |spare|
    ensures Instant(s, o) && SpawnFails(o)
  {
    assert spare !in s.births;
    Oracle(s.now, s.now, spare, None, true, false, SpawnFailed(OtherFailure), "", 0, [], [], 0, 0, None)
  }

  lemma UnstartedHeld(s: State, id: string)
    requires Inv(s) && id in s.runs && id !in s.launched
    ensures exists t: nat :: t < |s.threads| && StartsRun(s.threads[t], id)
  {
    hide Inv, SetsOk, BirthsOk, RunsOk, ThreadsOk, HeldMeansCleared, Alone, StartsRun;
    InvParts(s);
    var t :| 0 <= t < |s.threads| && StartsRun(s.threads[t], id);
  }

  // --- a repeated POST ---

  /** A POST whose key names a started run spawns nothing: it takes no id, and whatever happens before it
      looks at the run, it then ends. */
  lemma RememberedKeySpawnsNothing(s: State, events: seq<Event>, t: nat, req: SpawnReq, o: Oracle, more: seq<Event>,
                                   last: Oracle)
    requires Boot(s) && req.prompt != "" && req.key.Some?
    requires var a := After(s, events);
             && t < |a.threads| && a.threads[t] == Lookup(req) && req.key.value in a.idem
             && a.idem[req.key.value] in a.launched && Fair(a, o)
    requires var c := After(s, events + [Step(t, o)] + more);
             && t < |c.threads| && c.threads[t] == Adopt(req, After(s, events).idem[req.key.value]) && Fair(c, last)
    ensures var (a, c) := (After(s, events), After(s, events + [Step(t, o)] + more));
            && Happen(a, Step(t, o)) == Goto(a.(now := o.now), t, Adopt(req, a.idem[req.key.value]))
            && Happen(c, Step(t, last)) == Goto(c.(now := last.now), t, Finished)
  {
    hide Inv, Boot, After, Happen, Later, Fair;
    var a, all := After(s, events), events + [Step(t, o)] + more;
    var (c, id) := (After(s, all), a.idem[req.key.value]);
    LookedUp(a, t, req, o);
    assert all[..|events|] == events;
    StartedRunsLiveOn(s, all, |events|, id);
    Adopted(c, t, req, id, last);
  }

  lemma LookedUp(s: State, t: nat, req: SpawnReq, o: Oracle)
    requires t < |s.threads| && s.threads[t] == Lookup(req) && req.prompt != "" && req.key.Some? && Fair(s, o)
    requires req.key.value in s.idem
    ensures Happen(s, Step(t, o)) == Goto(s.(now := o.now), t, Adopt(req, s.idem[req.key.value]))
  {}

  lemma Adopted(s: State, t: nat, req: SpawnReq, id: string, o: Oracle)
    requires t < |s.threads| && s.threads[t] == Adopt(req, id) && id in s.runs && Fair(s, o)
    ensures Happen(s, Step(t, o)) == Goto(s.(now := o.now), t, Finished)
  {}

  // --- a record left behind ---

  /** From a journal that kept the record of a failed spawn beside the resume armed again for it, the
      firing puts that ended record back to running exactly when the journal can be written, no Stop came
      for the predecessor, and the lane is free. */
  lemma LeftoverRevivedIff(s: State, t: nat, pred: string, rest: seq<string>, o: Oracle)
    requires t < |s.threads| && s.threads[t] == Clear(pred, rest) && Instant(s, o)
    requires pred in s.runs && s.runs[pred].pendingResume.Some?
    requires var succ := s.runs[pred].pendingResume.value.successorId;
             succ in s.runs && !s.runs[succ].IsRunning() && succ != pred
    ensures var (e, succ) := (Step(t, o), s.runs[pred].pendingResume.value.successorId);
            var after := After(s, [e, e, e]);
            && succ in after.runs
            && (after.runs[succ].IsRunning() <==>
                  o.writable && !s.runs[pred].stopRequested && LaneFree(s.runs, "build", LaneKeyOf(s.runs[pred].meta)))
  {
    hide Happen, After, LaneFree, LaneKeyOf, SuccessorRun, ReserveStep, Next;
    var e := Step(t, o);
    AfterTwo(s, e);
    LeftCleared(s, t, pred, rest, o);
    var a, p := Happen(s, e), s.runs[pred].pendingResume.value;
    if s.runs[pred].stopRequested {
      LeftStopped(a, t, pred, p, rest, o);
      LeftAlone(Happen(a, e), t, rest, p.successorId, o);
    } else {
      LeftRead(a, t, pred, p, rest, o);
      LeftReserve(s, Happen(a, e), t, pred, p, rest, o);
    }
  }

  lemma LeftCleared(s: State, t: nat, pred: string, rest: seq<string>, o: Oracle)
    requires t < |s.threads| && s.threads[t] == Clear(pred, rest) && Instant(s, o)
    requires pred in s.runs && s.runs[pred].pendingResume.Some?
    ensures Happen(s, Step(t, o))
            == Goto(s.(now := o.now), t, ReadPred(pred, s.runs[pred].pendingResume.value, rest))
                 .(runs := s.runs[pred := s.runs[pred].(pendingResume := None)])
  {
    hide Happen;
    Takes(s, t, o);
  }

  lemma LeftStopped(s: State, t: nat, pred: string, p: PendingResume, rest: seq<string>, o: Oracle)
    requires t < |s.threads| && s.threads[t] == ReadPred(pred, p, rest) && Instant(s, o)
    requires pred in s.runs && s.runs[pred].stopRequested
    ensures Happen(s, Step(t, o)) == Goto(s.(now := o.now), t, Next(rest))
  {
    hide Happen, Next;
    Takes(s, t, o);
  }

  /** The sweep goes on, or is over: no run comes back. */
  lemma LeftAlone(s: State, t: nat, rest: seq<string>, id: string, o: Oracle)
    requires t < |s.threads| && s.threads[t] == Next(rest) && Instant(s, o) && id in s.runs && !s.runs[id].IsRunning()
    ensures var after := Happen(s, Step(t, o));
            id in after.runs && !after.runs[id].IsRunning()
  {
    hide Happen, ClearStep;
    Takes(s, t, o);
    if rest != [] { ClearEnds(s.(now := o.now), t, rest[0], rest[1..], id); }
  }

  lemma ClearEnds(s: State, t: nat, x: string, rest: seq<string>, id: string)
    requires t < |s.threads| && id in s.runs && !s.runs[id].IsRunning()
    ensures var after := ClearStep(s, t, x, rest);
            id in after.runs && !after.runs[id].IsRunning()
  {
    hide Next;
    if x in s.runs && s.runs[x].pendingResume.Some? {} else {}
  }

  lemma LeftRead(s: State, t: nat, pred: string, p: PendingResume, rest: seq<string>, o: Oracle)
    requires t < |s.threads| && s.threads[t] == ReadPred(pred, p, rest) && Instant(s, o)
    requires pred in s.runs && !s.runs[pred].stopRequested
    ensures Happen(s, Step(t, o))
            == Goto(s.(now := o.now), t, Reserve(SuccessorRun(s.runs[pred], p, o), ByFiring(pred, p, rest)))
  {
    hide Happen, SuccessorRun;
    Takes(s, t, o);
  }

  lemma LeftReserve(s: State, b: State, t: nat, pred: string, p: PendingResume, rest: seq<string>, o: Oracle)
    requires t < |b.threads| && Instant(b, o) && pred in s.runs && p.successorId != pred
    requires p.successorId in s.runs && !s.runs[p.successorId].IsRunning()
    requires b.runs == s.runs[pred := s.runs[pred].(pendingResume := None)]
    requires b.threads[t] == Reserve(SuccessorRun(b.runs[pred], p, o), ByFiring(pred, p, rest))
    ensures var after := Happen(b, Step(t, o));
            && p.successorId in after.runs
            && (after.runs[p.successorId].IsRunning() <==>
                  o.writable && LaneFree(s.runs, "build", LaneKeyOf(s.runs[pred].meta)))
  {
    hide Happen, LaneFree, LaneKeyOf, ReserveStep, SuccessorRun;
    Takes(b, t, o);
    SameLanes(s.runs, b.runs, pred, LaneKeyOf(s.runs[pred].meta));
    var run := SuccessorRun(b.runs[pred], p, o);
    SuccessorFields(b.runs[pred], p, o);
    ReservedIff(b.(now := o.now), t, run, ByFiring(pred, p, rest), o);
  }

  lemma SuccessorFields(pred: Run, p: PendingResume, o: Oracle)
    ensures var run := SuccessorRun(pred, p, o); run.id == p.successorId && run.IsRunning() && run.meta == pred.meta
  {}

  /** A reserve over an ended record. */
  lemma ReservedIff(s: State, t: nat, run: Run, caller: Caller, o: Oracle)
    requires t < |s.threads| && run.id in s.runs && !s.runs[run.id].IsRunning() && run.IsRunning()
    ensures var after := ReserveStep(s, t, run, caller, o);
            && run.id in after.runs
            && (after.runs[run.id].IsRunning() <==> o.writable && LaneFree(s.runs, "build", LaneKeyOf(run.meta)))
  {
    hide LaneFree, HolderChosen, LaneKeyOf, AfterReserve, AfterFailure, Counted;
    if !o.writable {
    } else if LaneFree(s.runs, "build", LaneKeyOf(run.meta)) {
    } else if HolderChosen(s, run, o) {
    } else {
    }
  }

  lemma SameLanes(runs: RunMap, after: RunMap, id: string, laneKey: string)
    requires id in runs && after == runs[id := runs[id].(pendingResume := None)]
    ensures LaneFree(after, "build", laneKey) <==> LaneFree(runs, "build", laneKey)
  {
    assert forall x <- runs :: Holds(after[x], "build", laneKey) <==> Holds(runs[x], "build", laneKey);
  }
}
