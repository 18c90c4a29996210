/** A run of the engine with its journal, a crash, and the restart on that journal: the record of a failed
    spawn, found beside the resume armed again for its id, comes back to life, on another engine. */
module BuildRestart {
  import opened Wrappers
  import opened Runs
  import opened ResumePlan
  import opened MemStore
  import opened BuildEngine
  import opened BuildInvariant
  import opened BuildReach
  import opened BuildVerdicts
  import opened BuildJournal
  import opened BuildWitness

  // --- a thread's step with its journal calls ---

  ghost predicate JournalAt(j: Journaling, runs: RunMap, threads: seq<Thread>, born: set<string>, journal: RunMap) {
    At(j.engine, runs, threads, born) && j.journal == journal && j.work == map[]
  }

  /** A step and its rejournal, with every write done. */
  function Rejournaling(t: nat, o: Oracle): seq<JournalEvent> {
    [Engine(Step(t, o)), Advance(t, true), Advance(t, true)]
  }

  /** A step and a write of the record in hand. */
  function Writing(t: nat, o: Oracle): seq<JournalEvent> {
    [Engine(Step(t, o)), Advance(t, true)]
  }

  /** Thread t of a quiet journal takes a step. */
  ghost predicate Moving(j: Journaling, t: nat, o: Oracle) {
    && j.work == map[] && t < |j.engine.threads|
    && j.engine.now == o.now == o.atDetect == NOW && o.freshId !in j.engine.births
  }

  lemma MovingTaken(j: Journaling, t: nat, o: Oracle)
    requires Moving(j, t, o)
    ensures Record(j, Engine(Step(t, o))) == StepJournal(j, t, o)
  {
    hide StepJournal;
  }

  lemma StepsAlone(j: Journaling, t: nat, o: Oracle)
    requires Moving(j, t, o) && WorkAfter(j.engine, t, o) == None
    ensures RecordAll(j, [Engine(Step(t, o))])
            == Journaling(Happen(j.engine, Step(t, o)), StartJournal(j.engine, t, o, j.journal), map[])
  {
    hide Happen, WorkAfter, StartJournal, Record;
    MovingTaken(j, t, o);
    RecordOnes(j, Engine(Step(t, o)), Advance(t, true), Advance(t, true));
  }

  lemma StepsWriting(j: Journaling, t: nat, o: Oracle, run: Run)
    requires Moving(j, t, o) && WorkAfter(j.engine, t, o) == Some(Write(run)) && !j.engine.threads[t].Start?
    ensures RecordAll(j, Writing(t, o)) == Journaling(Happen(j.engine, Step(t, o)), j.journal[run.id := run], map[])
  {
    hide Happen, WorkAfter;
    MovingTaken(j, t, o);
    RecordOnes(j, Engine(Step(t, o)), Advance(t, true), Advance(t, true));
    assert map[t := Write(run)] - {t} == map[];
  }

  lemma StepsRejournaling(j: Journaling, t: nat, o: Oracle, id: string)
    requires Moving(j, t, o) && WorkAfter(j.engine, t, o) == Some(Rejournal(id)) && !j.engine.threads[t].Start?
    requires id in Happen(j.engine, Step(t, o)).runs && Happen(j.engine, Step(t, o)).runs[id].id == id
    ensures var s' := Happen(j.engine, Step(t, o));
            RecordAll(j, Rejournaling(t, o)) == Journaling(s', j.journal[id := s'.runs[id]], map[])
  {
    hide Happen, WorkAfter, Record;
    MovingTaken(j, t, o);
    var e, a := Engine(Step(t, o)), Advance(t, true);
    RecordOnes(j, e, a, a);
    TwoAdvances(StepJournal(j, t, o), t, id);
  }

  lemma TwoAdvances(j: Journaling, t: nat, id: string)
    requires j.work == map[t := Rejournal(id)] && id in j.engine.runs && j.engine.runs[id].id == id
    ensures Record(Record(j, Advance(t, true)), Advance(t, true))
            == Journaling(j.engine, j.journal[id := j.engine.runs[id]], map[])
  {
    assert map[t := Rejournal(id)][t := Write(j.engine.runs[id])] - {t} == map[];
  }

  // --- the run up to the failed spawn ---

  const ARMED := ENDED.(pendingResume := Some(PENDING))
  const RETRY := PENDING.(spawnAttempts := 1)
  const REARMED := ENDED.(pendingResume := Some(RETRY))

  lemma JournalAsks(j: Journaling)
    requires JournalAt(j, map[], [Lookup(REQUEST)], {}, map[])
    ensures JournalAt(RecordAll(j, [Engine(Step(0, Works("a")))]), map[], [Reserve(FIRST, POST)], {"a"}, map[])
  {
    hide Happen, Record, RecordAll;
    Asks(j.engine);
    StepsAlone(j, 0, Works("a"));
  }

  lemma JournalReserves(j: Journaling)
    requires JournalAt(j, map[], [Reserve(FIRST, POST)], {"a"}, map[])
    ensures JournalAt(RecordAll(j, [Engine(Step(0, Works("x")))]),
                      map["a" := FIRST], [Start(FIRST, POST)], {"a"}, map[])
  {
    hide Happen, Record, RecordAll;
    Reserves(j.engine);
    StepsAlone(j, 0, Works("x"));
  }

  lemma JournalStarts(j: Journaling)
    requires JournalAt(j, map["a" := FIRST], [Start(FIRST, POST)], {"a"}, map[])
    ensures JournalAt(RecordAll(j, [Engine(Step(0, Works("x")))]),
                      map["a" := FIRST], [Register(FIRST, 7, POST)], {"a"}, map["a" := FIRST])
  {
    hide Happen, Record, RecordAll;
    Starts(j.engine);
    StepsAlone(j, 0, Works("x"));
  }

  lemma JournalRegisters(j: Journaling)
    requires JournalAt(j, map["a" := FIRST], [Register(FIRST, 7, POST)], {"a"}, map["a" := FIRST])
    ensures JournalAt(RecordAll(j, Writing(0, Works("x"))),
                      map["a" := REGISTERED], [Finished, BeginFinalizing("a", EXIT)], {"a"}, map["a" := REGISTERED])
  {
    hide Happen, Record, RecordAll;
    Registers(j.engine);
    StepsWriting(j, 0, Works("x"), REGISTERED);
  }

  lemma JournalBegins(j: Journaling)
    requires JournalAt(j,
                       map["a" := REGISTERED], [Finished, BeginFinalizing("a", EXIT)], {"a"}, map["a" := REGISTERED])
    ensures JournalAt(RecordAll(j, [Engine(Step(1, Works("x")))]),
                      map["a" := MARKED], [Finished, Finalize("a", EXIT)], {"a"}, map["a" := REGISTERED])
  {
    hide Happen, Record, RecordAll;
    Begins(j.engine);
    StepsAlone(j, 1, Works("x"));
  }

  lemma JournalFinalizes(j: Journaling)
    requires JournalAt(j, map["a" := MARKED], [Finished, Finalize("a", EXIT)], {"a"}, map["a" := REGISTERED])
    ensures JournalAt(RecordAll(j, [Engine(Step(1, Works("x")))]),
                      map["a" := ENDED], [Finished, ReadFinal("a", EXIT)], {"a"}, map["a" := REGISTERED])
  {
    hide Happen, Record, RecordAll;
    Finalizes(j.engine);
    StepsAlone(j, 1, Works("x"));
  }

  lemma JournalReadsFinal(j: Journaling)
    requires JournalAt(j, map["a" := ENDED], [Finished, ReadFinal("a", EXIT)], {"a"}, map["a" := REGISTERED])
    ensures JournalAt(RecordAll(j, Rejournaling(1, Works("x"))),
                      map["a" := ENDED], [Finished, Decide(ENDED, CAUSE)], {"a"}, map["a" := ENDED])
  {
    hide Happen, Record, RecordAll;
    ReadsFinal(j.engine);
    StepsRejournaling(j, 1, Works("x"), "a");
  }

  lemma JournalDecides(j: Journaling)
    requires JournalAt(j, map["a" := ENDED], [Finished, Decide(ENDED, CAUSE)], {"a"}, map["a" := ENDED])
    ensures JournalAt(RecordAll(j, [Engine(Step(1, Works("b")))]),
                      map["a" := ENDED], [Finished, Arm("a", "b", RESUME)], {"a", "b"}, map["a" := ENDED])
  {
    hide Happen, Record, RecordAll;
    Decides(j.engine);
    StepsAlone(j, 1, Works("b"));
  }

  lemma JournalArms(j: Journaling)
    requires JournalAt(j, map["a" := ENDED], [Finished, Arm("a", "b", RESUME)], {"a", "b"}, map["a" := ENDED])
    ensures JournalAt(RecordAll(j, Rejournaling(1, Works("x"))),
                      map["a" := ARMED],
                      [Finished, EndFinalizing("a"), Clear("a", [])],
                      {"a", "b"}, map["a" := ARMED])
  {
    hide Happen, Record, RecordAll;
    Arms(j.engine);
    StepsRejournaling(j, 1, Works("x"), "a");
  }

  lemma JournalClears(j: Journaling)
    requires JournalAt(j,
                       map["a" := ARMED],
                       [Finished, EndFinalizing("a"), Clear("a", [])],
                       {"a", "b"}, map["a" := ARMED])
    ensures JournalAt(RecordAll(j, Rejournaling(2, Works("x"))),
                      map["a" := ENDED],
                      [Finished, EndFinalizing("a"), ReadPred("a", PENDING, [])],
                      {"a", "b"}, map["a" := ENDED])
  {
    hide Happen, Record, RecordAll;
    Clears(j.engine);
    StepsRejournaling(j, 2, Works("x"), "a");
  }

  lemma JournalReadsPred(j: Journaling)
    requires JournalAt(j,
                       map["a" := ENDED],
                       [Finished, EndFinalizing("a"), ReadPred("a", PENDING, [])],
                       {"a", "b"}, map["a" := ENDED])
    ensures JournalAt(RecordAll(j, [Engine(Step(2, Works("x")))]),
                      map["a" := ENDED],
                      [Finished, EndFinalizing("a"), Reserve(SECOND, FIRING)],
                      {"a", "b"}, map["a" := ENDED])
  {
    hide Happen, Record, RecordAll;
    ReadsPred(j.engine);
    StepsAlone(j, 2, Works("x"));
  }

  lemma JournalReservesNext(j: Journaling)
    requires JournalAt(j,
                       map["a" := ENDED],
                       [Finished, EndFinalizing("a"), Reserve(SECOND, FIRING)],
                       {"a", "b"}, map["a" := ENDED])
    ensures JournalAt(RecordAll(j, [Engine(Step(2, Works("x")))]),
                      map["a" := ENDED, "b" := SECOND],
                      [Finished, EndFinalizing("a"), Start(SECOND, FIRING)],
                      {"a", "b"}, map["a" := ENDED])
  {
    hide Happen, Record, RecordAll;
    ReservesNext(j.engine);
    StepsAlone(j, 2, Works("x"));
  }

  lemma FailsNext(s: State)
    requires At(s,
                map["a" := ENDED, "b" := SECOND], [Finished, EndFinalizing("a"), Start(SECOND, FIRING)], {"a", "b"})
    ensures At(Happen(s, Step(2, FAILS)),
               map["a" := ENDED, "b" := SECOND],
               [Finished, EndFinalizing("a"), Undo(SECOND, FIRING, OtherFailure)],
               {"a", "b"})
  {
    Steps(s, 2, FAILS);
  }

  lemma JournalFailsNext(j: Journaling)
    requires JournalAt(j,
                       map["a" := ENDED, "b" := SECOND],
                       [Finished, EndFinalizing("a"), Start(SECOND, FIRING)],
                       {"a", "b"}, map["a" := ENDED])
    ensures JournalAt(RecordAll(j, [Engine(Step(2, FAILS))]),
                      map["a" := ENDED, "b" := SECOND],
                      [Finished, EndFinalizing("a"), Undo(SECOND, FIRING, OtherFailure)],
                      {"a", "b"}, map["a" := ENDED, "b" := SECOND])
  {
    hide Happen, Record, RecordAll;
    FailsNext(j.engine);
    StepsAlone(j, 2, FAILS);
  }

  lemma Undoes(s: State)
    requires At(s,
                map["a" := ENDED, "b" := SECOND],
                [Finished, EndFinalizing("a"), Undo(SECOND, FIRING, OtherFailure)],
                {"a", "b"})
    ensures At(Happen(s, Step(2, FAILS)),
               map["a" := ENDED], [Finished, EndFinalizing("a"), Rearm("a", PENDING, [])], {"a", "b"})
  {
    Steps(s, 2, FAILS);
  }

  lemma JournalUndoes(j: Journaling)
    requires JournalAt(j,
                       map["a" := ENDED, "b" := SECOND],
                       [Finished, EndFinalizing("a"), Undo(SECOND, FIRING, OtherFailure)],
                       {"a", "b"}, map["a" := ENDED, "b" := SECOND])
    ensures JournalAt(RecordAll(j, [Engine(Step(2, FAILS))]),
                      map["a" := ENDED],
                      [Finished, EndFinalizing("a"), Rearm("a", PENDING, [])],
                      {"a", "b"}, map["a" := ENDED, "b" := SECOND])
  {
    hide Happen, Record, RecordAll;
    Undoes(j.engine);
    StepsAlone(j, 2, FAILS);
  }

  lemma Rearms(s: State)
    requires At(s, map["a" := ENDED], [Finished, EndFinalizing("a"), Rearm("a", PENDING, [])], {"a", "b"})
    ensures At(Happen(s, Step(2, FAILS)), map["a" := REARMED], [Finished, EndFinalizing("a"), Finished], {"a", "b"})
  {
    Steps(s, 2, FAILS);
  }

  lemma JournalRearms(j: Journaling)
    requires JournalAt(j,
                       map["a" := ENDED],
                       [Finished, EndFinalizing("a"), Rearm("a", PENDING, [])],
                       {"a", "b"}, map["a" := ENDED, "b" := SECOND])
    ensures JournalAt(RecordAll(j, Rejournaling(2, FAILS)),
                      map["a" := REARMED],
                      [Finished, EndFinalizing("a"), Finished],
                      {"a", "b"}, map["a" := REARMED, "b" := SECOND])
  {
    hide Happen, Record, RecordAll;
    Rearms(j.engine);
    StepsRejournaling(j, 2, FAILS, "a");
  }

  const START := Journaling(EMPTY, map[], map[])

  /** A POST, its build to its end, the resume planned and armed. */
  const ARMING: seq<JournalEvent> :=
    [Engine(Call(Lookup(REQUEST)))]
    + [Engine(Step(0, Works("a"))), Engine(Step(0, Works("x"))), Engine(Step(0, Works("x")))]
    + Writing(0, Works("x"))
    + [Engine(Step(1, Works("x"))), Engine(Step(1, Works("x")))]
    + Rejournaling(1, Works("x"))
    + [Engine(Step(1, Works("b")))]
    + Rejournaling(1, Works("x"))

  /** The timer fires, the successor is reserved and journaled, its spawn fails and the resume is armed again. */
  const FAILING: seq<JournalEvent> :=
    Rejournaling(2, Works("x"))
    + [Engine(Step(2, Works("x"))), Engine(Step(2, Works("x"))), Engine(Step(2, FAILS)), Engine(Step(2, FAILS))]
    + Rejournaling(2, FAILS)

  /** What is on disk then: the resume armed again, beside the record of the failed spawn. */
  const DISK: RunMap := map["a" := REARMED, "b" := SECOND]

  lemma Then(events: seq<JournalEvent>, piece: seq<JournalEvent>) returns (more: seq<JournalEvent>)
    ensures more == events + piece && RecordAll(START, more) == RecordAll(RecordAll(START, events), piece)
  {
    hide RecordAll;
    more := events + piece;
    RecordConcat(START, events, piece);
  }

  lemma BuildArms()
    ensures JournalAt(RecordAll(START, ARMING), map["a" := ARMED], [Finished, EndFinalizing("a"), Clear("a", [])],
                      {"a", "b"}, map["a" := ARMED])
  {
    hide JournalAt, RecordAll, Writing, Rejournaling, Works, FIRST, REGISTERED, MARKED, ENDED, ARMED;
    var events := Asked();
    JournalAsks(RecordAll(START, events));
    events := Then(events, [Engine(Step(0, Works("a")))]);
    JournalReserves(RecordAll(START, events));
    events := Then(events, [Engine(Step(0, Works("x")))]);
    JournalStarts(RecordAll(START, events));
    events := Then(events, [Engine(Step(0, Works("x")))]);
    JournalRegisters(RecordAll(START, events));
    events := Then(events, Writing(0, Works("x")));
    JournalBegins(RecordAll(START, events));
    events := Then(events, [Engine(Step(1, Works("x")))]);
    JournalFinalizes(RecordAll(START, events));
    events := Then(events, [Engine(Step(1, Works("x")))]);
    JournalReadsFinal(RecordAll(START, events));
    events := Then(events, Rejournaling(1, Works("x")));
    JournalDecides(RecordAll(START, events));
    events := Then(events, [Engine(Step(1, Works("b")))]);
    JournalArms(RecordAll(START, events));
    events := Then(events, Rejournaling(1, Works("x")));
    assert events == ARMING;
  }

  lemma Asked() returns (events: seq<JournalEvent>)
    ensures events == [Engine(Call(Lookup(REQUEST)))]
    ensures JournalAt(RecordAll(START, events), map[], [Lookup(REQUEST)], {}, map[])
  {
    events := [Engine(Call(Lookup(REQUEST)))];
    RecordOnes(START, events[0], events[0], events[0]);
    EmptyAt();
    Calls(EMPTY, Lookup(REQUEST), map[], [], {});
  }

  lemma SpawnFailed()
    ensures JournalAt(RecordAll(START, ARMING + FAILING), map["a" := REARMED],
                      [Finished, EndFinalizing("a"), Finished], {"a", "b"}, DISK)
  {
    hide JournalAt, RecordAll, Writing, Rejournaling, Works, FAILS, ENDED, ARMED, SECOND, REARMED;
    BuildArms();
    JournalClears(RecordAll(START, ARMING));
    var events := Then(ARMING, Rejournaling(2, Works("x")));
    JournalReadsPred(RecordAll(START, events));
    events := Then(events, [Engine(Step(2, Works("x")))]);
    JournalReservesNext(RecordAll(START, events));
    events := Then(events, [Engine(Step(2, Works("x")))]);
    JournalFailsNext(RecordAll(START, events));
    events := Then(events, [Engine(Step(2, FAILS))]);
    JournalUndoes(RecordAll(START, events));
    events := Then(events, [Engine(Step(2, FAILS))]);
    JournalRearms(RecordAll(START, events));
    events := Then(events, Rejournaling(2, FAILS));
    assert events == ARMING + FAILING;
  }

  // --- the restart ---

  const SURVIVED := ExitNote(-1, true, true)
  const OLD := Loaded(REARMED)
  const BACK := Loaded(SECOND)
  const GONE := FinalizedRun(BACK.(finalizing := true), -1)
  const THIRD := SuccessorRun(OLD, RETRY, Works("x"))
  const AGAIN := ByFiring("a", RETRY, [])

  /** The engine restarted on that disk. */
  ghost const RESTARTED := Restarted(DISK, SETTINGS, READER, NOW, Caps(1, 0))

  lemma RestartedAt()
    ensures At(RESTARTED, map["a" := OLD, "b" := BACK], [BeginFinalizing("b", SURVIVED)], {"a", "b"})
  {
    hide Loaded;
    OneRunning();
    assert Reload(DISK) == map["a" := OLD, "b" := BACK];
    assert Successors(DISK) == {"b"} by { DiskSuccessors(); }
  }

  lemma DiskSuccessors()
    ensures Successors(DISK) == {"b"}
  {
    assert DISK["a"].pendingResume.value.successorId == "b" && "a" in DISK;
  }

  lemma OneRunning()
    ensures Watchers(RunningIds(DISK)) == [BeginFinalizing("b", SURVIVED)]
  {
    assert RunningIds(DISK) == {"b"};
    assert Pick({"b"}) == "b" && {"b"} - {"b"} == {};
    assert Watchers({}) == [];
  }

  lemma SurvivorBegins(s: State)
    requires At(s, map["a" := OLD, "b" := BACK], [BeginFinalizing("b", SURVIVED)], {"a", "b"})
    ensures At(Happen(s, Step(0, Works("x"))),
               map["a" := OLD, "b" := BACK.(finalizing := true)], [Finalize("b", SURVIVED)], {"a", "b"})
  {
    Steps(s, 0, Works("x"));
  }

  lemma SurvivorEnds(s: State)
    requires At(s, map["a" := OLD, "b" := BACK.(finalizing := true)], [Finalize("b", SURVIVED)], {"a", "b"})
    ensures At(Happen(s, Step(0, Works("x"))), map["a" := OLD, "b" := GONE], [ReadFinal("b", SURVIVED)], {"a", "b"})
  {
    Steps(s, 0, Works("x"));
  }

  lemma SurvivorRead(s: State)
    requires At(s, map["a" := OLD, "b" := GONE], [ReadFinal("b", SURVIVED)], {"a", "b"})
    ensures At(Happen(s, Step(0, Works("x"))),
               map["a" := OLD, "b" := GONE], [Decide(GONE, RedriveCause(Interrupted, None))], {"a", "b"})
  {
    Steps(s, 0, Works("x"));
  }

  /** The one resume of the settings is spent. */
  lemma BudgetSpent()
    ensures PlanResume(SETTINGS, READER, GONE, [], RedriveCause(Interrupted, None), PlanClock(NOW, NOW), None)
            == Stay(TurnBudget)
  {}

  lemma SurvivorKept(s: State)
    requires At(s, map["a" := OLD, "b" := GONE], [Decide(GONE, RedriveCause(Interrupted, None))], {"a", "b"})
    ensures At(Happen(s, Step(0, Works("x"))), map["a" := OLD, "b" := GONE], [EndFinalizing("b")], {"a", "b"})
  {
    Steps(s, 0, Works("x"));
    BudgetSpent();
  }

  lemma DueIsA(s: State)
    requires s.runs == map["a" := OLD, "b" := GONE]
    ensures DueList(s, ["a"], NOW)
  {
    assert "a" in ["a"];
  }

  lemma SweepLists(s: State)
    requires At(s, map["a" := OLD, "b" := GONE], [EndFinalizing("b"), SweepList], {"a", "b"})
    ensures At(Happen(s, Step(1, Works("x").(due := ["a"]))),
               map["a" := OLD, "b" := GONE], [EndFinalizing("b"), Clear("a", [])], {"a", "b"})
  {
    hide DueList;
    Steps(s, 1, Works("x").(due := ["a"]));
    DueIsA(s);
    assert ["a"][1..] == [];
  }

  lemma OldCleared(s: State)
    requires At(s, map["a" := OLD, "b" := GONE], [EndFinalizing("b"), Clear("a", [])], {"a", "b"})
    ensures At(Happen(s, Step(1, Works("x"))),
               map["a" := OLD.(pendingResume := None), "b" := GONE],
               [EndFinalizing("b"), ReadPred("a", RETRY, [])],
               {"a", "b"})
  {
    Steps(s, 1, Works("x"));
  }

  lemma OldRead(s: State)
    requires At(s,
                map["a" := OLD.(pendingResume := None), "b" := GONE],
                [EndFinalizing("b"), ReadPred("a", RETRY, [])],
                {"a", "b"})
    ensures At(Happen(s, Step(1, Works("x"))),
               map["a" := OLD.(pendingResume := None), "b" := GONE],
               [EndFinalizing("b"), Reserve(THIRD, AGAIN)],
               {"a", "b"})
  {
    Steps(s, 1, Works("x"));
  }

  lemma LaneIsFree(runs: RunMap)
    requires runs == map["a" := OLD.(pendingResume := None), "b" := GONE]
    ensures LaneFree(runs, "build", LaneKeyOf(THIRD.meta))
  {}

  lemma ComesBack(s: State)
    requires At(s,
                map["a" := OLD.(pendingResume := None), "b" := GONE],
                [EndFinalizing("b"), Reserve(THIRD, AGAIN)],
                {"a", "b"})
    ensures At(Happen(s, Step(1, Works("x"))),
               map["a" := OLD.(pendingResume := None), "b" := THIRD],
               [EndFinalizing("b"), Start(THIRD, AGAIN)],
               {"a", "b"})
  {
    hide Happen, LaneFree, OLD, GONE, LaneKeyOf;
    Steps(s, 1, Works("x"));
    LaneIsFree(s.runs);
  }

  /** The record of the failed spawn is finalized as interrupted. */
  const SURVIVING: seq<Event> := [Step(0, Works("x")), Step(0, Works("x")), Step(0, Works("x")), Step(0, Works("x"))]

  /** A sweep fires the resume. */
  const FIRED: seq<Event> :=
    [Call(SweepList), Step(1, Works("x").(due := ["a"])), Step(1, Works("x")), Step(1, Works("x")), Step(1, Works("x"))]

  lemma Next1(events: seq<Event>, e: Event) returns (more: seq<Event>)
    ensures more == events + [e] && After(RESTARTED, more) == Happen(After(RESTARTED, events), e)
  {
    hide Happen;
    more := events + [e];
    assert more[..|events|] == events;
  }

  lemma SurvivorGone()
    ensures At(After(RESTARTED, SURVIVING), map["a" := OLD, "b" := GONE], [EndFinalizing("b")], {"a", "b"})
  {
    hide Happen, At, After, Works, GONE, OLD, BACK, RESTARTED;
    RestartedAt();
    NoEvents(RESTARTED);
    SurvivorBegins(RESTARTED);
    var events := Next1([], Step(0, Works("x")));
    SurvivorEnds(After(RESTARTED, events));
    events := Next1(events, Step(0, Works("x")));
    SurvivorRead(After(RESTARTED, events));
    events := Next1(events, Step(0, Works("x")));
    SurvivorKept(After(RESTARTED, events));
    events := Next1(events, Step(0, Works("x")));
    assert events == SURVIVING;
  }

  lemma NoEvents(s: State)
    ensures After(s, []) == s
  {}

  lemma SuccessorBack()
    ensures At(After(RESTARTED, SURVIVING + FIRED), map["a" := OLD.(pendingResume := None), "b" := THIRD],
               [EndFinalizing("b"), Start(THIRD, AGAIN)], {"a", "b"})
  {
    hide Happen, At, After, Works, GONE, OLD, BACK, THIRD, RETRY, AGAIN, RESTARTED, SURVIVING;
    SurvivorGone();
    Calls(After(RESTARTED, SURVIVING), SweepList, map["a" := OLD, "b" := GONE], [EndFinalizing("b")], {"a", "b"});
    var events := Next1(SURVIVING, Call(SweepList));
    assert [EndFinalizing("b")] + [SweepList] == [EndFinalizing("b"), SweepList];
    SweepLists(After(RESTARTED, events));
    events := Next1(events, Step(1, Works("x").(due := ["a"])));
    OldCleared(After(RESTARTED, events));
    events := Next1(events, Step(1, Works("x")));
    OldRead(After(RESTARTED, events));
    events := Next1(events, Step(1, Works("x")));
    ComesBack(After(RESTARTED, events));
    events := Next1(events, Step(1, Works("x")));
    assert events == SURVIVING + FIRED;
  }

  /** From an empty store, an engine writes a journal that has the record of a failed spawn beside the resume
      armed again for it. Restarted on it, the engine ends that record, and then puts it back to running;
      the chain was asked for on one engine and goes on on another. */
  lemma AnEndedRecordComesBack()
    ensures Sound(START)
    ensures RecordAll(START, ARMING + FAILING).journal == DISK && Reloads(DISK, RESTARTED) && !NoLeftover(DISK)
    ensures var ended, back := After(RESTARTED, SURVIVING), After(RESTARTED, SURVIVING + FIRED);
            && "b" in ended.runs && ended.runs["b"].status == Errored && ended.runs["b"].exitCode == Some(-1)
            && "b" in back.runs && back.runs["b"].status == Running
            && SECOND.engine == "codex" && back.runs["b"].engine == "claude"
  {
    hide Happen, After, RecordAll, Sound, Boot, Restarted;
    StartSound();
    SpawnFailed();
    DiskKeepsLeftover();
    RestartReloads(DISK, SETTINGS, READER, NOW, Caps(1, 0));
    SurvivorGone();
    SuccessorBack();
    Engines();
  }

  lemma StartSound()
    ensures Sound(START)
  {
    hide Boot, Inv, Decided;
    EmptyBoots();
    BootInv(EMPTY);
    BootDecided(EMPTY);
  }

  lemma DiskKeepsLeftover()
    ensures !NoLeftover(DISK)
  {
    assert "a" in DISK && DISK["a"].pendingResume.value.successorId in DISK;
  }

  lemma Engines()
    ensures SECOND.engine == "codex" && THIRD.engine == "claude" && THIRD.status == Running
    ensures GONE.status == Errored && GONE.exitCode == Some(-1)
  {}
}
