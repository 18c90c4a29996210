/** A run of the engine in which a Stop is lost, event by event from an empty store: one build is asked
    for, fails, resumes, and is stopped between the reservation of its successor and its spawn. */
module BuildWitness {
  import opened Wrappers
  import opened Runs
  import opened BuildClass
  import opened ResumePlan
  import opened MemStore
  import opened BuildEngine
  import opened BuildReach
  import opened BuildStops

  /** The one instant of the run. */
  const NOW := 1

  const SETTINGS := Config(1, 0, 300_000, 3, 1, 0, 0, false)
  const REQUEST := SpawnReq("build", None, None, Some(Meta("build", "lane")), None, "codex")
  const EXIT := ExitNote(1, false, false)
  const POST := ByPost(None)

  /** No output is a decision, and none a limit. */
  const READER: Reader := Reader(_ => None, _ => "", _ => None, _ => false, _ => false, (_, _) => None)

  /** An engine without runs. */
  const EMPTY := State(SETTINGS, READER, map[], [], map[], NOW, Caps(1, 0), map[], {}, {}, {}, map[], {}, map[], map[])

  /** Everything works, the process exits with code 1 and without output, and no time passes. */
  function Works(freshId: string): Oracle {
    Oracle(NOW, NOW, freshId, None, true, true, Started(7), "", 1, [], [], 0, 0, None)
  }

  /** The successor's process does not start. */
  const FAILS := Works("x").(spawn := SpawnFailed(OtherFailure))

  const FIRST := NewRun(REQUEST, Works("a"))
  const REGISTERED := FIRST.(pid := Some(7))
  const MARKED := REGISTERED.(finalizing := true)
  const ENDED := FinalizedRun(MARKED, 1)
  const CAUSE := RedriveCause(Exit, Some(1))
  const RESUME := Resume(0, 1, 0, NOW, false)
  const PENDING := PendingResume("b", NOW, 1, 0, NOW, 0)
  const SECOND := SuccessorRun(ENDED, PENDING, Works("x"))
  const FIRING := ByFiring("a", PENDING, [])

  /** What the engine's next steps depend on. */
  ghost predicate At(s: State, runs: RunMap, threads: seq<Thread>, born: set<string>) {
    && s.cfg == SETTINGS && s.reader == READER && s.now == NOW && s.idem == map[]
    && s.runs == runs && s.threads == threads && s.births.Keys == born
  }

  lemma Calls(s: State, th: Thread, runs: RunMap, threads: seq<Thread>, born: set<string>)
    requires At(s, runs, threads, born) && Entry(th)
    ensures At(Happen(s, Call(th)), runs, threads + [th], born)
  {}

  lemma Steps(s: State, t: nat, o: Oracle)
    requires t < |s.threads| && s.now == o.now == o.atDetect == NOW && o.freshId !in s.births
    ensures Happen(s, Step(t, o)) == ThreadStep(s, t, o)
  {
    hide ThreadStep;
    assert s.(now := NOW) == s;
    Takes(s, t, o);
  }

  lemma Asks(s: State)
    requires At(s, map[], [Lookup(REQUEST)], {})
    ensures At(Happen(s, Step(0, Works("a"))), map[], [Reserve(FIRST, POST)], {"a"})
  {
    Steps(s, 0, Works("a"));
  }

  lemma Reserves(s: State)
    requires At(s, map[], [Reserve(FIRST, POST)], {"a"})
    ensures At(Happen(s, Step(0, Works("x"))), map["a" := FIRST], [Start(FIRST, POST)], {"a"})
  {
    Steps(s, 0, Works("x"));
  }

  lemma Starts(s: State)
    requires At(s, map["a" := FIRST], [Start(FIRST, POST)], {"a"})
    ensures At(Happen(s, Step(0, Works("x"))), map["a" := FIRST], [Register(FIRST, 7, POST)], {"a"})
  {
    Steps(s, 0, Works("x"));
  }

  lemma Registers(s: State)
    requires At(s, map["a" := FIRST], [Register(FIRST, 7, POST)], {"a"})
    ensures At(Happen(s, Step(0, Works("x"))), map["a" := REGISTERED], [Finished, BeginFinalizing("a", EXIT)], {"a"})
  {
    Steps(s, 0, Works("x"));
  }

  lemma Begins(s: State)
    requires At(s, map["a" := REGISTERED], [Finished, BeginFinalizing("a", EXIT)], {"a"})
    ensures At(Happen(s, Step(1, Works("x"))), map["a" := MARKED], [Finished, Finalize("a", EXIT)], {"a"})
  {
    Steps(s, 1, Works("x"));
  }

  lemma Finalizes(s: State)
    requires At(s, map["a" := MARKED], [Finished, Finalize("a", EXIT)], {"a"})
    ensures At(Happen(s, Step(1, Works("x"))), map["a" := ENDED], [Finished, ReadFinal("a", EXIT)], {"a"})
  {
    Steps(s, 1, Works("x"));
  }

  lemma ReadsFinal(s: State)
    requires At(s, map["a" := ENDED], [Finished, ReadFinal("a", EXIT)], {"a"})
    ensures At(Happen(s, Step(1, Works("x"))), map["a" := ENDED], [Finished, Decide(ENDED, CAUSE)], {"a"})
  {
    Steps(s, 1, Works("x"));
  }

  /** A build that exits with code 1 and without a word resumes at once. */
  lemma EndRetries()
    ensures PlanResume(SETTINGS, READER, ENDED, [], CAUSE, PlanClock(NOW, NOW), None) == Go(RESUME)
  {}

  lemma Decides(s: State)
    requires At(s, map["a" := ENDED], [Finished, Decide(ENDED, CAUSE)], {"a"})
    ensures At(Happen(s, Step(1, Works("b"))), map["a" := ENDED], [Finished, Arm("a", "b", RESUME)], {"a", "b"})
  {
    Steps(s, 1, Works("b"));
    EndRetries();
  }

  lemma Arms(s: State)
    requires At(s, map["a" := ENDED], [Finished, Arm("a", "b", RESUME)], {"a", "b"})
    ensures At(Happen(s, Step(1, Works("x"))), map["a" := ENDED.(pendingResume := Some(PENDING))],
               [Finished, EndFinalizing("a"), Clear("a", [])], {"a", "b"})
  {
    Steps(s, 1, Works("x"));
  }

  lemma Clears(s: State)
    requires At(s, map["a" := ENDED.(pendingResume := Some(PENDING))],
                [Finished, EndFinalizing("a"), Clear("a", [])], {"a", "b"})
    ensures At(Happen(s, Step(2, Works("x"))), map["a" := ENDED],
               [Finished, EndFinalizing("a"), ReadPred("a", PENDING, [])], {"a", "b"})
  {
    Steps(s, 2, Works("x"));
  }

  lemma ReadsPred(s: State)
    requires At(s, map["a" := ENDED], [Finished, EndFinalizing("a"), ReadPred("a", PENDING, [])], {"a", "b"})
    ensures At(Happen(s, Step(2, Works("x"))), map["a" := ENDED],
               [Finished, EndFinalizing("a"), Reserve(SECOND, FIRING)], {"a", "b"})
  {
    Steps(s, 2, Works("x"));
  }

  lemma ReservesNext(s: State)
    requires At(s, map["a" := ENDED], [Finished, EndFinalizing("a"), Reserve(SECOND, FIRING)], {"a", "b"})
    ensures At(Happen(s, Step(2, Works("x"))), map["a" := ENDED, "b" := SECOND],
               [Finished, EndFinalizing("a"), Start(SECOND, FIRING)], {"a", "b"})
  {
    Steps(s, 2, Works("x"));
  }

  lemma StopReads(s: State)
    requires At(s, map["a" := ENDED, "b" := SECOND],
                [Finished, EndFinalizing("a"), Start(SECOND, FIRING), StopRead("b")], {"a", "b"})
    ensures At(Happen(s, Step(3, Works("x"))), map["a" := ENDED, "b" := SECOND],
               [Finished, EndFinalizing("a"), Start(SECOND, FIRING), StopFlag("b")], {"a", "b"})
  {
    Steps(s, 3, Works("x"));
  }

  // --- the run ---

  /** A POST, its build to its end, and the decision to resume. */
  const BUILD: seq<Event> := [
    Call(Lookup(REQUEST)), Step(0, Works("a")), Step(0, Works("x")), Step(0, Works("x")), Step(0, Works("x")),
    Step(1, Works("x")), Step(1, Works("x")), Step(1, Works("x")), Step(1, Works("b")), Step(1, Works("x"))]

  /** The timer fires, the successor is reserved, and a Stop for it has seen it running. */
  const RESUMED: seq<Event> := [
    Step(2, Works("x")), Step(2, Works("x")), Step(2, Works("x")), Call(StopRead("b")), Step(3, Works("x"))]

  lemma Then(events: seq<Event>, e: Event) returns (more: seq<Event>)
    ensures more == events + [e] && After(EMPTY, more) == Happen(After(EMPTY, events), e)
  {
    hide Happen;
    more := events + [e];
    assert more[..|events|] == events;
  }

  /** The build is running. */
  lemma BuildRuns() returns (events: seq<Event>)
    ensures events == BUILD[..5]
    ensures At(After(EMPTY, events), map["a" := REGISTERED], [Finished, BeginFinalizing("a", EXIT)], {"a"})
  {
    hide Happen, At, After, Works, FIRST, REGISTERED;
    EmptyAt();
    Calls(EMPTY, Lookup(REQUEST), map[], [], {});
    events := Then([], Call(Lookup(REQUEST)));
    Asks(After(EMPTY, events));
    events := Then(events, Step(0, Works("a")));
    Reserves(After(EMPTY, events));
    events := Then(events, Step(0, Works("x")));
    Starts(After(EMPTY, events));
    events := Then(events, Step(0, Works("x")));
    Registers(After(EMPTY, events));
    events := Then(events, Step(0, Works("x")));
  }

  lemma BuildEnds()
    ensures At(After(EMPTY, BUILD), map["a" := ENDED.(pendingResume := Some(PENDING))],
               [Finished, EndFinalizing("a"), Clear("a", [])], {"a", "b"})
  {
    hide Happen, At, After, Works, FIRST, REGISTERED, MARKED, ENDED, PENDING;
    var events := BuildRuns();
    Begins(After(EMPTY, events));
    events := Then(events, Step(1, Works("x")));
    Finalizes(After(EMPTY, events));
    events := Then(events, Step(1, Works("x")));
    ReadsFinal(After(EMPTY, events));
    events := Then(events, Step(1, Works("x")));
    Decides(After(EMPTY, events));
    events := Then(events, Step(1, Works("b")));
    Arms(After(EMPTY, events));
    events := Then(events, Step(1, Works("x")));
    assert events == BUILD;
  }

  lemma EmptyAt()
    ensures At(After(EMPTY, []), map[], [], {}) && After(EMPTY, []) == EMPTY
  {}

  lemma SuccessorWaits()
    ensures At(After(EMPTY, BUILD + RESUMED), map["a" := ENDED, "b" := SECOND],
               [Finished, EndFinalizing("a"), Start(SECOND, FIRING), StopFlag("b")], {"a", "b"})
  {
    hide Happen, At, After, Works, ENDED, PENDING, SECOND, FIRING, EMPTY, BUILD;
    BuildEnds();
    Clears(After(EMPTY, BUILD));
    var events := Then(BUILD, Step(2, Works("x")));
    ReadsPred(After(EMPTY, events));
    events := Then(events, Step(2, Works("x")));
    ReservesNext(After(EMPTY, events));
    events := Then(events, Step(2, Works("x")));
    Calls(After(EMPTY, events), StopRead("b"), map["a" := ENDED, "b" := SECOND],
          [Finished, EndFinalizing("a"), Start(SECOND, FIRING)], {"a", "b"});
    events := Then(events, Call(StopRead("b")));
    StopReads(After(EMPTY, events));
    events := Then(events, Step(3, Works("x")));
    assert events == BUILD + RESUMED;
  }

  /** Thread 3 stops "b", and has its request on the record; then thread 2 fails to start it, and no record
      of "b" is left, but a resume armed on "a" for "b". */
  ghost predicate StopLost(s: State) {
    var stopped := After(s, [Step(3, FAILS), Step(3, FAILS)]);
    var failed := After(stopped, [Step(2, FAILS), Step(2, FAILS), Step(2, FAILS)]);
    && "b" in stopped.runs && stopped.runs["b"].stopRequested && !stopped.runs["b"].IsRunning()
    && "b" !in failed.runs && "a" in failed.runs && failed.runs["a"].pendingResume == Some(Again(PENDING, NOW))
    && Again(PENDING, NOW).successorId == "b"
  }

  /** The stop is lost in this run of an engine that started without runs. */
  lemma AStopIsLost()
    ensures Boot(EMPTY) && StopLost(After(EMPTY, BUILD + RESUMED))
  {
    hide Happen, After, Boot, Again, SpawnFails, Rearms;
    EmptyBoots();
    SuccessorWaits();
    FailsRearms();
    StopBeforeStartIsLost(EMPTY, BUILD + RESUMED, 2, 3, SECOND, FIRING, FAILS);
    assert [Step(2, FAILS), Step(2, FAILS)] + [Step(2, FAILS)] == [Step(2, FAILS), Step(2, FAILS), Step(2, FAILS)];
  }

  lemma FailsRearms()
    ensures SpawnFails(FAILS) && Rearms(FIRING, FAILS) && SECOND.id == "b" && FAILS.now + SETTINGS.resumeBaseMs == NOW
  {}

  lemma EmptyBoots()
    ensures Boot(EMPTY)
  {}
}
