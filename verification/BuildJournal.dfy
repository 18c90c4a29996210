/** What the engine writes to its journal, and what a restart makes of it (backend/infra/journal.go,
    backend/infra/journalreader.go and RehydrateBuilds). A layer over the state machine: the journal calls
    that follow a thread's step keep that thread from its next one, and other threads go on meanwhile. A
    timer or an exit goroutine may take its first step before the write the source makes ahead of it. */
module BuildJournal {
  import opened Wrappers
  import opened Runs
  import opened BuildClass
  import opened ResumePlan
  import opened MemStore
  import opened BuildEngine
  import opened BuildInvariant
  import opened BuildFrames
  import opened BuildSteps
  import opened BuildReach
  import opened BuildLives
  import opened BuildStops
  import opened BuildTheorems
  import opened BuildVerdicts
  import opened BuildChains

  // --- the layer ---

  /** What a thread still has to do with the journal: rejournal reads the store first and writes what it
      read. */
  datatype Work = Rejournal(id: string) | Write(run: Run)

  datatype Journaling = Journaling(engine: State, journal: RunMap, work: map<nat, Work>)

  datatype JournalEvent = Engine(e: Event) | Advance(t: nat, ok: bool)

  /** The journal calls after a thread's step from s. */
  ghost function WorkAfter(s: State, t: nat, o: Oracle): Option<Work>
    requires t < |s.threads|
  {
    match s.threads[t]
    case Register(run, pid, _) => Some(Write(run.(pid := Some(pid))))
    case ReadFinal(id, _) => if id in s.runs then Some(Rejournal(id)) else None
    case Decide(run, _) => if PushIfComplete(s, run, o).pushes != s.pushes then Some(Rejournal(run.id)) else None
    case Arm(id, _, _) => if id in s.runs && !s.runs[id].stopRequested then Some(Rejournal(id)) else None
    case Clear(id, _) => if id in s.runs && s.runs[id].pendingResume.Some? then Some(Rejournal(id)) else None
    case Rearm(pred, _, _) => Some(Rejournal(pred))
    case StopFinalize(id) => Some(Rejournal(id))
    case StopCancel(id) => Some(Rejournal(id))
    case _ => None
  }

  /** The record a spawn writes before it starts the process. */
  ghost function StartJournal(s: State, t: nat, o: Oracle, journal: RunMap): RunMap
    requires t < |s.threads|
  {
    if s.threads[t].Start? && o.journaled then journal[s.threads[t].run.id := s.threads[t].run] else journal
  }

  ghost predicate Taken(j: Journaling, t: nat, o: Oracle) {
    t < |j.engine.threads| && t !in j.work && Fair(j.engine, o)
  }

  ghost function StepJournal(j: Journaling, t: nat, o: Oracle): Journaling
    requires t < |j.engine.threads|
  {
    var w := WorkAfter(j.engine, t, o);
    Journaling(Happen(j.engine, Step(t, o)), StartJournal(j.engine, t, o, j.journal),
               if w.Some? then j.work[t := w.value] else j.work)
  }

  function AdvanceJournal(j: Journaling, t: nat, ok: bool): Journaling
    requires t in j.work
  {
    match j.work[t]
    case Rejournal(id) =>
      if id in j.engine.runs then j.(work := j.work[t := Write(j.engine.runs[id])]) else j.(work := j.work - {t})
    case Write(run) =>
      j.(journal := if ok then j.journal[run.id := run] else j.journal, work := j.work - {t})
  }

  ghost function Record(j: Journaling, e: JournalEvent): Journaling {
    match e
    case Engine(Call(th)) => j.(engine := Happen(j.engine, Call(th)))
    case Engine(Step(t, o)) => if Taken(j, t, o) then StepJournal(j, t, o) else j
    case Advance(t, ok) => if t in j.work then AdvanceJournal(j, t, ok) else j
  }

  ghost function RecordAll(j: Journaling, events: seq<JournalEvent>): Journaling {
    if events == [] then j else Record(RecordAll(j, events[..|events| - 1]), events[|events| - 1])
  }

  lemma RecordOnes(j: Journaling, a: JournalEvent, b: JournalEvent, c: JournalEvent)
    ensures RecordAll(j, [a]) == Record(j, a)
    ensures RecordAll(j, [a, b]) == Record(Record(j, a), b)
    ensures RecordAll(j, [a, b, c]) == Record(Record(Record(j, a), b), c)
  {
    hide Record;
    assert [a][..0] == [] && [a, b][..1] == [a] && [a, b, c][..2] == [a, b];
    assert RecordAll(j, []) == j;
  }

  lemma {:induction false} RecordConcat(j: Journaling, first: seq<JournalEvent>, more: seq<JournalEvent>)
    ensures RecordAll(j, first + more) == RecordAll(RecordAll(j, first), more)
    decreases |more|
  {
    hide Record;
    if more == [] {
      assert first + more == first;
    } else {
      var before := more[..|more| - 1];
      RecordConcat(j, first, before);
      assert (first + more)[..|first + more| - 1] == first + before;
    }
  }

  /** Journaling adds no behaviour to the engine: it only holds threads back. */
  lemma {:induction false} JournalAddsNothing(j: Journaling, events: seq<JournalEvent>) returns (plain: seq<Event>)
    ensures RecordAll(j, events).engine == After(j.engine, plain)
  {
    hide Happen, WorkAfter, StartJournal, Taken;
    if events == [] {
      plain := [];
    } else {
      plain := JournalAddsNothing(j, events[..|events| - 1]);
      var more := OneMore(RecordAll(j, events[..|events| - 1]), events[|events| - 1]);
      if more.Some? {
        assert (plain + [more.value])[..|plain|] == plain;
        plain := plain + [more.value];
      }
    }
  }

  lemma OneMore(j: Journaling, e: JournalEvent) returns (more: Option<Event>)
    ensures Record(j, e).engine == if more.Some? then Happen(j.engine, more.value) else j.engine
  {
    hide Happen, WorkAfter, StartJournal, Taken;
    match e
    case Engine(Call(th)) => more := Some(Call(th));
    case Engine(Step(t, o)) => more := if Taken(j, t, o) then Some(Step(t, o)) else None;
    case Advance(t, ok) => more := None;
  }

  // --- what the journal holds ---

  /** A record as it was written belongs to a born run, and a resume on it is that of an ended, unpushed
      run for its own successor. */
  ghost predicate RecordFits(s: State, r: Run) {
    && r.id in s.births && 0 < r.firstStartedAt
    && r.resumeCount <= s.caps.depth && r.noProgressStreak < s.cfg.noProgressLimit
    && (r.IsRunning() ==> r.pushedAt.None?)
    && (r.pendingResume.Some? ==>
          var p := r.pendingResume.value;
          && !r.IsRunning() && r.pushedAt.None?
          && p.successorId in s.births && s.births[p.successorId].owner == SuccessorOf(r.id)
          && p.resumeCount == r.resumeCount + 1 <= s.caps.depth
          && 0 <= p.firstStartedAt - r.firstStartedAt <= s.caps.wait
          && p.noProgressStreak < s.cfg.noProgressLimit && p.spawnAttempts <= MAX_SPAWN_RETRIES)
  }

  ghost predicate JournalFits(j: Journaling) {
    && (forall id | id in j.journal :: j.journal[id].id == id && RecordFits(j.engine, j.journal[id]))
    && (forall t | t in j.work && j.work[t].Write? :: RecordFits(j.engine, j.work[t].run))
  }

  /** The clock is past 0, and so is every start. */
  ghost predicate Dated(s: State) {
    0 < s.now && forall id | id in s.births :: 0 < s.births[id].start
  }

  ghost predicate Sound(j: Journaling) {
    Inv(j.engine) && Decided(j.engine) && Dated(j.engine) && JournalFits(j)
  }

  lemma RecordStays(s: State, s': State, r: Run)
    requires RecordFits(s, r) && s'.cfg == s.cfg && s'.caps == s.caps && BirthsKept(s, s')
    ensures RecordFits(s', r)
  {}

  ghost predicate BirthsKept(s: State, s': State) {
    forall x | x in s.births :: x in s'.births && s'.births[x] == s.births[x]
  }

  /** A record of the store fits. */
  lemma StoreFits(s: State, id: string)
    requires Inv(s) && Decided(s) && Dated(s) && id in s.runs
    ensures s.runs[id].id == id && RecordFits(s, s.runs[id])
  {
    hide Inv, Decided, Count;
    RunAt(s, id);
    PlaceInChain(s, id);
    RunEnded(s, id);
    if s.runs[id].pendingResume.Some? {
      var succ := s.runs[id].pendingResume.value.successorId;
      BirthAt(s, succ);
      BirthAt(s, id);
    }
  }

  /** A run with a decision has ended. */
  lemma RunEnded(s: State, id: string)
    requires Decided(s) && id in s.runs
    ensures id in s.verdicts ==> !s.runs[id].IsRunning()
  {
    hide ResumeKept, WithinSettings;
    assert id in s.verdicts ==> VerdictFits(s, id);
  }

  /** The run a spawner has in hand fits. */
  lemma SpawnerFits(s: State, t: nat)
    requires Inv(s) && Dated(s) && t < |s.threads| && (s.threads[t].Start? || s.threads[t].Register?)
    ensures RecordFits(s, s.threads[t].run)
  {
    hide Inv, Token, Count;
    ThreadAt(s, t);
    PlaceInChain(s, s.threads[t].run.id);
  }

  // --- every run ---

  lemma HappenDated(s: State, e: Event)
    requires Inv(s) && Dated(s)
    ensures Dated(Happen(s, e)) && BirthsKept(s, Happen(s, e)) && SameSetup(s, Happen(s, e))
  {
    hide Inv, ThreadStep, SameSetup;
    SetupSelf(s, s);
    match e
    case Call(th) => SetupSelf(s, s.(threads := s.threads + [th]));
    case Step(t, o) =>
      if t < |s.threads| && Fair(s, o) {
        ClockKeeps(s, o.now);
        var a := s.(now := o.now);
        StepSetup(a, t, o);
        SetupTrans(s, a, ThreadStep(a, t, o));
        StepHistory(a, t, o);
        DatedStays(a, ThreadStep(a, t, o), o.now);
      }
  }

  lemma SetupSelf(s: State, s': State)
    requires s'.cfg == s.cfg && s'.reader == s.reader && s'.caps == s.caps
    ensures SameSetup(s, s')
  {}

  lemma SetupTrans(a: State, b: State, c: State)
    requires b.cfg == a.cfg && b.reader == a.reader && b.caps == a.caps && SameSetup(b, c)
    ensures SameSetup(a, c)
  {}

  lemma DatedStays(s: State, s': State, now: int)
    requires Dated(s) && 0 < now && HistoryStays(s, s') && NewFits(s, s', now)
    ensures Dated(s') && BirthsKept(s, s')
  {
    hide VerdictFits, ResumeKept, WithinSettings, Count;
  }

  lemma RecordSound(j: Journaling, e: JournalEvent)
    requires Sound(j)
    ensures Sound(Record(j, e))
  {
    hide Inv, Decided, Dated, JournalFits, Happen, StepJournal, AdvanceJournal, Taken;
    match e
    case Engine(Call(th)) =>
      EngineSound(j, Call(th));
    case Engine(Step(t, o)) =>
      if Taken(j, t, o) { StepSound(j, t, o); }
    case Advance(t, ok) =>
      if t in j.work { AdvanceSound(j, t, ok); }
  }

  lemma EngineSound(j: Journaling, e: Event)
    requires Sound(j)
    ensures Sound(j.(engine := Happen(j.engine, e)))
  {
    hide Inv, Decided, Dated, Happen, RecordFits, BirthsKept;
    HappenKeeps(j.engine, e);
    HappenDecided(j.engine, e);
    HappenDated(j.engine, e);
    FitsKept(j, Happen(j.engine, e));
  }

  lemma FitsKept(j: Journaling, s: State)
    requires JournalFits(j) && BirthsKept(j.engine, s) && SameSetup(j.engine, s)
    ensures JournalFits(j.(engine := s))
  {
    hide RecordFits, BirthsKept;
    forall id | id in j.journal ensures RecordFits(s, j.journal[id]) { RecordStays(j.engine, s, j.journal[id]); }
    forall t | t in j.work && j.work[t].Write? ensures RecordFits(s, j.work[t].run) {
      RecordStays(j.engine, s, j.work[t].run);
    }
  }

  lemma StepSound(j: Journaling, t: nat, o: Oracle)
    requires Sound(j) && Taken(j, t, o)
    ensures Sound(StepJournal(j, t, o))
  {
    hide Inv, Decided, Dated, Happen, RecordFits, BirthsKept, PushIfComplete;
    var s, s' := j.engine, Happen(j.engine, Step(t, o));
    EngineSound(j, Step(t, o));
    HappenDated(s, Step(t, o));
    if s.threads[t].Start? || s.threads[t].Register? {
      SpawnerFits(s, t);
      PidFits(s, s.threads[t].run, if s.threads[t].Register? then Some(s.threads[t].pid) else None);
      RecordStays(s, s', s.threads[t].run);
      RecordStays(s, s', s.threads[t].run.(pid := if s.threads[t].Register? then Some(s.threads[t].pid) else None));
    }
  }

  lemma PidFits(s: State, r: Run, pid: Option<int>)
    requires RecordFits(s, r)
    ensures RecordFits(s, r.(pid := pid))
  {}

  lemma AdvanceSound(j: Journaling, t: nat, ok: bool)
    requires Sound(j) && t in j.work
    ensures Sound(AdvanceJournal(j, t, ok))
  {
    hide Inv, Decided, Dated, RecordFits;
    match j.work[t]
    case Rejournal(id) => if id in j.engine.runs { StoreFits(j.engine, id); }
    case Write(run) =>
  }

  lemma {:induction false} AlwaysSound(j: Journaling, events: seq<JournalEvent>)
    requires Sound(j)
    ensures Sound(RecordAll(j, events))
  {
    hide Sound, Record;
    if events != [] {
      AlwaysSound(j, events[..|events| - 1]);
      RecordSound(RecordAll(j, events[..|events| - 1]), events[|events| - 1]);
    }
  }

  // --- the restart ---

  /** What the reader makes of a record: what is not journaled comes back empty, the engine and the stop
      request among it, and a start of 0 is taken for an old record's. */
  function Loaded(r: Run): Run {
    r.(engine := "", startFingerprint := None, lastActivityAt := 0, lastOutSize := 0, stallKilledAt := None,
       stopRequested := false, finalizing := false,
       firstStartedAt := if r.firstStartedAt == 0 then r.startedAt else r.firstStartedAt)
  }

  function Reload(journal: RunMap): RunMap {
    map id | id in journal :: Loaded(journal[id])
  }

  predicate Watches(th: Thread, id: string) {
    th.BeginFinalizing? && th.exit.reattached && th.id == id
  }

  function WatchedBy(th: Thread): string {
    if th.BeginFinalizing? then th.id else ""
  }

  ghost predicate Apart(threads: seq<Thread>) {
    forall i, k | 0 <= i < k < |threads| :: WatchedBy(threads[i]) != WatchedBy(threads[k])
  }

  /** Each of these runs has one watcher, and there are no other threads. */
  ghost predicate Watched(ids: set<string>, threads: seq<Thread>) {
    && (forall t: nat | t < |threads| :: Watches(threads[t], WatchedBy(threads[t])) && WatchedBy(threads[t]) in ids)
    && (forall id <- ids :: HasWatcher(threads, id))
    && Apart(threads)
  }

  ghost predicate HasWatcher(threads: seq<Thread>, id: string) {
    exists t: nat :: t < |threads| && Watches(threads[t], id)
  }

  function RunningIds(runs: RunMap): set<string> {
    set id | id in runs && runs[id].IsRunning()
  }

  /** A process that has reloaded the journal and watches each running record once. */
  ghost predicate Reloads(journal: RunMap, s: State) {
    s.runs == Reload(journal) && Watched(RunningIds(journal), s.threads)
  }

  /** No record has a resume armed for a successor whose record is there too. */
  ghost predicate NoLeftover(journal: RunMap) {
    forall id | id in journal && journal[id].pendingResume.Some? ::
      journal[id].pendingResume.value.successorId !in journal
  }

  // --- the restarted state ---

  ghost predicate ArmedFor(journal: RunMap, id: string, succ: string) {
    id in journal && journal[id].pendingResume.Some? && journal[id].pendingResume.value.successorId == succ
  }

  ghost function PredOf(journal: RunMap, succ: string): (id: string)
    requires exists id :: ArmedFor(journal, id, succ)
    ensures ArmedFor(journal, id, succ)
  {
    var id :| ArmedFor(journal, id, succ);
    id
  }

  function Successors(journal: RunMap): set<string> {
    set id | id in journal && journal[id].pendingResume.Some? :: journal[id].pendingResume.value.successorId
  }

  lemma SuccessorArmed(journal: RunMap, succ: string)
    requires succ in Successors(journal)
    ensures exists id :: ArmedFor(journal, id, succ)
  {
    var id :| id in journal && journal[id].pendingResume.Some? && journal[id].pendingResume.value.successorId == succ;
    assert ArmedFor(journal, id, succ);
  }

  ghost function HeirBirth(journal: RunMap, succ: string): Birth
    requires succ in Successors(journal)
  {
    SuccessorArmed(journal, succ);
    var id := PredOf(journal, succ);
    var (r, p) := (Loaded(journal[id]), journal[id].pendingResume.value);
    Birth(SuccessorOf(id), id, r.firstStartedAt, p.firstStartedAt - r.firstStartedAt, r.resumeCount + 1, SpecOf(r))
  }

  function OwnBirthOf(r: Run): Birth {
    Birth(AtBoot, r.id, r.firstStartedAt, 0, r.resumeCount, SpecOf(r))
  }

  ghost function RestartBirths(journal: RunMap): map<string, Birth> {
    map id | id in journal.Keys + Successors(journal) ::
      if id in journal then OwnBirthOf(Loaded(journal[id])) else HeirBirth(journal, id)
  }

  ghost function Pick(ids: set<string>): (id: string)
    requires ids != {}
    ensures id in ids
  {
    var id :| id in ids;
    id
  }

  /** Watchers for these runs, in some order. */
  ghost function Watchers(ids: set<string>): seq<Thread>
    decreases ids
  {
    if ids == {} then []
    else Watchers(ids - {Pick(ids)}) + [BeginFinalizing(Pick(ids), ExitNote(-1, true, true))]
  }

  lemma {:induction false} WatchersWatch(ids: set<string>)
    ensures Watched(ids, Watchers(ids))
    decreases ids
  {
    hide Watched;
    if ids == {} {
      NobodyWatched();
    } else {
      WatchersWatch(ids - {Pick(ids)});
      WatchMore(ids, Pick(ids), Watchers(ids - {Pick(ids)}));
    }
  }

  lemma NobodyWatched()
    ensures Watched({}, [])
  {}

  lemma WatchMore(ids: set<string>, id: string, rest: seq<Thread>)
    requires id in ids && Watched(ids - {id}, rest)
    ensures Watched(ids, rest + [BeginFinalizing(id, ExitNote(-1, true, true))])
  {
    hide Watches, WatchedBy, Apart, HasWatcher;
    var last := BeginFinalizing(id, ExitNote(-1, true, true));
    NewWatcher(id);
    ApartMore(rest, last);
    forall x | x in ids ensures HasWatcher(rest + [last], x) { WatcherStays(rest, last, id, x); }
  }

  lemma WatcherStays(rest: seq<Thread>, last: Thread, id: string, x: string)
    requires Watches(last, id) && (x == id || HasWatcher(rest, x))
    ensures HasWatcher(rest + [last], x)
  {
    hide Watches;
    var threads := rest + [last];
    if x == id {
      assert Watches(threads[|rest|], x);
    } else {
      var t: nat :| t < |rest| && Watches(rest[t], x);
      assert Watches(threads[t], x);
    }
  }

  lemma ApartMore(rest: seq<Thread>, last: Thread)
    requires Apart(rest) && forall t: nat | t < |rest| :: WatchedBy(rest[t]) != WatchedBy(last)
    ensures Apart(rest + [last])
  {
    hide WatchedBy;
  }

  lemma NewWatcher(id: string)
    ensures var th := BeginFinalizing(id, ExitNote(-1, true, true)); Watches(th, id) && WatchedBy(th) == id
  {}

  function Armed(journal: RunMap): set<string> {
    set id | id in journal && journal[id].pendingResume.Some?
  }

  /** The state a restart on this journal begins in. */
  ghost function Restarted(journal: RunMap, cfg: Config, reader: Reader, now: int, caps: Caps): State {
    State(cfg, reader, Reload(journal), Watchers(RunningIds(journal)), map[], now, caps,
          RestartBirths(journal), journal.Keys, Armed(journal), {},
          map id | id in journal && !journal[id].IsRunning() :: EndedBeforeBoot, {},
          map id | id in Armed(journal) :: journal[id].pendingResume.value.spawnAttempts, map[])
  }

  lemma RestartReloads(journal: RunMap, cfg: Config, reader: Reader, now: int, caps: Caps)
    ensures Reloads(journal, Restarted(journal, cfg, reader, now, caps))
  {
    hide Watched, RestartBirths, Watchers, Reload, Armed, RunningIds;
    WatchersWatch(RunningIds(journal));
  }

  /** Every record of the journal fits, as it was when it was written. */
  ghost predicate FitJournal(s: State, journal: RunMap) {
    forall id | id in journal :: journal[id].id == id && RecordFits(s, journal[id])
  }

  lemma OnePredecessor(s: State, journal: RunMap, id: string, succ: string)
    requires FitJournal(s, journal) && ArmedFor(journal, id, succ)
    ensures succ in Successors(journal) && (exists x :: ArmedFor(journal, x, succ)) && PredOf(journal, succ) == id
  {
    assert succ in Successors(journal);
    var x := PredOf(journal, succ);
    assert RecordFits(s, journal[x]) && RecordFits(s, journal[id]);
  }

  lemma RestartBoots(s: State, journal: RunMap, cfg: Config, now: int, caps: Caps)
    requires FitJournal(s, journal) && NoLeftover(journal)
    requires ValidConfig(s.cfg) && ValidConfig(cfg) && WithinCaps(cfg, caps)
    requires s.caps.depth <= caps.depth && s.caps.wait <= caps.wait
    ensures Boot(Restarted(journal, cfg, s.reader, now, caps))
  {
    hide BootRun, BootBirth, BootThread, RecordFits, HeirBirth, Successors, FitJournal, NoLeftover, Watchers;
    var b := Restarted(journal, cfg, s.reader, now, caps);
    forall id | id in b.runs ensures BootRun(b, id) { RestartRun(s, journal, cfg, now, caps, id); }
    forall id | id in b.births ensures BootBirth(b, id) { RestartBirth(s, journal, cfg, now, caps, id); }
    forall t: nat | t < |b.threads| ensures BootThread(b, t) { RestartThread(journal, cfg, s.reader, now, caps, t); }
  }

  lemma RestartRun(s: State, journal: RunMap, cfg: Config, now: int, caps: Caps, id: string)
    requires FitJournal(s, journal) && NoLeftover(journal) && ValidConfig(s.cfg) && ValidConfig(cfg)
    requires s.caps.depth <= caps.depth && s.caps.wait <= caps.wait && id in journal
    ensures BootRun(Restarted(journal, cfg, s.reader, now, caps), id)
  {
    hide SpecOf, Watchers, HeirBirth, Successors;
    assert RecordFits(s, journal[id]);
    if journal[id].pendingResume.Some? {
      var succ := journal[id].pendingResume.value.successorId;
      assert ArmedFor(journal, id, succ);
      OnePredecessor(s, journal, id, succ);
      HeirOf(s, journal, id, succ);
    }
  }

  lemma HeirOf(s: State, journal: RunMap, id: string, succ: string)
    requires FitJournal(s, journal) && ArmedFor(journal, id, succ) && succ in Successors(journal)
    ensures var (r, p) := (Loaded(journal[id]), journal[id].pendingResume.value);
            HeirBirth(journal, succ)
            == Birth(SuccessorOf(id), id, r.firstStartedAt, p.firstStartedAt - r.firstStartedAt, r.resumeCount + 1,
                     SpecOf(r))
  {
    hide Loaded, SpecOf, FitJournal, Successors;
    OnePredecessor(s, journal, id, succ);
  }

  lemma RestartBirth(s: State, journal: RunMap, cfg: Config, now: int, caps: Caps, id: string)
    requires FitJournal(s, journal) && id in journal.Keys + Successors(journal)
    ensures id in Restarted(journal, cfg, s.reader, now, caps).births
    ensures BootBirth(Restarted(journal, cfg, s.reader, now, caps), id)
  {
    hide SpecOf, Watchers, FitJournal, Successors;
    if id !in journal {
      SuccessorArmed(journal, id);
      var pred := PredOf(journal, id);
      HeirOf(s, journal, pred, id);
    }
  }

  lemma RestartThread(journal: RunMap, cfg: Config, reader: Reader, now: int, caps: Caps, t: nat)
    requires t < |Restarted(journal, cfg, reader, now, caps).threads|
    ensures BootThread(Restarted(journal, cfg, reader, now, caps), t)
  {
    hide RestartBirths, Quiet, Watched, Watchers, ChainOf, Armed;
    WatchersWatch(RunningIds(journal));
    WatchedChains(RunningIds(journal), Watchers(RunningIds(journal)), t);
  }

  lemma WatchedChains(ids: set<string>, threads: seq<Thread>, t: nat)
    requires Watched(ids, threads) && t < |threads|
    ensures threads[t].BeginFinalizing? && threads[t].id in ids
    ensures forall i | 0 <= i < |threads| && i != t :: ChainOf(threads[i]) != ChainOf(threads[t])
  {
    hide Watches, WatchedBy, ChainOf, HasWatcher;
    WatcherChain(threads[t], WatchedBy(threads[t]));
    forall i: nat | i < |threads| && i != t ensures ChainOf(threads[i]) != ChainOf(threads[t]) {
      WatcherChain(threads[i], WatchedBy(threads[i]));
    }
  }

  lemma WatcherChain(th: Thread, id: string)
    requires Watches(th, id)
    ensures ChainOf(th) == Some(id) && th.BeginFinalizing? && th.id == id
  {}

  lemma LoadedRuns(r: Run)
    ensures Loaded(r).IsRunning() == r.IsRunning() && Loaded(r).pendingResume == r.pendingResume
  {}

  /** What a restart begins from satisfies Boot, whenever the process ended and whatever was written by
      then, exactly when no resume on disk is armed for a run whose record is there too. */
  lemma ReloadBootsIff(j: Journaling, events: seq<JournalEvent>, cfg: Config, now: int, caps: Caps)
    requires Sound(j) && ValidConfig(cfg) && WithinCaps(cfg, caps)
    requires j.engine.caps.depth <= caps.depth && j.engine.caps.wait <= caps.wait
    ensures var journal := RecordAll(j, events).journal;
            (exists s :: Reloads(journal, s) && s.cfg == cfg && s.caps == caps && s.now == now && Boot(s))
            <==> NoLeftover(journal)
  {
    hide Reloads, Boot, Inv, Decided, Dated, JournalFits, Record, Restarted, FitJournal, NoLeftover;
    AlwaysSound(j, events);
    CapsStay(j, events);
    var k := RecordAll(j, events);
    JournalParts(k);
    if NoLeftover(k.journal) {
      RestartBoots(k.engine, k.journal, cfg, now, caps);
      RestartReloads(k.journal, cfg, k.engine.reader, now, caps);
      RestartSetup(k.journal, cfg, k.engine.reader, now, caps);
    }
    forall s | Reloads(k.journal, s) && Boot(s) ensures NoLeftover(k.journal) { BootNoLeftover(k.journal, s); }
  }

  lemma RestartSetup(journal: RunMap, cfg: Config, reader: Reader, now: int, caps: Caps)
    ensures var s := Restarted(journal, cfg, reader, now, caps); s.cfg == cfg && s.caps == caps && s.now == now
  {}

  lemma JournalParts(j: Journaling)
    requires Sound(j)
    ensures FitJournal(j.engine, j.journal) && ValidConfig(j.engine.cfg)
  {
    hide Inv, Decided, Dated, RecordFits, ValidConfig;
    InvParts(j.engine);
    HaveConfig(j.engine);
  }

  lemma {:induction false} CapsStay(j: Journaling, events: seq<JournalEvent>)
    ensures RecordAll(j, events).engine.caps == j.engine.caps
  {
    hide After;
    var plain := JournalAddsNothing(j, events);
    SetupStays(j.engine, plain);
  }

  lemma BootNoLeftover(journal: RunMap, s: State)
    requires Reloads(journal, s) && Boot(s)
    ensures NoLeftover(journal)
  {
    hide Boot, BootRun, Loaded, Watches;
    forall id | id in journal && journal[id].pendingResume.Some?
      ensures journal[id].pendingResume.value.successorId !in journal
    {
      BootRunAt(s, id);
      LoadedRuns(journal[id]);
      BootPendingAt(s, id);
    }
  }

  lemma BootPendingAt(s: State, id: string)
    requires id in s.runs && BootRun(s, id) && s.runs[id].pendingResume.Some?
    ensures s.runs[id].pendingResume.value.successorId !in s.runs
  {
    hide Count;
  }

  /** A restart that satisfies Boot begins another life of the engine over the same journal. */
  lemma RestartSound(journal: RunMap, s: State)
    requires Reloads(journal, s) && Boot(s) && 0 < s.now
    requires forall id | id in journal :: journal[id].id == id && 0 < journal[id].firstStartedAt
    ensures Sound(Journaling(s, journal, map[]))
  {
    hide Boot, Inv, Decided, Reloads;
    BootInv(s);
    BootDecided(s);
    forall id | id in journal ensures RecordFits(s, journal[id]) { LoadedFits(journal, s, id); }
    forall id | id in s.births ensures 0 < s.births[id].start { LoadedStart(journal, s, id); }
  }

  lemma LoadedFits(journal: RunMap, s: State, id: string)
    requires Reloads(journal, s) && Boot(s) && id in journal && journal[id].id == id && 0 < journal[id].firstStartedAt
    ensures RecordFits(s, journal[id])
  {
    hide Boot, SpecOf, Count, Watches;
    BootRunAt(s, id);
  }

  lemma LoadedStart(journal: RunMap, s: State, id: string)
    requires Reloads(journal, s) && Boot(s) && id in s.births
    requires forall x | x in journal :: 0 < journal[x].firstStartedAt
    ensures 0 < s.births[id].start
  {
    hide Boot, SpecOf, Count, Watches;
    BootBirthAt(s, id);
    BootRunAt(s, if id in s.runs then id else s.births[id].owner.pred);
  }

  /** A build whose record on disk has ended, with no resume armed, is left alone by the process that
      reloads it: the end stays, it is neither pushed nor resumed, and it has no successor. */
  lemma EndedOnDiskLeftAlone(journal: RunMap, s: State, events: seq<Event>, id: string)
    requires Reloads(journal, s) && Boot(s) && id in journal
    requires !journal[id].IsRunning() && journal[id].pendingResume.None?
    ensures var s' := After(s, events);
            && id in s'.runs && s'.runs[id].status == journal[id].status && s'.runs[id].exitCode == journal[id].exitCode
            && s'.runs[id].pendingResume.None? && Count(s'.pushes, id) == 0
            && forall x | x in s'.births :: s'.births[x].owner != SuccessorOf(id)
  {
    hide Boot, Inv, After, Watched, Token, Count, FitsRun;
    OnDisk(journal, s, id);
    AlwaysInv(s, events);
    AloneForever(s, events, id);
    assert events[..0] == [];
    NothingYet(s);
    StartedRunsLiveOn(s, events, 0, id);
    Unplanned(After(s, events), id);
  }

  lemma NothingYet(s: State)
    ensures After(s, []) == s
  {}

  lemma OnDisk(journal: RunMap, s: State, id: string)
    requires Reloads(journal, s) && Boot(s) && id in journal
    requires !journal[id].IsRunning() && journal[id].pendingResume.None?
    ensures id in s.runs && id in s.launched && id in s.verdicts && id !in s.planned && Count(s.pushes, id) == 0
    ensures s.runs[id].status == journal[id].status && s.runs[id].exitCode == journal[id].exitCode
  {
    hide Boot, Watched, BootPending, SpecOf;
    BootRunAt(s, id);
  }

  lemma Unplanned(s: State, id: string)
    requires Inv(s) && id in s.runs && id !in s.planned
    ensures s.runs[id].pendingResume.None? && forall x | x in s.births :: s.births[x].owner != SuccessorOf(id)
  {
    hide Inv, SetsOk, BirthsOk, RunsOk, ThreadsOk, HeldMeansCleared, Alone, StartsHeld, FitsRun, Count;
    InvParts(s);
    RunAt(s, id);
    UnplannedChildless(s, id);
  }

  // --- what a restart forgets ---

  /** A restarted engine fires a resume exactly when it finds one on disk: whether a Stop had come is not
      written there. */
  lemma RestartFiresIff(journal: RunMap, s: State, t: nat, id: string, rest: seq<string>, o: Oracle)
    requires s.runs == Reload(journal) && id in journal && t < |s.threads| && s.threads[t] == Clear(id, rest)
    requires Instant(s, o)
    ensures var after := After(s, [Step(t, o), Step(t, o)]);
            && t < |after.threads|
            && (AtReserve(after.threads[t], id) <==> journal[id].pendingResume.Some?)
  {
    hide Happen, After, Loaded, AtReserve;
    LoadedRuns(journal[id]);
    LoadedUnstopped(journal[id]);
    if journal[id].pendingResume.Some? {
      FiresArmed(s, t, id, rest, o);
    } else {
      FiresNothing(s, t, id, rest, o);
    }
  }

  lemma FiresArmed(s: State, t: nat, id: string, rest: seq<string>, o: Oracle)
    requires t < |s.threads| && s.threads[t] == Clear(id, rest) && Instant(s, o)
    requires id in s.runs && s.runs[id].pendingResume.Some? && !s.runs[id].stopRequested
    ensures var after := After(s, [Step(t, o), Step(t, o)]); t < |after.threads| && AtReserve(after.threads[t], id)
  {
    hide Happen, After, SuccessorRun;
    AfterTwo(s, Step(t, o));
    LeftCleared(s, t, id, rest, o);
    LeftRead(Happen(s, Step(t, o)), t, id, s.runs[id].pendingResume.value, rest, o);
  }

  lemma FiresNothing(s: State, t: nat, id: string, rest: seq<string>, o: Oracle)
    requires t < |s.threads| && s.threads[t] == Clear(id, rest) && Instant(s, o)
    requires id in s.runs && s.runs[id].pendingResume.None?
    ensures var after := After(s, [Step(t, o), Step(t, o)]); t < |after.threads| && !AtReserve(after.threads[t], id)
  {
    hide Happen, After, Next, AtReserve;
    AfterTwo(s, Step(t, o));
    PassedOver(s, t, id, rest, o);
    NextPasses(Happen(s, Step(t, o)), t, id, rest, o);
  }

  lemma LoadedUnstopped(r: Run)
    ensures !Loaded(r).stopRequested
  {}

  lemma PassedOver(s: State, t: nat, id: string, rest: seq<string>, o: Oracle)
    requires t < |s.threads| && s.threads[t] == Clear(id, rest) && Instant(s, o)
    requires id in s.runs && s.runs[id].pendingResume.None?
    ensures Happen(s, Step(t, o)) == Goto(s.(now := o.now), t, Next(rest))
  {
    hide Happen, Next;
    Takes(s, t, o);
  }

  lemma NextPasses(s: State, t: nat, id: string, rest: seq<string>, o: Oracle)
    requires t < |s.threads| && s.threads[t] == Next(rest) && Instant(s, o)
    ensures var after := Happen(s, Step(t, o)); t < |after.threads| && !AtReserve(after.threads[t], id)
  {
    hide Happen;
    Takes(s, t, o);
    if rest != [] {
      if rest[0] in s.runs && s.runs[rest[0]].pendingResume.Some? {} else {}
    }
  }

  /** A failed firing arms its resume again exactly when attempts are left, whether a Stop came or not, and
      journals it. */
  lemma RearmIgnoresStop(j: Journaling, t: nat, pred: string, p: PendingResume, rest: seq<string>, o: Oracle)
    requires Sound(j) && Taken(j, t, o) && j.engine.threads[t] == Rearm(pred, p, rest)
    ensures var k := RecordAll(j, [Engine(Step(t, o)), Advance(t, true), Advance(t, true)]);
            && pred in j.engine.runs && pred in k.engine.runs && pred in k.journal
            && k.engine.runs[pred].stopRequested == j.engine.runs[pred].stopRequested
            && k.journal[pred] == k.engine.runs[pred]
            && (k.journal[pred].pendingResume.Some? <==> p.spawnAttempts < MAX_SPAWN_RETRIES)
  {
    hide Inv, Decided, Dated, JournalFits, Happen, Record, RecordAll, Next;
    RecordOnes(j, Engine(Step(t, o)), Advance(t, true), Advance(t, true));
    RearmedHow(j.engine, t, pred, p, rest, o);
    RearmWritten(j, t, pred, p, rest, o);
  }

  lemma RearmedHow(s: State, t: nat, pred: string, p: PendingResume, rest: seq<string>, o: Oracle)
    requires Inv(s) && t < |s.threads| && s.threads[t] == Rearm(pred, p, rest) && Fair(s, o)
    ensures var s' := Happen(s, Step(t, o));
            && pred in s.runs && pred in s'.runs && s'.runs[pred].id == pred
            && s'.runs[pred].stopRequested == s.runs[pred].stopRequested
            && (s'.runs[pred].pendingResume.Some? <==> p.spawnAttempts < MAX_SPAWN_RETRIES)
  {
    hide Inv, FitsRun, FitsPending, Next, Count;
    ThreadAt(s, t);
    LaunchedStay(s, pred);
    HeldAt(s, t, pred);
    if p.spawnAttempts + 1 <= MAX_SPAWN_RETRIES {} else {}
  }

  lemma RearmWritten(j: Journaling, t: nat, pred: string, p: PendingResume, rest: seq<string>, o: Oracle)
    requires Taken(j, t, o) && j.engine.threads[t] == Rearm(pred, p, rest)
    requires pred in Happen(j.engine, Step(t, o)).runs && Happen(j.engine, Step(t, o)).runs[pred].id == pred
    ensures var k := Record(Record(Record(j, Engine(Step(t, o))), Advance(t, true)), Advance(t, true));
            && k.engine == Happen(j.engine, Step(t, o)) && pred in k.journal && k.journal[pred] == k.engine.runs[pred]
  {
    hide Happen, Fair;
  }

  /** A record's successor runs on the engine it was asked for after a restart exactly when that is the
      default: the journal has no field for it. */
  lemma EngineSurvivesIff(pred: Run, p: PendingResume, o: Oracle)
    ensures SuccessorRun(Loaded(pred), p, o).engine == ResolveEngine(pred.engine)
            <==> ResolveEngine(pred.engine) == "claude"
    ensures SpecOf(Loaded(pred)) == SpecOf(pred).(engine := "claude")
  {}
}
