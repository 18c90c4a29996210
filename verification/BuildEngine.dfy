/** The build auto-resume engine (backend/usecase/buildengine.go) as a state machine. Every engine call
    is a thread; a thread's step is what it does from one store call to the next, and the store calls
    (backend/infra/memstore.go) are the atomic part. Threads interleave freely. Clock readings, fresh
    ids, journal and spawn results, output and fingerprints come with each step as an `Oracle`. */
module BuildEngine {
  import opened Wrappers
  import opened Runs
  import opened Ndjson
  import opened BuildClass
  import opened ResumePlan
  import opened MemStore

  datatype SpawnReq = SpawnReq(
    prompt: string, cwd: Option<string>, configDir: Option<string>, meta: Option<Meta>,
    key: Option<string>, engine: string)

  /** A missing engine binary is permanent; every other failure may pass. */
  datatype SpawnError = BinaryNotFound | OtherFailure

  datatype SpawnResult = Started(pid: int) | SpawnFailed(error: SpawnError)

  /** Who asked for the reserve-and-spawn: a POST, or the firing of a pending resume, which goes on
      with the rest of its sweep. */
  datatype Caller = ByPost(key: Option<string>) | ByFiring(pred: string, p: PendingResume, rest: seq<string>)

  /** How a run's process ended; `reattached` when it had survived a restart. */
  datatype ExitNote = ExitNote(code: int, interrupted: bool, reattached: bool)

  datatype Thread =
    | Finished
    // SpawnBuild
    | Lookup(req: SpawnReq)
    | Adopt(req: SpawnReq, existing: string)
    | Remember(key: string, id: string)
    // reserveAndSpawn
    | Reserve(run: Run, caller: Caller)
    | Start(run: Run, caller: Caller)
    | Register(run: Run, pid: int, caller: Caller)
    | Undo(run: Run, caller: Caller, error: SpawnError)
    // onExit and finalizeSurvived
    | BeginFinalizing(id: string, exit: ExitNote)
    | Finalize(id: string, exit: ExitNote)
    | ReadFinal(id: string, exit: ExitNote)
    | Decide(run: Run, cause: RedriveCause)
    | Arm(id: string, succ: string, resume: Resume)
    | EndFinalizing(id: string)
    // firePendingResume and rearmOrPark
    | Clear(id: string, rest: seq<string>)
    | ReadPred(pred: string, p: PendingResume, rest: seq<string>)
    | Rearm(pred: string, p: PendingResume, rest: seq<string>)
    // Sweep and Stop
    | Watch(id: string)
    | SweepList
    | StopRead(id: string)
    | StopFlag(id: string)
    | StopFinalize(id: string)
    | StopCancel(id: string)

  /** Where a run id came from: the journal, a POST, or the plan of a predecessor. */
  datatype Owner = AtBoot | Posted(thread: nat) | SuccessorOf(pred: string)

  /** What a build is asked for. */
  datatype Spec = Spec(
    prompt: string, cwd: Option<string>, configDir: Option<string>, meta: Option<Meta>, engine: string,
    key: Option<string>)

  function SpecOf(r: Run): Spec {
    Spec(r.prompt, r.cwd, r.configDir, r.meta, ResolveEngine(r.engine), r.idempotencyKey)
  }

  /** A run's place in its chain: the chain's first run, its start and what it was asked for, the limit
      waits on the way, and how many links lie before it. */
  datatype Birth = Birth(owner: Owner, root: string, start: int, waited: int, depth: nat, spec: Spec)

  /** No resume count, and no limit wait, of the journal or the settings is larger. */
  datatype Caps = Caps(depth: nat, wait: nat)

  /** What the engine decided about a finished run. */
  datatype Verdict = Kept(reason: Parked) | Armed(succ: string) | RefusedByStop | EndedBeforeBoot

  /** The engine's state, then what the theorems speak about: caps, births of ids, runs whose process was
      started, runs planned for a successor, runs between finalize and decision, decisions, runs a
      Stop ended, reserve-and-spawn calls per predecessor, pushes per run. */
  datatype State = State(
    cfg: Config,
    reader: Reader,
    runs: RunMap,
    threads: seq<Thread>,
    idem: map<string, string>,
    now: int,
    caps: Caps,
    births: map<string, Birth>,
    launched: set<string>,
    planned: set<string>,
    deciding: set<string>,
    verdicts: map<string, Verdict>,
    stopEnded: set<string>,
    attempts: map<string, nat>,
    pushes: map<string, nat>)

  datatype Oracle = Oracle(
    now: int,
    atDetect: int,
    freshId: string,
    fingerprint: Option<string>,
    writable: bool,
    journaled: bool,
    spawn: SpawnResult,
    existing: string,
    exitCode: int,
    lines: seq<ParsedLine>,
    due: seq<string>,
    outSize: int,
    activityAt: int,
    killedAt: Option<int>)

  /** A call enters the engine, or thread t takes its next step. */
  datatype Event = Call(thread: Thread) | Step(t: nat, o: Oracle)

  /** Settings, reader and caps never change. */
  ghost predicate SameSetup(s: State, s': State) {
    s'.cfg == s.cfg && s'.reader == s.reader && s'.caps == s.caps
  }

  /** Nothing was born, planned, decided or pushed, and no reserve-and-spawn call counted. */
  ghost predicate SameHistory(s: State, s': State) {
    && s'.births == s.births && s'.planned == s.planned && s'.verdicts == s.verdicts && s'.attempts == s.attempts
    && s'.pushes == s.pushes && s'.now == s.now
  }

  function Count(m: map<string, nat>, id: string): nat {
    if id in m then m[id] else 0
  }

  function Goto(s: State, t: nat, th: Thread): State
    requires t < |s.threads|
  {
    s.(threads := s.threads[t := th])
  }

  /** A firing is over; its sweep fires the next one. */
  function Next(rest: seq<string>): Thread {
    if rest == [] then Finished else Clear(rest[0], rest[1..])
  }

  function NewRun(req: SpawnReq, o: Oracle): Run {
    Run(o.freshId, Running, req.prompt, req.cwd, o.now, req.meta, None, None, ResolveEngine(req.engine),
        req.configDir, 0, 0, o.now, None, None, req.key, o.fingerprint, o.now, 0, None, false, false)
  }

  function SuccessorRun(pred: Run, p: PendingResume, o: Oracle): Run {
    Run(p.successorId, Running, pred.prompt, pred.cwd, o.now, pred.meta, None, None, ResolveEngine(pred.engine),
        pred.configDir, p.resumeCount, p.noProgressStreak, p.firstStartedAt, None, None, pred.idempotencyKey,
        o.fingerprint, o.now, 0, None, false, false)
  }

  function SetRun(s: State, id: string, r: Run): State {
    s.(runs := s.runs[id := r])
  }

  // --- the steps ---

  function Mint(s: State, t: nat, req: SpawnReq, o: Oracle): (r: State)
    requires t < |s.threads|
    ensures SameSetup(s, r)
  {
    Goto(s, t, Reserve(NewRun(req, o), ByPost(req.key)))
      .(births := s.births[o.freshId := Birth(Posted(t), o.freshId, o.now, 0, 0, SpecOf(NewRun(req, o)))])
  }

  function LookupStep(s: State, t: nat, req: SpawnReq, o: Oracle): (r: State)
    requires t < |s.threads|
    ensures SameSetup(s, r)
  {
    if req.prompt == "" then Goto(s, t, Finished)
    else if req.key.Some? && req.key.value in s.idem then Goto(s, t, Adopt(req, s.idem[req.key.value]))
    else Mint(s, t, req, o)
  }

  function AdoptStep(s: State, t: nat, req: SpawnReq, existing: string, o: Oracle): (r: State)
    requires t < |s.threads|
    ensures SameSetup(s, r)
  {
    if existing in s.runs then Goto(s, t, Finished) else Mint(s, t, req, o)
  }

  function AfterReserve(caller: Caller, id: string): Thread {
    match caller
    case ByPost(None) => Finished
    case ByPost(Some(key)) => Remember(key, id)
    case ByFiring(_, _, rest) => Next(rest)
  }

  /** reserveAndSpawn failed: a POST reports it; a firing re-arms, or parks on a missing binary. */
  function AfterFailure(caller: Caller, error: SpawnError): Thread {
    match caller
    case ByPost(_) => Finished
    case ByFiring(pred, p, rest) => if error.BinaryNotFound? then Next(rest) else Rearm(pred, p, rest)
  }

  function Counted(s: State, caller: Caller): map<string, nat> {
    if caller.ByFiring? then s.attempts[caller.pred := Count(s.attempts, caller.pred) + 1] else s.attempts
  }

  /** An oracle's choice of the run that holds the lane is one that does. */
  ghost predicate HolderChosen(s: State, run: Run, o: Oracle) {
    o.existing in s.runs && Holds(s.runs[o.existing], "build", LaneKeyOf(run.meta))
  }

  ghost function ReserveStep(s: State, t: nat, run: Run, caller: Caller, o: Oracle): (r: State)
    requires t < |s.threads|
    ensures |r.threads| == |s.threads| && SameSetup(s, r)
  {
    var counted := s.(attempts := Counted(s, caller));
    if !o.writable then Goto(counted, t, AfterFailure(caller, OtherFailure))
    else if LaneFree(s.runs, "build", LaneKeyOf(run.meta)) then
      Goto(SetRun(counted, run.id, run), t, Start(run, caller))
    else if HolderChosen(s, run, o) then Goto(counted, t, AfterReserve(caller, o.existing))
    else s
  }

  function StartStep(s: State, t: nat, run: Run, caller: Caller, o: Oracle): (r: State)
    requires t < |s.threads|
    ensures SameSetup(s, r) && SameHistory(s, r)
  {
    if !o.journaled then Goto(s, t, Undo(run, caller, OtherFailure))
    else
      match o.spawn
      case SpawnFailed(error) => Goto(s, t, Undo(run, caller, error))
      case Started(pid) => Goto(s, t, Register(run, pid, caller)).(launched := s.launched + {run.id})
  }

  /** SetPid, then the goroutine that waits for the exit. */
  function RegisterStep(s: State, t: nat, run: Run, pid: int, caller: Caller, o: Oracle): (r: State)
    requires t < |s.threads|
    ensures SameSetup(s, r) && SameHistory(s, r)
  {
    var after := Goto(s, t, AfterReserve(caller, run.id));
    after.(runs := Updated(s.runs, run.id, (r: Run) => r.(pid := Some(pid))),
           threads := after.threads + [BeginFinalizing(run.id, ExitNote(o.exitCode, false, false))])
  }

  function UndoStep(s: State, t: nat, run: Run, caller: Caller, error: SpawnError): (r: State)
    requires t < |s.threads|
    ensures SameSetup(s, r) && SameHistory(s, r)
  {
    Goto(s, t, AfterFailure(caller, error)).(runs := s.runs - {run.id}, stopEnded := s.stopEnded - {run.id})
  }

  function BeginStep(s: State, t: nat, id: string, exit: ExitNote): (r: State)
    requires t < |s.threads|
    ensures SameSetup(s, r) && SameHistory(s, r)
  {
    if id in s.runs && s.runs[id].IsRunning() then
      Goto(SetRun(s, id, s.runs[id].(finalizing := true)), t, Finalize(id, exit))
    else Goto(s, t, Finished)
  }

  function FinalizeStep(s: State, t: nat, id: string, exit: ExitNote): (r: State)
    requires t < |s.threads|
    ensures SameSetup(s, r) && SameHistory(s, r)
  {
    if id in s.runs && s.runs[id].IsRunning() then
      Goto(s, t, ReadFinal(id, exit))
        .(runs := Finalized(s.runs, id, exit.code), deciding := s.deciding + {id})
    else Goto(s, t, EndFinalizing(id))
  }

  function CauseOf(run: Run, exit: ExitNote): RedriveCause {
    if !exit.reattached && run.stopRequested then RedriveCause(UserStop, None)
    else if exit.interrupted then RedriveCause(Interrupted, None)
    else RedriveCause(Exit, Some(exit.code))
  }

  function ReadFinalStep(s: State, t: nat, id: string, exit: ExitNote): (r: State)
    requires t < |s.threads|
    ensures SameSetup(s, r) && SameHistory(s, r)
  {
    if id in s.runs then Goto(s, t, Decide(s.runs[id], CauseOf(s.runs[id], exit)))
    else Goto(s, t, EndFinalizing(id))
  }

  /** The finished run asks for a push. */
  predicate WantsPush(s: State, run: Run, lines: seq<ParsedLine>) {
    s.cfg.autoPush && KindOf(run) == "build" && run.cwd.Some? && IsBuildComplete(FinalText(s.reader, lines))
  }

  /** maybePushOnComplete's atomic test-and-set. */
  function PushIfComplete(s: State, run: Run, o: Oracle): (r: State)
    ensures SameSetup(s, r) && SameHistory(s, r.(pushes := s.pushes))
  {
    if WantsPush(s, run, o.lines) && run.id in s.runs && s.runs[run.id].pushedAt.None? then
      SetRun(s, run.id, s.runs[run.id].(pushedAt := Some(o.now)))
        .(pushes := s.pushes[run.id := Count(s.pushes, run.id) + 1])
    else s
  }

  /** The push, then the plan on the same output. A resume takes a fresh id for its successor. */
  function DecideStep(s: State, t: nat, run: Run, cause: RedriveCause, o: Oracle): State
    requires t < |s.threads|
  {
    var pushed := PushIfComplete(s, run, o);
    match PlanResume(s.cfg, s.reader, run, o.lines, cause, PlanClock(o.atDetect, o.now), o.fingerprint)
    case Stay(reason) =>
      Goto(pushed, t, EndFinalizing(run.id))
        .(verdicts := s.verdicts[run.id := Kept(reason)], deciding := s.deciding - {run.id})
    case Go(r) =>
      var b := if run.id in s.births then s.births[run.id]
               else Birth(AtBoot, run.id, run.firstStartedAt, 0, run.resumeCount, SpecOf(run));
      Goto(pushed, t, Arm(run.id, o.freshId, r))
        .(planned := s.planned + {run.id},
          births := s.births[o.freshId := Birth(SuccessorOf(run.id), b.root, b.start,
            b.waited + (if r.limited then r.delayMs else 0), b.depth + 1, b.spec)])
  }

  function Pending(succ: string, r: Resume, now: int): PendingResume {
    PendingResume(succ, now + r.delayMs, r.nextResumeCount, r.nextStreak, r.firstStartedAt, 0)
  }

  /** scheduleResume: armed under the lock unless a Stop came first; the timer is a thread of its own. */
  function ArmStep(s: State, t: nat, id: string, succ: string, r: Resume, o: Oracle): (after: State)
    requires t < |s.threads|
    ensures SameSetup(s, after)
  {
    if id in s.runs && !s.runs[id].stopRequested then
      s.(runs := s.runs[id := s.runs[id].(pendingResume := Some(Pending(succ, r, o.now)))],
         threads := s.threads[t := EndFinalizing(id)] + [Clear(id, [])],
         deciding := s.deciding - {id}, verdicts := s.verdicts[id := Armed(succ)])
    else
      s.(threads := s.threads[t := EndFinalizing(id)],
         deciding := s.deciding - {id}, verdicts := s.verdicts[id := RefusedByStop])
  }

  function EndStep(s: State, t: nat, id: string): (r: State)
    requires t < |s.threads|
    ensures SameSetup(s, r) && SameHistory(s, r)
  {
    Goto(s, t, Finished).(runs := Updated(s.runs, id, (r: Run) => r.(finalizing := false)))
  }

  /** The fire-once test-and-clear. */
  function ClearStep(s: State, t: nat, id: string, rest: seq<string>): (r: State)
    requires t < |s.threads|
    ensures SameSetup(s, r) && SameHistory(s, r)
  {
    if id in s.runs && s.runs[id].pendingResume.Some? then
      Goto(SetRun(s, id, s.runs[id].(pendingResume := None)), t, ReadPred(id, s.runs[id].pendingResume.value, rest))
    else Goto(s, t, Next(rest))
  }

  function ReadPredStep(s: State, t: nat, pred: string, p: PendingResume, rest: seq<string>, o: Oracle): (r: State)
    requires t < |s.threads|
    ensures SameSetup(s, r) && SameHistory(s, r)
  {
    if pred !in s.runs || s.runs[pred].stopRequested then Goto(s, t, Next(rest))
    else Goto(s, t, Reserve(SuccessorRun(s.runs[pred], p, o), ByFiring(pred, p, rest)))
  }

  function RearmStep(s: State, t: nat, pred: string, p: PendingResume, rest: seq<string>, o: Oracle): (r: State)
    requires t < |s.threads|
    ensures SameSetup(s, r) && SameHistory(s, r)
  {
    if p.spawnAttempts + 1 <= MAX_SPAWN_RETRIES && pred in s.runs then
      Goto(SetRun(s, pred, s.runs[pred].(pendingResume :=
        Some(p.(spawnAttempts := p.spawnAttempts + 1, resumeAt := o.now + s.cfg.resumeBaseMs)))), t, Next(rest))
    else Goto(s, t, Next(rest))
  }

  /** The stall watchdog's update of one run. What it writes is the subject of module Watchdog; here it
      may be anything. */
  function WatchStep(s: State, t: nat, id: string, o: Oracle): (r: State)
    requires t < |s.threads|
    ensures SameSetup(s, r) && SameHistory(s, r)
  {
    Goto(s, t, Finished)
      .(runs := Updated(s.runs, id, (r: Run) =>
         r.(lastOutSize := o.outSize, lastActivityAt := o.activityAt, stallKilledAt := o.killedAt)))
  }

  /** The sweep's snapshot: every due pending resume once, in any order. */
  ghost predicate DueList(s: State, due: seq<string>, now: int) {
    && (forall id :: id in due <==> id in s.runs && s.runs[id].pendingResume.Some?
                                    && s.runs[id].pendingResume.value.resumeAt <= now)
    && (forall i, j | 0 <= i < j < |due| :: due[i] != due[j])
  }

  function StopReadStep(s: State, t: nat, id: string): (r: State)
    requires t < |s.threads|
    ensures SameSetup(s, r) && SameHistory(s, r)
  {
    if id !in s.runs then Goto(s, t, Finished)
    else if s.runs[id].IsRunning() then Goto(s, t, StopFlag(id))
    else if s.runs[id].pendingResume.Some? then Goto(s, t, StopCancel(id))
    else Goto(s, t, Finished)
  }

  function Stopped(r: Run): Run {
    r.(stopRequested := true, pendingResume := None)
  }

  function StopFlagStep(s: State, t: nat, id: string, next: Thread): (r: State)
    requires t < |s.threads|
    ensures SameSetup(s, r) && SameHistory(s, r)
  {
    Goto(s, t, next).(runs := Updated(s.runs, id, (r: Run) => Stopped(r)))
  }

  function StopFinalizeStep(s: State, t: nat, id: string): (r: State)
    requires t < |s.threads|
    ensures SameSetup(s, r) && SameHistory(s, r)
  {
    Goto(s, t, Finished)
      .(runs := Finalized(s.runs, id, 143),
        stopEnded := if id in s.runs && s.runs[id].IsRunning() then s.stopEnded + {id} else s.stopEnded)
  }

  ghost function ThreadStep(s: State, t: nat, o: Oracle): State
    requires t < |s.threads|
  {
    match s.threads[t]
    case Finished => s
    case Lookup(req) => LookupStep(s, t, req, o)
    case Adopt(req, existing) => AdoptStep(s, t, req, existing, o)
    case Remember(key, id) => Goto(s, t, Finished).(idem := s.idem[key := id])
    case Reserve(run, caller) => ReserveStep(s, t, run, caller, o)
    case Start(run, caller) => StartStep(s, t, run, caller, o)
    case Register(run, pid, caller) => RegisterStep(s, t, run, pid, caller, o)
    case Undo(run, caller, error) => UndoStep(s, t, run, caller, error)
    case BeginFinalizing(id, exit) => BeginStep(s, t, id, exit)
    case Finalize(id, exit) => FinalizeStep(s, t, id, exit)
    case ReadFinal(id, exit) => ReadFinalStep(s, t, id, exit)
    case Decide(run, cause) => DecideStep(s, t, run, cause, o)
    case Arm(id, succ, r) => ArmStep(s, t, id, succ, r, o)
    case EndFinalizing(id) => EndStep(s, t, id)
    case Clear(id, rest) => ClearStep(s, t, id, rest)
    case ReadPred(pred, p, rest) => ReadPredStep(s, t, pred, p, rest, o)
    case Rearm(pred, p, rest) => RearmStep(s, t, pred, p, rest, o)
    case Watch(id) => WatchStep(s, t, id, o)
    case SweepList => if DueList(s, o.due, o.now) then Goto(s, t, Next(o.due)) else s
    case StopRead(id) => StopReadStep(s, t, id)
    case StopFlag(id) => StopFlagStep(s, t, id, StopFinalize(id))
    case StopFinalize(id) => StopFinalizeStep(s, t, id)
    case StopCancel(id) => StopFlagStep(s, t, id, Finished)
  }

  /** What a caller may start: a build POST, a sweep, a stop. */
  predicate Entry(th: Thread) {
    th.Lookup? || th.Watch? || th.SweepList? || th.StopRead?
  }

  /** Clocks do not run backwards and fresh ids are fresh. */
  ghost predicate Fair(s: State, o: Oracle) {
    s.now <= o.atDetect <= o.now && o.freshId !in s.births
  }

  /** One event. One that cannot happen leaves the state alone. */
  ghost function Happen(s: State, e: Event): State {
    match e
    case Call(th) => if Entry(th) then s.(threads := s.threads + [th]) else s
    case Step(t, o) =>
      if t < |s.threads| && Fair(s, o) then ThreadStep(s.(now := o.now), t, o) else s
  }

  ghost function After(s: State, events: seq<Event>): State {
    if events == [] then s else Happen(After(s, events[..|events| - 1]), events[|events| - 1])
  }
}
