/** The run record and its parts (backend/domain/run.go). */
module Runs {
  import opened Wrappers

  datatype Status = Running | Done | Errored

  datatype Meta = Meta(kind: string, laneKey: string)

  /** A resume scheduled on a finished build, with the chain state its successor inherits. */
  datatype PendingResume = PendingResume(
    successorId: string,
    resumeAt: int,
    resumeCount: nat,
    noProgressStreak: nat,
    firstStartedAt: int,
    spawnAttempts: nat)

  datatype CauseKind = Exit | UserStop | Interrupted | SpawnError

  datatype RedriveCause = RedriveCause(kind: CauseKind, exitCode: Option<int>)

  datatype Run = Run(
    id: string,
    status: Status,
    prompt: string,
    cwd: Option<string>,
    startedAt: int,
    meta: Option<Meta>,
    pid: Option<int>,
    exitCode: Option<int>,
    engine: string,
    configDir: Option<string>,
    resumeCount: nat,
    noProgressStreak: nat,
    firstStartedAt: int,
    pendingResume: Option<PendingResume>,
    pushedAt: Option<int>,
    idempotencyKey: Option<string>,
    startFingerprint: Option<string>,
    lastActivityAt: int,
    lastOutSize: int,
    stallKilledAt: Option<int>,
    stopRequested: bool,
    finalizing: bool)
  {
    predicate IsRunning() { status == Running }
  }

  function KindOf(run: Run): string {
    if run.meta.None? then "" else run.meta.value.kind
  }

  function LaneKeyOf(meta: Option<Meta>): string {
    if meta.None? then "" else meta.value.laneKey
  }

  function ResolveEngine(engine: string): string {
    if engine == "" then "claude" else engine
  }

  /** A running run of this kind holds the lane. */
  predicate Holds(run: Run, kind: string, laneKey: string) {
    run.IsRunning() && run.meta.Some? && run.meta.value.kind == kind && run.meta.value.laneKey == laneKey
  }
}
