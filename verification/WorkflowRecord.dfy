/** The durable workflow record and its ordered phases (backend/domain/workflow.go), with the record's
    own transitions (transitionLocked, completePhaseLocked, failLocked of backend/usecase/workflow.go). */
module WorkflowRecord {
  import opened Wrappers

  datatype Track = PRD | Plan | OtherTrack

  datatype Phase = Resolve | Pickup | Proto | Lock | Build | RPlan | RPlanReview | Approved | QA | Reviewer | Wrap
    | Verify | OtherPhase

  datatype Status = Running | Parked | AwaitingDecision | Done | Failed | Stopped | OtherStatus

  datatype RecordStatus = PhaseStarted | PhaseContinued | PhaseDone | PhaseFailed | PhaseOther

  /** Why a workflow is where it is. The messages are for people; only their kind is kept. */
  datatype Reason = NoReason | ResolveError | NoSuccessor | CannotLock | LockRefused | SpawnError | ChildGone | ChildFailed
    | ChildCompleted | LockComplete | VerifiedCompletion | StoppedByOperator | DuplicateLane | Unverified(why: Doubt)
    | Said(text: string)

  /** What verification found wrong. */
  datatype Doubt = NoTarget | NotLocked | NoPreview | NoManifest | OtherPrd | NoSlices | SliceOpen(n: int) | NoSteps(n: int)
    | StepOpen(n: int) | ArtifactMissing | CommitMissing | NoBuildVerdict | PlanMissing | GatesOpen | NoVerdict(phase: Phase)
    | PushFailed

  datatype PhaseRecord = PhaseRecord(phase: Phase, status: RecordStatus, child: string, reason: Reason, at: int)

  datatype WorkflowDecision = WorkflowDecision(kind: string, question: string, options: seq<string>, slice: Option<int>)

  datatype Evidence = Evidence(checkedPaths: seq<string>, commitIds: seq<string>, verdicts: set<Phase>, verifiedAt: int)

  datatype Workflow = Workflow(
    id: string,
    laneKey: string,
    cwd: string,
    target: string,
    resolvedPath: string,
    engine: string,
    configDir: string,
    track: Track,
    phase: Phase,
    child: string,
    history: seq<PhaseRecord>,
    status: Status,
    pendingUntil: int,
    resumeCount: int,
    decision: Option<WorkflowDecision>,
    parkedReason: string,
    reason: Reason,
    evidence: Option<Evidence>,
    idemKey: string,
    createdAt: int,
    updatedAt: int)
  {
    /** Over for good: only a fresh attempt may follow on its lane. */
    predicate Historical() { status == Failed || status == Stopped }
  }

  // --- the phase orders ---

  const PRD_PHASES := [Resolve, Pickup, Proto, Lock, Build, Verify]
  const PLAN_PHASES := [Resolve, RPlan, RPlanReview, Approved, QA, Reviewer, Wrap, Verify]

  /** The position of a phase in its track; -1 when the track does not have it. A track that is not Plan
      is ordered as PRD. */
  function Order(track: Track, phase: Phase): int {
    match phase
    case Resolve => 0
    case Pickup => if track == Plan then -1 else 1
    case Proto => if track == Plan then -1 else 2
    case Lock => if track == Plan then -1 else 3
    case Build => if track == Plan then -1 else 4
    case RPlan => if track == Plan then 1 else -1
    case RPlanReview => if track == Plan then 2 else -1
    case Approved => if track == Plan then 3 else -1
    case QA => if track == Plan then 4 else -1
    case Reviewer => if track == Plan then 5 else -1
    case Wrap => if track == Plan then 6 else -1
    case Verify => if track == Plan then 7 else 5
    case OtherPhase => -1
  }

  function PhasesOf(track: Track): seq<Phase> {
    if track == Plan then PLAN_PHASES else PRD_PHASES
  }

  lemma OrderIsPosition(track: Track, phase: Phase)
    ensures phase in PhasesOf(track) <==> Order(track, phase) >= 0
    ensures Order(track, phase) < |PhasesOf(track)|
    ensures Order(track, phase) >= 0 ==> PhasesOf(track)[Order(track, phase)] == phase
    ensures forall i | 0 <= i < |PhasesOf(track)| :: Order(track, PhasesOf(track)[i]) == i
  {
    if Order(track, phase) >= 0 {
      assert PhasesOf(track)[Order(track, phase)] == phase;
    }
  }

  /** nextPhase scans the track for the phase. */
  method NextPhase(track: Track, phase: Phase) returns (next: Option<Phase>)
    ensures next == NextOf(track, phase)
  {
    hide PhasesOf, Order;
    var phases := PhasesOf(track);
    OrderIsPosition(track, phase);
    for i := 0 to |phases|
      invariant forall k | 0 <= k < i :: !(phases[k] == phase && k + 1 < |phases|)
    {
      if phases[i] == phase && i + 1 < |phases| {
        return Some(phases[i + 1]);
      }
    }
    next := None;
  }

  function NextOf(track: Track, phase: Phase): Option<Phase> {
    var i := Order(track, phase);
    if 0 <= i && i + 1 < |PhasesOf(track)| then Some(PhasesOf(track)[i + 1]) else None
  }

  lemma NextIsLater(track: Track, phase: Phase)
    ensures NextOf(track, phase).Some? ==>
              Order(track, phase) >= 0 && Order(track, NextOf(track, phase).value) == Order(track, phase) + 1
    ensures NextOf(track, phase).None? <==> phase == Verify || Order(track, phase) < 0
  {
    OrderIsPosition(track, phase);
    if NextOf(track, phase).Some? {
      OrderIsPosition(track, NextOf(track, phase).value);
    }
  }

  // --- the history of a workflow ---

  predicate Open(r: PhaseRecord) {
    r.status == PhaseStarted || r.status == PhaseContinued
  }

  /** The status of the last record of a phase. */
  function LastOf(h: seq<PhaseRecord>, p: Phase): Option<RecordStatus> {
    if h == [] then None
    else if h[|h| - 1].phase == p then Some(h[|h| - 1].status)
    else LastOf(h[..|h| - 1], p)
  }

  function RecordsOf(h: seq<PhaseRecord>, p: Phase): nat {
    if h == [] then 0 else RecordsOf(h[..|h| - 1], p) + if h[|h| - 1].phase == p then 1 else 0
  }

  /** completePhaseLocked's search: the last open record of the phase is done. */
  function Closed(h: seq<PhaseRecord>, p: Phase, child: string, reason: Reason): seq<PhaseRecord> {
    if h == [] then []
    else
      var r := h[|h| - 1];
      if r.phase == p && Open(r) then
        h[..|h| - 1] + [CloseWith(r, child, reason)]
      else Closed(h[..|h| - 1], p, child, reason) + [r]
  }

  function CloseWith(r: PhaseRecord, child: string, reason: Reason): PhaseRecord {
    r.(status := PhaseDone, child := child, reason := reason)
  }

  lemma ClosedAt(h: seq<PhaseRecord>, p: Phase, child: string, reason: Reason, i: nat)
    requires i < |h|
    ensures Closed(h[..i + 1], p, child, reason) + h[i + 1..]
            == if h[i].phase == p && Open(h[i]) then h[i := CloseWith(h[i], child, reason)]
               else Closed(h[..i], p, child, reason) + h[i..]
  {
    assert h[..i + 1][..i] == h[..i];
    if h[i].phase == p && Open(h[i]) {
      assert h[..i] + [CloseWith(h[i], child, reason)] + h[i + 1..] == h[i := CloseWith(h[i], child, reason)];
    } else {
      Regroup(Closed(h[..i], p, child, reason), h[i], h[i + 1..]);
      assert [h[i]] + h[i + 1..] == h[i..];
    }
  }

  lemma Regroup<T>(a: seq<T>, x: T, b: seq<T>)
    ensures a + [x] + b == a + ([x] + b)
  {}

  method CloseRecord(h: seq<PhaseRecord>, p: Phase, child: string, reason: Reason) returns (out: seq<PhaseRecord>)
    ensures out == Closed(h, p, child, reason)
  {
    hide Closed;
    out := h;
    var i := |h| - 1;
    ClosedWhole(h, p, child, reason);
    while i >= 0
      invariant -1 <= i < |h|
      invariant Closed(h, p, child, reason) == Closed(h[..i + 1], p, child, reason) + h[i + 1..]
    {
      ClosedAt(h, p, child, reason, i);
      if h[i].phase == p && Open(h[i]) {
        out := h[i := CloseWith(h[i], child, reason)];
        return;
      }
      i := i - 1;
    }
  }

  lemma ClosedWhole(h: seq<PhaseRecord>, p: Phase, child: string, reason: Reason)
    ensures Closed(h[..|h|], p, child, reason) + h[|h|..] == Closed(h, p, child, reason)
    ensures Closed(h[..0], p, child, reason) + h[0..] == h
  {
    assert h[..|h|] == h;
  }

  /** phaseDone looks at the last record of the phase. */
  method PhaseIsDone(h: seq<PhaseRecord>, p: Phase) returns (done: bool)
    ensures done <==> LastOf(h, p) == Some(PhaseDone)
  {
    var i := |h| - 1;
    assert h[..|h|] == h;
    while i >= 0
      invariant -1 <= i < |h|
      invariant LastOf(h, p) == LastOf(h[..i + 1], p)
    {
      assert h[..i + 1][..i] == h[..i];
      if h[i].phase == p { return h[i].status == PhaseDone; }
      i := i - 1;
    }
    done := false;
  }

  lemma LastOfAppend(h: seq<PhaseRecord>, r: PhaseRecord, p: Phase)
    ensures LastOf(h + [r], p) == if r.phase == p then Some(r.status) else LastOf(h, p)
    ensures RecordsOf(h + [r], p) == RecordsOf(h, p) + if r.phase == p then 1 else 0
  {
    assert (h + [r])[..|h|] == h;
  }

  /** Closing a phase whose last record is open makes it done, and touches no other phase's last record
      and no count. */
  lemma {:induction false} LastOfClosed(h: seq<PhaseRecord>, p: Phase, child: string, reason: Reason, q: Phase)
    ensures var h' := Closed(h, p, child, reason);
            && |h'| == |h| && RecordsOf(h', q) == RecordsOf(h, q)
            && LastOf(h', q) == if q == p && (LastOf(h, p) == Some(PhaseStarted) || LastOf(h, p) == Some(PhaseContinued))
                                then Some(PhaseDone) else LastOf(h, q)
  {
    hide LastOf, RecordsOf, CloseWith;
    if h == [] {
      LastOfNothing(p);
    } else {
      var front, r := h[..|h| - 1], h[|h| - 1];
      CloseWithCloses(r, child, reason);
      LastOfAppend(front, CloseWith(r, child, reason), q);
      LastOfClosed(front, p, child, reason, q);
      LastOfAppend(Closed(front, p, child, reason), r, q);
      assert front + [r] == h;
      LastOfAppend(front, r, q);
      LastOfAppend(front, r, p);
    }
  }

  lemma LastOfNothing(p: Phase)
    ensures LastOf([], p) == None
  {}

  lemma CloseWithCloses(r: PhaseRecord, child: string, reason: Reason)
    ensures CloseWith(r, child, reason).phase == r.phase && CloseWith(r, child, reason).status == PhaseDone
  {}
}
