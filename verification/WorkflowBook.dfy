/** What every workflow record keeps, and what the coordinator's books (its workflows, lanes, journal and
    spawned children) keep (backend/usecase/workflow.go). */
module WorkflowBook {
  import opened Wrappers
  import opened WorkflowRecord
  import opened WorkflowWorld

  // --- one record ---

  /** All phases from position f up to the current one are done. */
  ghost predicate DoneFrom(w: Workflow, f: int) {
    && f <= Order(w.track, w.phase)
    && forall p | f <= Order(w.track, p) < Order(w.track, w.phase) :: LastOf(w.history, p) == Some(PhaseDone)
  }

  /** The last record is the current phase's: open while the workflow is, done at the end of verify. */
  ghost predicate AtCurrent(w: Workflow) {
    && w.history != [] && w.history[|w.history| - 1].phase == w.phase
    && var r := w.history[|w.history| - 1];
       || (Open(r) && w.status != Done)
       || (r.status == PhaseDone && w.phase == Verify)
       || (r.status == PhaseFailed && w.status == Failed)
  }

  /** The phases were walked in order, from the first one chosen. */
  ghost predicate Ordered(w: Workflow) {
    && AtCurrent(w)
    && (w.phase != Resolve ==>
          if w.track == Plan then DoneFrom(w, 1) else DoneFrom(w, 1) || DoneFrom(w, 2) || DoneFrom(w, 4))
  }

  predicate OnLane(world: World, cwd: string, laneKey: string) {
    world.root(cwd) + "::" <= laneKey
  }

  /** Phases the coordinator does itself. */
  predicate Childless(p: Phase) {
    p == Resolve || p == Lock || p == Verify
  }

  ghost predicate Sound(world: World, w: Workflow) {
    && ValidId(w.id) && w.cwd != "" && w.target != "" && OnLane(world, w.cwd, w.laneKey)
    && world.root(w.cwd) == w.cwd && world.trim(w.target) == w.target && w.track == world.trackOf(w.cwd, w.target)
    && w.track != OtherTrack && Order(w.track, w.phase) >= 0 && w.status != OtherStatus
    && (w.status == AwaitingDecision <==> w.decision.Some?)
    && (w.status == Done ==> w.phase == Verify && w.evidence.Some? && GoodEvidence(w.evidence.value))
    && (w.status != Running || Childless(w.phase) ==> w.child == "")
    && Ordered(w)
  }

  /** Rehydrate's test of a loaded record. */
  predicate ValidWorkflow(world: World, w: Workflow) {
    && ValidId(w.id) && w.laneKey != "" && w.cwd != "" && w.target != ""
    && w.track != OtherTrack && w.phase in PhasesOf(w.track)
    && w.status != OtherStatus
    && (w.status == AwaitingDecision ==> w.decision.Some?)
    && (w.status != AwaitingDecision ==> w.decision.None?)
    && OnLane(world, w.cwd, w.laneKey)
    && (w.status == Done ==> w.evidence.Some?)
    && (w.status == Done ==> w.evidence.value.verifiedAt > 0 && |w.evidence.value.checkedPaths| != 0)
  }

  /** Whatever the coordinator writes, a restart accepts. */
  lemma SoundIsValid(world: World, w: Workflow)
    requires Sound(world, w)
    ensures ValidWorkflow(world, w)
  {
    hide Ordered, ValidId, Order, PhasesOf;
    OrderIsPosition(w.track, w.phase);
    assert |w.laneKey| >= |world.root(w.cwd) + "::"|;
  }

  /** The verdict verify asks for is there by then: build for a PRD; qa, reviewer and wrap for a plan. */
  lemma VerdictsInevitable(world: World, w: Workflow)
    requires Sound(world, w) && w.phase == Verify
    ensures w.track == PRD ==> HasVerdict(w, Build)
    ensures w.track == Plan ==> HasVerdict(w, QA) && HasVerdict(w, Reviewer) && HasVerdict(w, Wrap)
  {
    if w.track == PRD {
      assert LastOf(w.history, Build) == Some(PhaseDone);
      LastIsVerdict(w, w.history, Build);
    } else {
      assert LastOf(w.history, QA) == Some(PhaseDone);
      assert LastOf(w.history, Reviewer) == Some(PhaseDone);
      assert LastOf(w.history, Wrap) == Some(PhaseDone);
      LastIsVerdict(w, w.history, QA);
      LastIsVerdict(w, w.history, Reviewer);
      LastIsVerdict(w, w.history, Wrap);
    }
  }

  lemma {:induction false} LastIsVerdict(w: Workflow, h: seq<PhaseRecord>, p: Phase)
    requires h <= w.history && LastOf(h, p) == Some(PhaseDone)
    ensures HasVerdict(w, p)
    decreases |h|
  {
    if h[|h| - 1].phase == p {
      assert w.history[|h| - 1] == h[|h| - 1];
    } else {
      LastIsVerdict(w, h[..|h| - 1], p);
    }
  }

  // --- what one record goes through ---

  /** Children a running workflow without one may still spawn for its phase. */
  function Slack(w: Workflow, p: Phase): nat {
    if w.status == Running && w.child == "" && w.phase == p then 1 else 0
  }

  /** Children the history has paid for. */
  function Budget(w: Workflow, p: Phase): int {
    RecordsOf(w.history, p) - Slack(w, p)
  }

  ghost predicate Funded(a: Workflow, b: Workflow) {
    forall p :: Budget(a, p) <= Budget(b, p)
  }

  predicate SameIdentity(a: Workflow, b: Workflow) {
    && b.id == a.id && b.laneKey == a.laneKey && b.cwd == a.cwd && b.target == a.target && b.track == a.track
    && b.idemKey == a.idemKey
  }

  /** Only the PRD track has a lock to take. */
  predicate Walkable(w: Workflow) {
    w.phase == Lock ==> w.track != Plan
  }

  /** Verified: the facts held when the evidence was taken. */
  ghost predicate Proven(world: World, w: Workflow) {
    w.evidence.Some? && exists n :: Facts(world, n, w) && w.evidence.value.verifiedAt == world.now(n)
  }

  /** b is a, later: what failed or was stopped does not move; what is done can only be found wrong; done
      is only what was verified; phases go forward, and spawns stay paid for. */
  ghost predicate Onward(world: World, a: Workflow, b: Workflow) {
    && SameIdentity(a, b) && (Walkable(a) ==> Walkable(b))
    && (a.Historical() ==> b == a)
    && (a.status == Done ==> (b.status == Done || b.status == Failed) && b.history == a.history)
    && (b.status == Done ==> Proven(world, b) || (a.status == Done && b.evidence == a.evidence))
    && (Sound(world, a) ==> Sound(world, b) && Order(a.track, a.phase) <= Order(b.track, b.phase) && Funded(a, b))
  }

  lemma OnwardTrans(world: World, a: Workflow, b: Workflow, c: Workflow)
    requires Onward(world, a, b) && Onward(world, b, c)
    ensures Onward(world, a, c)
  {
    hide Sound, Facts;
    if c.status == Done && b.status == Done && c.evidence == b.evidence && Proven(world, b) {
      ProvenSame(world, b, c);
    }
  }

  lemma ProvenSame(world: World, a: Workflow, b: Workflow)
    requires Proven(world, a) && SameIdentity(a, b) && b.history == a.history && b.evidence == a.evidence
    ensures Proven(world, b)
  {
    hide PrdFacts, PlanFacts, PushHeld;
    var n :| Facts(world, n, a) && a.evidence.value.verifiedAt == world.now(n);
    FactsSame(world, n, a, b);
  }

  lemma FactsSame(world: World, n: nat, a: Workflow, b: Workflow)
    requires Facts(world, n, a) && SameIdentity(a, b) && b.history == a.history
    ensures Facts(world, n, b)
  {
    hide SliceProven, HasRaw, LastBuildChild;
    assert forall p :: HasVerdict(a, p) ==> HasVerdict(b, p);
  }

  lemma OnwardSelf(world: World, a: Workflow)
    ensures Onward(world, a, a)
  {}

  function Begin(h: seq<PhaseRecord>, p: Phase, at: int): seq<PhaseRecord> {
    h + [PhaseRecord(p, PhaseStarted, "", NoReason, at)]
  }

  /** transitionLocked: on to the first phase. */
  function Moved(w: Workflow, next: Phase, at: int): Workflow {
    w.(phase := next, child := "", history := Begin(w.history, next, at), updatedAt := at)
  }

  /** completePhaseLocked: the phase is done and its successor started, in one write. */
  function Completed(w: Workflow, reason: Reason, startAt: int, at: int): Workflow {
    var h := Closed(w.history, w.phase, w.child, reason);
    match NextOf(w.track, w.phase)
    case None => w.(history := h, child := "", updatedAt := at)
    case Some(next) => w.(history := Begin(h, next, startAt), child := "", phase := next, updatedAt := at)
  }

  /** failLocked. */
  function Failing(w: Workflow, reason: Reason, at: int): Workflow {
    var n := |w.history|;
    w.(status := Failed, reason := reason, child := "", updatedAt := at,
       history := if n > 0 && w.history[n - 1].status == PhaseStarted
                  then w.history[n - 1 := w.history[n - 1].(status := PhaseFailed, reason := reason)]
                  else w.history)
  }

  /** Continue: running again, with a record of the operator's choice. */
  function Reopened(w: Workflow, option: string, at: int): Workflow {
    w.(status := Running, decision := None, parkedReason := "", reason := NoReason,
       history := w.history + [PhaseRecord(w.phase, PhaseContinued, "", Said(option), at)])
  }

  predicate FirstOf(track: Track, p: Phase) {
    if track == Plan then p == RPlan else p == Pickup || p == Proto || p == Build
  }

  lemma MovedOnward(world: World, w: Workflow, next: Phase, at: int)
    requires w.status == Running && w.phase == Resolve && next != Lock && (Sound(world, w) ==> FirstOf(w.track, next))
    ensures Onward(world, w, Moved(w, next, at))
  {
    hide LastOf, RecordsOf, ValidId, OnLane;
    forall p ensures Budget(w, p) <= Budget(Moved(w, next, at), p) {
      LastOfAppend(w.history, PhaseRecord(next, PhaseStarted, "", NoReason, at), p);
    }
  }

  lemma CompletedOnward(world: World, w: Workflow, reason: Reason, startAt: int, at: int)
    requires w.status == Running && (Sound(world, w) ==> w.phase != Resolve)
    ensures var w' := Completed(w, reason, startAt, at);
            && Onward(world, w, w')
            && (w.phase == Verify && Sound(world, w') ==>
                  w'.history != [] && w'.history[|w'.history| - 1].status == PhaseDone)
  {
    hide LastOf, RecordsOf, Closed, NextOf, Order, Sound, Slack;
    var w' := Completed(w, reason, startAt, at);
    if w.phase == Verify && Sound(world, w') { CompletedCloses(world, w, reason, startAt, at); }
    NextWalkable(w.track, w.phase);
    if Sound(world, w) {
      CompletedSound(world, w, reason, startAt, at);
      NextIsLater(w.track, w.phase);
      SoundVerify(world, w);
      forall p ensures Budget(w, p) <= Budget(w', p) { CompletedBudget(w, reason, startAt, at, p); }
    }
  }

  lemma NextWalkable(track: Track, p: Phase)
    ensures NextOf(track, p) == Some(Lock) ==> track != Plan
  {}

  lemma SoundVerify(world: World, w: Workflow)
    requires Sound(world, w)
    ensures Order(w.track, w.phase) >= 0 && (w.phase == Verify ==> w.child == "")
  {
    hide Ordered, ValidId, OnLane, Order;
  }

  lemma CompletedBudget(w: Workflow, reason: Reason, startAt: int, at: int, p: Phase)
    requires w.status == Running && (NextOf(w.track, w.phase).None? ==> w.child == "")
    ensures Budget(w, p) <= Budget(Completed(w, reason, startAt, at), p)
  {
    hide LastOf, RecordsOf, Closed, NextOf;
    LastOfClosed(w.history, w.phase, w.child, reason, p);
    var h := Closed(w.history, w.phase, w.child, reason);
    if NextOf(w.track, w.phase).Some? {
      LastOfAppend(h, PhaseRecord(NextOf(w.track, w.phase).value, PhaseStarted, "", NoReason, startAt), p);
    }
  }

  lemma CompletedSound(world: World, w: Workflow, reason: Reason, startAt: int, at: int)
    requires Sound(world, w) && w.status == Running && w.phase != Resolve
    ensures var w' := Completed(w, reason, startAt, at);
            && Sound(world, w') && Order(w.track, w.phase) <= Order(w'.track, w'.phase)
  {
    hide Closed, LastOf, NextOf, Order, ValidId, OnLane;
    var w' := Completed(w, reason, startAt, at);
    var h := Closed(w.history, w.phase, w.child, reason);
    NextIsLater(w.track, w.phase);
    ClosedLast(w.history, w.phase, w.child, reason);
    forall p ensures LastOf(w.history, p) == Some(PhaseDone) || p == w.phase ==> LastOf(h, p) == Some(PhaseDone) {
      LastOfClosed(w.history, w.phase, w.child, reason, p);
      LastIsCurrent(w.history);
    }
    if NextOf(w.track, w.phase).Some? {
      var next := NextOf(w.track, w.phase).value;
      forall p | p != next ensures LastOf(w'.history, p) == LastOf(h, p) {
        LastOfAppend(h, PhaseRecord(next, PhaseStarted, "", NoReason, startAt), p);
      }
      OrderApart(w.track, w.phase, next);
      NotOver(w.track, next);
    }
  }

  lemma CompletedCloses(world: World, w: Workflow, reason: Reason, startAt: int, at: int)
    requires w.phase == Verify && w.status == Running && Sound(world, Completed(w, reason, startAt, at))
    ensures var h := Completed(w, reason, startAt, at).history; h != [] && h[|h| - 1].status == PhaseDone
  {
    hide LastOf, ValidId, OnLane, DoneFrom, NextOf, Order;
    NextIsLater(w.track, w.phase);
    var h := Closed(w.history, w.phase, w.child, reason);
    assert h != [] && h[|h| - 1].phase == Verify ==> !Open(h[|h| - 1]);
  }

  lemma LastIsCurrent(h: seq<PhaseRecord>)
    requires h != []
    ensures LastOf(h, h[|h| - 1].phase) == Some(h[|h| - 1].status)
  {}

  /** The last record, when it is the phase's, is the one closed. */
  lemma ClosedLast(h: seq<PhaseRecord>, p: Phase, child: string, reason: Reason)
    requires h != [] && h[|h| - 1].phase == p
    ensures var h' := Closed(h, p, child, reason);
            && |h'| == |h| && h'[|h| - 1].phase == p
            && (Open(h[|h| - 1]) || h[|h| - 1].status == PhaseDone ==> h'[|h| - 1].status == PhaseDone)
  {
    LastOfClosed(h[..|h| - 1], p, child, reason, p);
  }

  /** Two phases of a track are never at one place, and nothing lies between neighbours. */
  lemma OrderApart(track: Track, p: Phase, q: Phase)
    requires Order(track, p) >= 0 && Order(track, q) == Order(track, p) + 1
    ensures forall x :: 0 <= Order(track, x) < Order(track, q) ==> Order(track, x) < Order(track, p) || x == p
    ensures p != q && q != Resolve
  {}

  lemma NotOver(track: Track, p: Phase)
    requires Order(track, p) > 0
    ensures p != Resolve
  {}

  lemma FailingOnward(world: World, w: Workflow, reason: Reason, at: int)
    requires w.status == Running
    ensures Onward(world, w, Failing(w, reason, at))
  {
    hide LastOf, RecordsOf, ValidId, OnLane, Order;
    var w' := Failing(w, reason, at);
    forall p
      ensures RecordsOf(w'.history, p) == RecordsOf(w.history, p)
      ensures AtCurrent(w) && p != w.phase ==> LastOf(w'.history, p) == LastOf(w.history, p)
    {
      FailingRecords(w, reason, at, p);
    }
  }

  lemma FailingRecords(w: Workflow, reason: Reason, at: int, p: Phase)
    ensures var h := Failing(w, reason, at).history;
            && RecordsOf(h, p) == RecordsOf(w.history, p)
            && (AtCurrent(w) && p != w.phase ==> LastOf(h, p) == LastOf(w.history, p))
  {
    hide LastOf, RecordsOf;
    var n := |w.history|;
    if n > 0 {
      var front, r := w.history[..n - 1], w.history[n - 1];
      assert front + [r] == w.history;
      LastOfAppend(front, r, p);
      var r' := r.(status := PhaseFailed, reason := reason);
      assert front + [r'] == w.history[n - 1 := r'];
      LastOfAppend(front, r', p);
    }
  }

  /** A running workflow keeps its place: it takes another child, waits for the operator, or stops. */
  lemma StayedOnward(world: World, a: Workflow, b: Workflow)
    requires a.status == Running && SameIdentity(a, b) && b.phase == a.phase && b.history == a.history
    requires b.status == Running || b.status == Parked || b.status == AwaitingDecision || b.status == Stopped
    requires (b.status == AwaitingDecision <==> b.decision.Some?) || (b.decision == a.decision && b.status != AwaitingDecision)
    requires if b.status == Running then b.child == a.child || (b.child != "" && !Childless(a.phase)) else b.child == ""
    ensures Onward(world, a, b)
  {
    hide LastOf, RecordsOf, ValidId, OnLane, Order;
  }

  /** Another child for one: only phases with children have one. */
  lemma RechildOnward(world: World, a: Workflow, b: Workflow)
    requires a.status == Running && a.child != "" && b.child != ""
    requires b == a.(child := b.child, resumeCount := b.resumeCount, pendingUntil := b.pendingUntil)
    ensures Onward(world, a, b)
  {
    hide LastOf, RecordsOf, ValidId, OnLane, Order;
  }

  lemma ReopenedOnward(world: World, w: Workflow, option: string, at: int)
    requires !w.Historical() && w.status != Done && w.status != Running
    ensures Onward(world, w, Reopened(w, option, at))
  {
    hide LastOf, RecordsOf, ValidId, OnLane, Order;
    forall p
      ensures RecordsOf(Reopened(w, option, at).history, p) == RecordsOf(w.history, p) + if p == w.phase then 1 else 0
      ensures p != w.phase ==> LastOf(Reopened(w, option, at).history, p) == LastOf(w.history, p)
    {
      LastOfAppend(w.history, PhaseRecord(w.phase, PhaseContinued, "", Said(option), at), p);
    }
  }

  /** Verified: done, on evidence. */
  function Finished(w: Workflow): Workflow {
    w.(status := Done, reason := VerifiedCompletion)
  }

  lemma FinishedOnward(world: World, w: Workflow)
    requires w.status == Running && w.evidence.Some? && GoodEvidence(w.evidence.value) && Proven(world, Finished(w))
    requires w.phase == Verify && (Sound(world, w) ==> w.history[|w.history| - 1].status == PhaseDone)
    ensures Onward(world, w, Finished(w))
  {
    hide LastOf, RecordsOf, ValidId, OnLane, Order;
  }

  /** What verify found still holds of the record with the verify phase completed. */
  lemma FactsOutlive(world: World, n: nat, w: Workflow, e: Evidence, startAt: int, at: int)
    requires Facts(world, n, w) && w.phase == Verify && e.verifiedAt == world.now(n)
    ensures Proven(world, Finished(Completed(w.(evidence := Some(e)), VerifiedCompletion, startAt, at)))
  {
    hide NextOf, Order, Closed, SliceProven, HasRaw, LastBuildChild;
    NextIsLater(w.track, w.phase);
    var w' := Finished(Completed(w.(evidence := Some(e)), VerifiedCompletion, startAt, at));
    var h := Closed(w.history, w.phase, w.child, VerifiedCompletion);
    ClosedKeepsDone(w.history, Verify, w.child, VerifiedCompletion);
    forall p | HasVerdict(w, p) ensures HasVerdict(w', p) {
      var i :| 0 <= i < |w.history| && w.history[i].phase == p && w.history[i].status == PhaseDone;
      assert w'.history[i].phase == p && w'.history[i].status == PhaseDone;
    }
    assert Facts(world, n, w');
  }

  lemma {:induction false} ClosedKeepsDone(h: seq<PhaseRecord>, p: Phase, child: string, reason: Reason)
    requires p != Build
    ensures var h' := Closed(h, p, child, reason);
            && |h'| == |h| && LastBuildChild(h') == LastBuildChild(h)
            && forall i | 0 <= i < |h| ::
                 h'[i].phase == h[i].phase && (h[i].status == PhaseDone ==> h'[i].status == PhaseDone)
  {
    hide LastBuildChild;
    if h != [] {
      var front, r := h[..|h| - 1], h[|h| - 1];
      ClosedKeepsDone(front, p, child, reason);
      assert front + [r] == h;
      BuildChildAppend(front, r);
      if r.phase == p && Open(r) {
        BuildChildAppend(front, CloseWith(r, child, reason));
      } else {
        BuildChildAppend(Closed(front, p, child, reason), r);
      }
    }
  }

  lemma BuildChildAppend(h: seq<PhaseRecord>, r: PhaseRecord)
    ensures LastBuildChild(h + [r]) == if r.phase == Build && r.child != "" then r.child else LastBuildChild(h)
  {
    assert (h + [r])[..|h|] == h;
  }

  /** Fresh evidence on a running or done workflow. */
  lemma EvidenceOnward(world: World, w: Workflow, e: Evidence)
    requires w.status == Running || (w.status == Done && Proven(world, w.(evidence := Some(e))))
    requires GoodEvidence(e)
    ensures Onward(world, w, w.(evidence := Some(e)))
  {
    hide Proven, LastOf, RecordsOf, ValidId, OnLane, Order;
  }

  /** What was done is not any more. */
  function Doubted(w: Workflow, doubt: Doubt): Workflow {
    w.(status := Failed, reason := Unverified(doubt))
  }

  lemma DoubtedOnward(world: World, w: Workflow, doubt: Doubt)
    requires w.status == Done
    ensures Onward(world, w, Doubted(w, doubt))
  {
    hide LastOf, RecordsOf, ValidId, OnLane, Order;
  }

  lemma FactsFresh(world: World, n: nat, w: Workflow, e: Evidence)
    requires Facts(world, n, w) && e.verifiedAt == world.now(n)
    ensures Proven(world, w.(evidence := Some(e)))
  {
    hide PrdFacts, PlanFacts, PushHeld;
    FactsSame(world, n, w, w.(evidence := Some(e)));
  }

  /** The recovery guard: a phase recorded done hands over to its successor. Sound records never need it. */
  function Skipped(w: Workflow, next: Phase, at: int, at': int): Workflow {
    w.(phase := next, history := Begin(w.history, next, at), updatedAt := at')
  }

  lemma SkippedOnward(world: World, w: Workflow, next: Phase, at: int, at': int)
    requires w.status == Running && w.phase != Verify && LastOf(w.history, w.phase) == Some(PhaseDone)
    requires NextOf(w.track, w.phase) == Some(next)
    ensures Onward(world, w, Skipped(w, next, at, at')) && Left(Skipped(w, next, at, at')) < Left(w)
  {
    hide Sound, LastOf, Order, NextOf;
    NextWalkable(w.track, w.phase);
    NextIsLater(w.track, w.phase);
    InOrder(w.track, next);
    if Sound(world, w) { SoundNeverSkips(world, w); }
  }

  /** How far a workflow is from its end. */
  function Left(w: Workflow): int {
    if w.status != Running then 0
    else if Order(w.track, w.phase) < 0 then 1
    else 10 - Order(w.track, w.phase)
  }

  lemma InOrder(track: Track, p: Phase)
    ensures Order(track, p) < 8
    ensures p == Resolve <==> Order(track, p) == 0
  {}

  lemma SoundNeverSkips(world: World, w: Workflow)
    requires Sound(world, w) && w.status == Running && w.phase != Verify
    ensures LastOf(w.history, w.phase) != Some(PhaseDone)
  {
    hide ValidId, OnLane, Order;
  }

  // --- the books ---

  datatype SpawnCall = SpawnCall(workflow: string, phase: Phase, request: SpawnRequest)

  datatype Book = Book(
    workflows: map<string, Workflow>,
    byLane: map<string, string>,
    byIdem: map<string, string>,
    journal: map<string, Workflow>,
    written: seq<map<string, Workflow>>,
    spawned: seq<SpawnCall>)

  /** Workflows are filed by id, and whoever has not failed or been stopped owns its lane. */
  ghost predicate LanesOwned(b: Book) {
    && (forall id | id in b.workflows :: b.workflows[id].id == id && Walkable(b.workflows[id]))
    && (forall id | id in b.workflows && !b.workflows[id].Historical() ::
          b.workflows[id].laneKey in b.byLane && b.byLane[b.workflows[id].laneKey] == id)
    && (forall lane | lane in b.byLane :: b.byLane[lane] in b.workflows && b.workflows[b.byLane[lane]].laneKey == lane)
  }

  function SpawnsOf(calls: seq<SpawnCall>, id: string, p: Phase): nat {
    if calls == [] then 0
    else
      var c := calls[|calls| - 1];
      SpawnsOf(calls[..|calls| - 1], id, p) + if c.workflow == id && c.phase == p then 1 else 0
  }

  /** Every spawn of the workflow is charged to a record of its history. */
  ghost predicate Paid(calls: seq<SpawnCall>, w: Workflow) {
    forall p :: SpawnsOf(calls, w.id, p) <= Budget(w, p)
  }

  /** What a crash may lose: the resolved path and the wait shown to the operator. */
  function Core(w: Workflow): Workflow {
    w.(resolvedPath := "", pendingUntil := 0)
  }

  ghost predicate Journaled(journal: map<string, Workflow>, id: string, w: Workflow) {
    id in journal && Core(journal[id]) == Core(w)
  }

  /** The journal holds every workflow as it is. */
  ghost predicate Durable(b: Book) {
    && (forall id | id in b.workflows :: Journaled(b.journal, id, b.workflows[id]))
    && (forall id | id in b.journal :: id in b.workflows)
  }

  ghost predicate AllWritable(world: World) {
    forall n :: world.writable(n)
  }

  /** A journal a restart recovers whole: sound records under their own ids, one live record a lane. */
  ghost predicate SafeJournal(world: World, journal: map<string, Workflow>) {
    && (forall id | id in journal :: journal[id].id == id && Sound(world, journal[id]))
    && (forall x, y | x in journal && y in journal && x != y && !journal[x].Historical() && !journal[y].Historical() ::
          journal[x].laneKey != journal[y].laneKey)
  }

  /** The journal was safe after every single write: `written` is what it held each time. */
  ghost predicate AlwaysSafe(world: World, b: Book) {
    forall i | 0 <= i < |b.written| :: SafeJournal(world, b.written[i])
  }

  lemma JournalSafe(world: World, b: Book)
    requires LanesOwned(b) && Durable(b) && forall id | id in b.workflows :: Sound(world, b.workflows[id])
    ensures SafeJournal(world, b.journal)
  {
    hide Sound, Core;
    forall id | id in b.journal
      ensures b.journal[id].id == id && Sound(world, b.journal[id])
      ensures b.journal[id].laneKey == b.workflows[id].laneKey && b.journal[id].status == b.workflows[id].status
    {
      assert Journaled(b.journal, id, b.workflows[id]);
      SoundCore(world, b.workflows[id], b.journal[id]);
      CoreFields(b.workflows[id], b.journal[id]);
    }
  }

  lemma SoundCore(world: World, a: Workflow, b: Workflow)
    requires Core(a) == Core(b) && Sound(world, a)
    ensures Sound(world, b)
  {
    hide LastOf, ValidId, OnLane, Order, Core;
    CoreFields(a, b);
  }

  lemma CoreFields(a: Workflow, b: Workflow)
    requires Core(a) == Core(b)
    ensures b == a.(resolvedPath := b.resolvedPath, pendingUntil := b.pendingUntil)
  {
    assert Core(a) == a.(resolvedPath := "", pendingUntil := 0);
    assert Core(b).(resolvedPath := b.resolvedPath, pendingUntil := b.pendingUntil) == b;
  }

  /** A write leaves the journal safe, so it has always been. */
  lemma WrittenSafe(world: World, a: Book, b: Book)
    requires LanesOwned(b) && Durable(b) && forall id | id in b.workflows :: Sound(world, b.workflows[id])
    requires AlwaysSafe(world, a) && (b.written == a.written || b.written == a.written + [b.journal])
    ensures AlwaysSafe(world, b)
  {
    hide Sound, Durable, LanesOwned, SafeJournal;
    JournalSafe(world, b);
  }

  /** Each record is sound, no spawn is unpaid, and, as long as the journal takes every write, it is up to
      date and was safe after each of them. */
  ghost predicate Good(world: World, b: Book) {
    && (forall id | id in b.workflows :: Sound(world, b.workflows[id]) && Paid(b.spawned, b.workflows[id]))
    && (forall i | 0 <= i < |b.spawned| :: b.spawned[i].workflow in b.workflows)
    && (AllWritable(world) ==> Durable(b) && AlwaysSafe(world, b))
  }

  /** The spawns between two books are paid for by what the history gained between them. */
  ghost predicate Charged(a: Book, b: Book) {
    forall id, p | id in a.workflows && id in b.workflows ::
      SpawnsOf(b.spawned, id, p) - SpawnsOf(a.spawned, id, p) <= Budget(b.workflows[id], p) - Budget(a.workflows[id], p)
  }

  /** From one book to a later one. */
  ghost predicate Advances(world: World, a: Book, b: Book) {
    && (LanesOwned(a) ==> LanesOwned(b))
    && (forall id | id in a.workflows :: id in b.workflows && Onward(world, a.workflows[id], b.workflows[id]))
    && (LanesOwned(a) && Good(world, a) ==> Good(world, b) && Charged(a, b))
  }

  lemma AdvancesTrans(world: World, a: Book, b: Book, c: Book)
    requires Advances(world, a, b) && Advances(world, b, c)
    ensures Advances(world, a, c)
  {
    hide LanesOwned, Good, Onward, Charged;
    forall id | id in a.workflows ensures id in c.workflows && Onward(world, a.workflows[id], c.workflows[id]) {
      OnwardTrans(world, a.workflows[id], b.workflows[id], c.workflows[id]);
    }
    if LanesOwned(a) && Good(world, a) { ChargedTrans(a, b, c); }
  }

  lemma ChargedTrans(a: Book, b: Book, c: Book)
    requires Charged(a, b) && Charged(b, c) && a.workflows.Keys <= b.workflows.Keys
    ensures Charged(a, c)
  {
    hide Budget, SpawnsOf;
  }

  lemma AdvancesSelf(world: World, a: Book)
    ensures Advances(world, a, a)
  {
    hide LanesOwned, Good, Sound, Budget;
  }

  /** One workflow is rewritten and journaled, or, without being journaled, changed in what a crash may
      lose. */
  ghost predicate Writes(world: World, a: Book, b: Book, id: string, w: Workflow, calls: seq<SpawnCall>) {
    && id in a.workflows && b.workflows == a.workflows[id := w] && b.byLane == a.byLane && b.byIdem == a.byIdem
    && b.spawned == a.spawned + calls
    && (b.journal == a.journal || b.journal == a.journal[id := w])
    && (b.written == a.written || b.written == a.written + [b.journal])
    && (AllWritable(world) && Core(w) != Core(a.workflows[id]) ==> b.journal == a.journal[id := w])
  }

  lemma WriteAdvances(world: World, a: Book, b: Book, id: string, w: Workflow)
    requires Writes(world, a, b, id, w, []) && Onward(world, a.workflows[id], w)
    ensures Advances(world, a, b)
  {
    hide LanesOwned, Good, Onward, Charged;
    WriteLanes(world, a, b, id, w, []);
    if LanesOwned(a) && Good(world, a) {
      WriteGood(world, a, b, id, w);
      WriteCharged(world, a, b, id, w);
    }
    forall x | x in a.workflows ensures x in b.workflows && Onward(world, a.workflows[x], b.workflows[x]) {
      OnwardSelf(world, a.workflows[x]);
    }
  }

  lemma WriteLanes(world: World, a: Book, b: Book, id: string, w: Workflow, calls: seq<SpawnCall>)
    requires Writes(world, a, b, id, w, calls) && Onward(world, a.workflows[id], w)
    ensures LanesOwned(a) ==> LanesOwned(b)
  {
    hide Sound, Funded, Core;
  }

  lemma WriteGood(world: World, a: Book, b: Book, id: string, w: Workflow)
    requires Writes(world, a, b, id, w, []) && Onward(world, a.workflows[id], w)
    requires LanesOwned(a) && Good(world, a)
    ensures Good(world, b)
  {
    hide Sound, Budget, Core, LanesOwned, Durable, AlwaysSafe;
    FiledById(a, id);
    assert b.spawned == a.spawned;
    if AllWritable(world) {
      WriteDurable(world, a, b, id, w, []);
      WriteLanes(world, a, b, id, w, []);
      WrittenSafe(world, a, b);
    }
    forall p ensures SpawnsOf(b.spawned, w.id, p) <= Budget(w, p) {
      assert SpawnsOf(a.spawned, id, p) <= Budget(a.workflows[id], p) <= Budget(w, p);
    }
  }

  lemma WriteCharged(world: World, a: Book, b: Book, id: string, w: Workflow)
    requires Writes(world, a, b, id, w, []) && Onward(world, a.workflows[id], w) && Good(world, a)
    ensures Charged(a, b)
  {
    hide Sound, Budget, Core, Durable, AlwaysSafe, Paid;
    assert b.spawned == a.spawned;
  }

  lemma WriteDurable(world: World, a: Book, b: Book, id: string, w: Workflow, calls: seq<SpawnCall>)
    requires Writes(world, a, b, id, w, calls) && Durable(a) && AllWritable(world)
    ensures Durable(b)
  {
    hide Core;
  }

  lemma FiledById(a: Book, id: string)
    requires LanesOwned(a) && id in a.workflows
    ensures a.workflows[id].id == id
  {}

  /** A spawn for a running workflow without a child, and the record that names the child or the failure. */
  lemma SpawnAdvances(world: World, a: Book, b: Book, id: string, w: Workflow, call: SpawnCall)
    requires Writes(world, a, b, id, w, [call]) && Onward(world, a.workflows[id], w)
    requires a.workflows[id].status == Running && a.workflows[id].child == ""
    requires call.workflow == id && call.phase == a.workflows[id].phase
    requires forall p :: RecordsOf(w.history, p) == RecordsOf(a.workflows[id].history, p)
    requires w.status != Running || w.child != ""
    ensures Advances(world, a, b)
  {
    hide LanesOwned, Good, Onward, Charged, RecordsOf;
    WriteLanes(world, a, b, id, w, [call]);
    if LanesOwned(a) && Good(world, a) {
      SpawnGood(world, a, b, id, w, call);
      SpawnCharged(world, a, b, id, w, call);
    }
    forall x | x in a.workflows ensures x in b.workflows && Onward(world, a.workflows[x], b.workflows[x]) {
      OnwardSelf(world, a.workflows[x]);
    }
  }

  lemma SpawnGood(world: World, a: Book, b: Book, id: string, w: Workflow, call: SpawnCall)
    requires Writes(world, a, b, id, w, [call]) && Onward(world, a.workflows[id], w)
    requires a.workflows[id].status == Running && a.workflows[id].child == ""
    requires call.workflow == id && call.phase == a.workflows[id].phase
    requires w.status != Running || w.child != ""
    requires LanesOwned(a) && Good(world, a)
    requires forall p :: RecordsOf(w.history, p) == RecordsOf(a.workflows[id].history, p)
    ensures Good(world, b)
  {
    hide Sound, Core, LanesOwned, Durable, RecordsOf, AlwaysSafe;
    FiledById(a, id);
    if AllWritable(world) {
      WriteDurable(world, a, b, id, w, [call]);
      WriteLanes(world, a, b, id, w, [call]);
      WrittenSafe(world, a, b);
    }
    assert b.spawned[..|a.spawned|] == a.spawned;
    forall x | x in b.workflows ensures Paid(b.spawned, b.workflows[x]) {
      assert Paid(a.spawned, a.workflows[x]);
      if x != id { FiledById(a, x); }
    }
  }

  lemma SpawnCharged(world: World, a: Book, b: Book, id: string, w: Workflow, call: SpawnCall)
    requires Writes(world, a, b, id, w, [call])
    requires a.workflows[id].status == Running && a.workflows[id].child == ""
    requires call.workflow == id && call.phase == a.workflows[id].phase && (w.status != Running || w.child != "")
    requires forall p :: RecordsOf(w.history, p) == RecordsOf(a.workflows[id].history, p)
    ensures Charged(a, b)
  {
    hide Core, RecordsOf;
    assert b.spawned[..|a.spawned|] == a.spawned;
  }

  /** From one book to a later one, by work on one workflow. */
  ghost predicate Works(world: World, a: Book, b: Book, id: string) {
    && Advances(world, a, b)
    && id in a.workflows && id in b.workflows && b.workflows == a.workflows[id := b.workflows[id]]
    && b.byLane == a.byLane && b.byIdem == a.byIdem
  }

  lemma WorksTrans(world: World, a: Book, b: Book, c: Book, id: string)
    requires Works(world, a, b, id) && Works(world, b, c, id)
    ensures Works(world, a, c, id)
  {
    hide Advances;
    AdvancesTrans(world, a, b, c);
  }

  lemma WorksSelf(world: World, a: Book, id: string)
    requires id in a.workflows
    ensures Works(world, a, a, id)
  {
    hide Advances;
    AdvancesSelf(world, a);
    assert a.workflows[id := a.workflows[id]] == a.workflows;
  }

  lemma WriteWorks(world: World, a: Book, b: Book, id: string, w: Workflow)
    requires Writes(world, a, b, id, w, []) && Onward(world, a.workflows[id], w)
    ensures Works(world, a, b, id)
  {
    hide Advances, Onward, Core;
    WriteAdvances(world, a, b, id, w);
  }

  lemma SpawnWorks(world: World, a: Book, b: Book, id: string, w: Workflow, call: SpawnCall)
    requires Writes(world, a, b, id, w, [call]) && Onward(world, a.workflows[id], w)
    requires a.workflows[id].status == Running && a.workflows[id].child == ""
    requires call.workflow == id && call.phase == a.workflows[id].phase
    requires forall p :: RecordsOf(w.history, p) == RecordsOf(a.workflows[id].history, p)
    requires w.status != Running || w.child != ""
    ensures Works(world, a, b, id)
  {
    hide Advances, Onward, Core, RecordsOf;
    SpawnAdvances(world, a, b, id, w, call);
  }

  // --- a new workflow ---

  function NewWorkflow(id: string, lane: string, info: Target, target: string, engine: string, configDir: string,
                       idemKey: string, now: int): Workflow
  {
    Workflow(id, lane, info.cwd, target, "", engine, configDir, info.track, Resolve, "",
             Begin([], Resolve, now), Running, 0, 0, None, "", NoReason, None, idemKey, now, now)
  }

  lemma NewIsSound(world: World, n: nat, m: nat, cwd: string, target: string, used: set<string>, engine: string,
                   configDir: string, idemKey: string, now: int)
    requires WorldOk(world) && world.resolve(n, cwd, target).Some? && world.trim(target) != ""
    ensures var info := world.resolve(n, cwd, target).value;
            var w := NewWorkflow(world.newId(m, used), info.cwd + "::" + info.identity, info, world.trim(target), engine,
                                 configDir, idemKey, now);
            Sound(world, w) && w.id !in used && Walkable(w)
  {
    hide LastOf, RecordsOf, ValidId;
    var info := world.resolve(n, cwd, target).value;
    assert world.root(info.cwd) == info.cwd;
    assert info.cwd + "::" <= info.cwd + "::" + info.identity;
  }

  /** Nobody live is on the lane: its owner, if any, failed or was stopped. */
  ghost predicate LaneOpen(b: Book, lane: string) {
    lane in b.byLane && b.byLane[lane] in b.workflows ==> b.workflows[b.byLane[lane]].Historical()
  }

  /** A new workflow takes an open lane. */
  ghost predicate Enters(world: World, a: Book, b: Book, w: Workflow) {
    && w.id !in a.workflows && w.status == Running && LaneOpen(a, w.laneKey)
    && b.workflows == a.workflows[w.id := w] && b.byLane == a.byLane[w.laneKey := w.id] && b.spawned == a.spawned
    && (b.journal == a.journal[w.id := w] || (b.journal == a.journal && !AllWritable(world)))
    && (b.written == a.written || b.written == a.written + [b.journal])
  }

  lemma EnterAdvances(world: World, a: Book, b: Book, w: Workflow, now: int)
    requires LanesOwned(a) && Enters(world, a, b, w) && Walkable(w) && Sound(world, w) && w.child == ""
    requires w.history == Begin([], Resolve, now) && w.phase == Resolve
    ensures Advances(world, a, b)
  {
    hide LanesOwned, Good, Onward, Sound, Budget;
    EnterLanes(world, a, b, w);
    if Good(world, a) { EnterGood(world, a, b, w, now); }
    forall x | x in a.workflows ensures Onward(world, a.workflows[x], b.workflows[x]) {
      OnwardSelf(world, a.workflows[x]);
    }
  }

  lemma EnterLanes(world: World, a: Book, b: Book, w: Workflow)
    requires LanesOwned(a) && Enters(world, a, b, w) && Walkable(w)
    ensures LanesOwned(b)
  {}

  lemma EnterGood(world: World, a: Book, b: Book, w: Workflow, now: int)
    requires LanesOwned(a) && LanesOwned(b) && Good(world, a) && Enters(world, a, b, w) && Sound(world, w) && w.child == ""
    requires w.history == Begin([], Resolve, now) && w.phase == Resolve
    ensures Good(world, b)
  {
    hide Sound, LanesOwned, LaneOpen, Core, AlwaysSafe;
    if AllWritable(world) { WrittenSafe(world, a, b); }
    forall p ensures SpawnsOf(b.spawned, w.id, p) <= Budget(w, p) {
      NeverSpawned(a.spawned, w.id, p);
      LastOfAppend([], PhaseRecord(Resolve, PhaseStarted, "", NoReason, now), p);
    }
  }

  lemma {:induction false} NeverSpawned(calls: seq<SpawnCall>, id: string, p: Phase)
    requires forall i | 0 <= i < |calls| :: calls[i].workflow != id
    ensures SpawnsOf(calls, id, p) == 0
  {
    if calls != [] { NeverSpawned(calls[..|calls| - 1], id, p); }
  }

  /** Its first write failed: it never was, and the lane has no owner. */
  lemma LeaveAdvances(world: World, a: Book, b: Book, lane: string)
    requires LanesOwned(a) && LaneOpen(a, lane) && !AllWritable(world)
    requires b.workflows == a.workflows && b.byLane == a.byLane - {lane} && b.spawned == a.spawned
    ensures Advances(world, a, b)
  {
    hide Sound, Paid, Durable, Funded, Proven, AlwaysSafe;
    forall x | x in a.workflows ensures Onward(world, a.workflows[x], b.workflows[x]) {
      OnwardSelf(world, a.workflows[x]);
    }
  }
}
