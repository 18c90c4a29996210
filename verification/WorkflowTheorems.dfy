/** What the coordinator's books mean, after any run of Start, Continue, Stop and Sweep and after any
    reload. */
module WorkflowTheorems {
  import opened Wrappers
  import opened WorkflowRecord
  import opened WorkflowWorld
  import opened WorkflowBook
  import opened WorkflowJournal

  /** A lane has at most one workflow that has not failed or been stopped, and byLane names it. */
  lemma OneLivePerLane(b: Book, x: string, y: string)
    requires LanesOwned(b) && x in b.workflows && y in b.workflows
    requires !b.workflows[x].Historical() && !b.workflows[y].Historical() && b.workflows[x].laneKey == b.workflows[y].laneKey
    ensures x == y && b.byLane[b.workflows[x].laneKey] == x
  {}

  /** Whatever happens later, what failed or was stopped stays exactly as it was. */
  lemma NeverRevived(world: World, a: Book, b: Book, id: string)
    requires Advances(world, a, b) && id in a.workflows && a.workflows[id].Historical()
    ensures id in b.workflows && b.workflows[id] == a.workflows[id]
  {
    hide LanesOwned, Good, Sound, Funded, Proven;
  }

  /** Phases only go forward, along the track. */
  lemma PhasesGoForward(world: World, a: Book, b: Book, id: string)
    requires Advances(world, a, b) && LanesOwned(a) && Good(world, a) && id in a.workflows
    ensures id in b.workflows && b.workflows[id].track == a.workflows[id].track
    ensures 0 <= Order(a.workflows[id].track, a.workflows[id].phase) <= Order(b.workflows[id].track, b.workflows[id].phase)
  {
    hide LanesOwned, Funded, Proven, Ordered, Order, ValidId, OnLane, Durable, Paid;
  }

  /** Done is only reached from verify, on facts that held. */
  lemma DoneIsProven(world: World, a: Book, b: Book, id: string)
    requires Advances(world, a, b) && LanesOwned(a) && Good(world, a) && id in b.workflows && b.workflows[id].status == Done
    requires id in a.workflows && a.workflows[id].status != Done
    ensures b.workflows[id].phase == Verify && Proven(world, b.workflows[id])
  {
    hide LanesOwned, Funded, Ordered, Order, ValidId, OnLane, Durable, Paid, Facts;
  }

  /** The position of the first phase after resolve that was chosen. */
  ghost predicate ChosenAt(w: Workflow, f: int) {
    if w.track == Plan then f == 1 else f == 1 || f == 2 || f == 4
  }

  /** Every phase from the first one chosen up to the current one has its done record. */
  lemma PhasesWalked(world: World, w: Workflow) returns (f: int)
    requires Sound(world, w) && w.phase != Resolve
    ensures ChosenAt(w, f) && f <= Order(w.track, w.phase)
    ensures forall p | f <= Order(w.track, p) < Order(w.track, w.phase) :: HasVerdict(w, p)
  {
    hide Order, LastOf, ValidId, OnLane, HasVerdict;
    f := if DoneFrom(w, 1) then 1 else if DoneFrom(w, 2) then 2 else 4;
    forall p | f <= Order(w.track, p) < Order(w.track, w.phase) ensures HasVerdict(w, p) {
      LastIsVerdict(w, w.history, p);
    }
  }

  /** No double spawn: over any stretch the children of a phase are charged to the history records the
      phase gained in it, one more is owed only to a running workflow that has none, and who does not run
      has no child. */
  lemma SpawnsAreCharged(world: World, a: Book, b: Book, id: string, p: Phase)
    requires Advances(world, a, b) && LanesOwned(a) && Good(world, a) && id in b.workflows
    ensures var w := b.workflows[id];
            && SpawnsOf(b.spawned, id, p) + Slack(w, p) <= RecordsOf(w.history, p)
            && (w.status != Running ==> w.child == "")
            && (id in a.workflows ==>
                  var v := a.workflows[id];
                  SpawnsOf(b.spawned, id, p) - SpawnsOf(a.spawned, id, p) + Slack(w, p)
                  <= RecordsOf(w.history, p) - RecordsOf(v.history, p) + Slack(v, p))
  {
    hide LanesOwned, Onward, Ordered, Order, ValidId, OnLane, Durable, SpawnsOf, RecordsOf, AlwaysSafe;
    FiledById(b, id);
    assert Paid(b.spawned, b.workflows[id]);
    assert SpawnsOf(b.spawned, id, p) <= Budget(b.workflows[id], p);
  }

  /** A record refused at a collision can be loaded again exactly when it did not await a decision: the
      refusal leaves the decision in place. */
  lemma RefusedLoadsIff(world: World, w: Workflow, at: int)
    requires ValidWorkflow(world, w)
    ensures ValidWorkflow(world, Duplicate(w, at)) <==> w.status != AwaitingDecision
  {
    hide ValidId, OnLane;
  }

  /** A reload refuses all live records of a lane exactly when their number is even: an odd one out is
      selected, and it is the last one read. */
  lemma CollisionFailsClosedIffEven(world: World, recs: seq<Workflow>, b: Book, lane: string)
    requires OddOnesOwn(world, recs, b)
    ensures var live := LiveOn(world, recs, lane);
            && (NoneLive(b, lane) <==> |live| % 2 == 0)
            && (|live| % 2 == 1 ==> Owns(b, lane, live[|live| - 1]) && !live[|live| - 1].Historical())
  {
    hide LiveOn, NoneLive, Owns;
    assert Parity(LiveOn(world, recs, lane), b, lane);
    LiveOnes(world, recs, lane);
  }

  /** A live workflow on lane /r::t. */
  function Rival(id: string): Workflow {
    Workflow(id, "/r::t", "/r", "t", "", "", "", PRD, Resolve, "", Begin([], Resolve, 1), Running, 0, 0, None, "",
             NoReason, None, "", 1, 1)
  }

  /** Three live records of one lane: the third is selected. */
  lemma ThirdRivalOwns(world: World, b: Book)
    requires world.root("/r") == "/r" && OddOnesOwn(world, [Rival("a"), Rival("b"), Rival("c")], b)
    ensures Owns(b, "/r::t", Rival("c")) && !Rival("c").Historical()
  {
    hide LiveOn, NoneLive, Owns;
    var recs := [Rival("a"), Rival("b"), Rival("c")];
    RivalValid(world, "a");
    RivalValid(world, "b");
    RivalValid(world, "c");
    NobodyLives(world, "/r::t");
    LiveMore(world, [], Rival("a"), "/r::t");
    LiveMore(world, [Rival("a")], Rival("b"), "/r::t");
    LiveMore(world, [Rival("a"), Rival("b")], Rival("c"), "/r::t");
    assert [] + [Rival("a")] == [Rival("a")] && [Rival("a")] + [Rival("b")] == [Rival("a"), Rival("b")];
    assert [Rival("a"), Rival("b")] + [Rival("c")] == recs;
    CollisionFailsClosedIffEven(world, recs, b, "/r::t");
  }

  lemma NobodyLives(world: World, lane: string)
    ensures LiveOn(world, [], lane) == []
  {}

  lemma RivalValid(world: World, id: string)
    requires world.root("/r") == "/r" && id in {"a", "b", "c"}
    ensures ValidWorkflow(world, Rival(id)) && !Rival(id).Historical() && Rival(id).laneKey == "/r::t"
  {}
}
